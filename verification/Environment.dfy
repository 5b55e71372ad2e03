/** `setEnv` of pkg/trivy/wrapper.go: giving a child process settings that win over its inherited environment. */
module Environment {
  import opened Wrappers

  // ----- Entries -----

  /** strings.Cut at the first "=": the part before it, or everything. */
  function KeyOf(entry: string): (key: string)
    ensures '=' !in key
    ensures key <= entry && (|key| < |entry| ==> entry[|key|] == '=')
  {
    if entry == "" || entry[0] == '=' then "" else [entry[0]] + KeyOf(entry[1..])
  }

  /** strings.HasPrefix(entry, key + "="). */
  predicate Sets(entry: string, key: string) {
    key + "=" <= entry
  }

  /** Asking for the prefix is asking for the key: "A=" is not found in "AB=1", nor in a bare "A". */
  lemma SetsItsKey(entry: string, key: string)
    requires '=' !in key
    ensures Sets(entry, key) <==> '=' in entry && KeyOf(entry) == key
  {
    var own := KeyOf(entry);
    if Sets(entry, key) {
      assert (key + "=")[|key|] == '=' && entry[|key|] == '=';
      assert forall i :: 0 <= i < |key| ==> entry[i] == (key + "=")[i] && key[i] in key;
      assert forall i :: 0 <= i < |own| ==> entry[i] == own[i] && own[i] in own;
      assert |own| == |key|;
    }
    if '=' in entry && own == key {
      assert |own| == |entry| ==> own == entry;
      assert entry[..|key| + 1] == key + "=";
    }
  }

  /** The value a process reads for `key`: the last entry wins. */
  function Lookup(env: seq<string>, key: string): Option<string> {
    if env == [] then None
    else if Sets(env[|env| - 1], key) then Some(env[|env| - 1][|key| + 1..])
    else Lookup(env[..|env| - 1], key)
  }

  function Occurrences(env: seq<string>, key: string): nat {
    if env == [] then 0
    else Occurrences(env[..|env| - 1], key) + (if Sets(env[|env| - 1], key) then 1 else 0)
  }

  /** The entries for other keys, in their order. */
  function Others(env: seq<string>, key: string): seq<string> {
    if env == [] then []
    else Others(env[..|env| - 1], key) + (if Sets(env[|env| - 1], key) then [] else [env[|env| - 1]])
  }

  // ----- setEnv -----

  function SetAll(env: seq<string>, values: seq<string>): seq<string> {
    if values == [] then env
    else
      var value := values[|values| - 1];
      Others(SetAll(env, values[..|values| - 1]), KeyOf(value)) + [value]
  }

  method SetEnv(inherited: seq<string>, values: seq<string>) returns (env: seq<string>)
    ensures env == SetAll(inherited, values)
  {
    env := inherited;
    for i := 0 to |values|
      invariant env == SetAll(inherited, values[..i])
    {
      var key := KeyOf(values[i]);
      var filtered := [];
      for j := 0 to |env|
        invariant filtered == Others(env[..j], key)
      {
        assert env[..j + 1][..j] == env[..j];
        if !Sets(env[j], key) {
          filtered := filtered + [env[j]];
        }
      }
      assert env[..|env|] == env && values[..i + 1][..i] == values[..i];
      env := filtered + [values[i]];
    }
    assert values[..|values|] == values;
  }

  // ----- What it means -----

  /** The last setting for `key`, with or without a value. */
  function LastSetting(values: seq<string>, key: string): (setting: Option<string>)
    ensures setting.Some? ==> setting.value in values && KeyOf(setting.value) == key
  {
    if values == [] then None
    else if KeyOf(values[|values| - 1]) == key then Some(values[|values| - 1])
    else LastSetting(values[..|values| - 1], key)
  }

  /** How a setting reads: `KEY=value` as its value, a bare `KEY` as unset. */
  function Reading(setting: string, key: string): Option<string>
    requires KeyOf(setting) == key
  {
    if |key| < |setting| then Some(setting[|key| + 1..]) else None
  }

  lemma {:induction false} LookupAmongOthers(env: seq<string>, removed: string, key: string)
    requires '=' !in removed && '=' !in key
    ensures Lookup(Others(env, removed), key) == if key == removed then None else Lookup(env, key)
  {
    if env == [] {
    } else {
      var init, last := env[..|env| - 1], env[|env| - 1];
      LookupAmongOthers(init, removed, key);
      SetsItsKey(last, removed);
      SetsItsKey(last, key);
      if Sets(last, removed) {
        assert Others(init, removed) + [] == Others(init, removed);
      } else {
        LookupAppend(Others(init, removed), last, key);
      }
    }
  }

  lemma LookupAppend(env: seq<string>, entry: string, key: string)
    ensures Lookup(env + [entry], key) == if Sets(entry, key) then Some(entry[|key| + 1..]) else Lookup(env, key)
  {
    assert (env + [entry])[..|env|] == env;
  }

  lemma BareSetsNothing(setting: string)
    ensures '=' in setting <==> |KeyOf(setting)| < |setting|
  {
    var key := KeyOf(setting);
    if |key| == |setting| {
      assert key == setting;
    }
  }

  /** What a child reads for `key` once `values` have been set over `env`. */
  function Overridden(env: seq<string>, values: seq<string>, key: string): Option<string> {
    match LastSetting(values, key)
    case Some(setting) => Reading(setting, key)
    case None => Lookup(env, key)
  }

  lemma SetOneOverrides(env: seq<string>, value: string, key: string)
    requires '=' !in key
    ensures Lookup(Others(env, KeyOf(value)) + [value], key)
      == if KeyOf(value) == key then Reading(value, key) else Lookup(env, key)
  {
    LookupAmongOthers(env, KeyOf(value), key);
    LookupAppend(Others(env, KeyOf(value)), value, key);
    SetsItsKey(value, key);
    BareSetsNothing(value);
  }

  /** The child reads the last setting for a key where there is one, and its inherited value elsewhere. */
  lemma {:induction false} SettingsOverride(env: seq<string>, values: seq<string>, key: string)
    requires '=' !in key
    ensures Lookup(SetAll(env, values), key) == Overridden(env, values, key)
  {
    if values == [] {
    } else {
      var init, value := values[..|values| - 1], values[|values| - 1];
      SettingsOverride(env, init, key);
      SetOneOverrides(SetAll(env, init), value, key);
    }
  }

  lemma {:induction false} OccurrencesAmongOthers(env: seq<string>, removed: string, key: string)
    requires '=' !in removed && '=' !in key
    ensures Occurrences(Others(env, removed), key) == if key == removed then 0 else Occurrences(env, key)
  {
    if env == [] {
    } else {
      var init, last := env[..|env| - 1], env[|env| - 1];
      OccurrencesAmongOthers(init, removed, key);
      SetsItsKey(last, removed);
      SetsItsKey(last, key);
      if Sets(last, removed) {
        assert Others(init, removed) + [] == Others(init, removed);
      } else {
        assert (Others(init, removed) + [last])[..|Others(init, removed)|] == Others(init, removed);
      }
    }
  }

  /** Every key that is set occurs once, or not at all if its last setting is bare; no other key is touched. */
  lemma {:induction false} SetOnce(env: seq<string>, values: seq<string>, key: string)
    requires '=' !in key
    ensures Occurrences(SetAll(env, values), key) ==
      match LastSetting(values, key)
      case Some(setting) => (if '=' in setting then 1 else 0)
      case None => Occurrences(env, key)
  {
    if values == [] {
    } else {
      var init, value := values[..|values| - 1], values[|values| - 1];
      var rest := Others(SetAll(env, init), KeyOf(value));
      SetOnce(env, init, key);
      OccurrencesAmongOthers(SetAll(env, init), KeyOf(value), key);
      SetsItsKey(value, key);
      assert (rest + [value])[..|rest|] == rest;
    }
  }

  // ----- Order -----

  /** The entries that no setting concerns, in their order. */
  function Untouched(env: seq<string>, values: seq<string>): seq<string> {
    if values == [] then env
    else Others(Untouched(env, values[..|values| - 1]), KeyOf(values[|values| - 1]))
  }

  lemma {:induction false} OthersOfConcat(a: seq<string>, b: seq<string>, key: string)
    ensures Others(a + b, key) == Others(a, key) + Others(b, key)
  {
    if b == [] {
      assert a + b == a;
    } else {
      OthersOfConcat(a, b[..|b| - 1], key);
      assert (a + b)[..|a + b| - 1] == a + b[..|b| - 1];
    }
  }

  lemma Reassociated(a: seq<string>, b: seq<string>, c: seq<string>)
    ensures a + b + c == a + (b + c)
  {
  }

  /** The inherited entries nobody set come first, in their old order; then come the settings, which do
      not depend on what was inherited. */
  lemma {:induction false} UntouchedThenSettings(env: seq<string>, values: seq<string>)
    ensures SetAll(env, values) == Untouched(env, values) + SetAll([], values)
  {
    if values == [] {
      assert env + [] == env;
    } else {
      var init, value := values[..|values| - 1], values[|values| - 1];
      UntouchedThenSettings(env, init);
      var u, rest := Untouched(env, init), SetAll([], init);
      OthersOfConcat(u, rest, KeyOf(value));
      Reassociated(Others(u, KeyOf(value)), Others(rest, KeyOf(value)), [value]);
    }
  }

  // ----- A second application -----

  lemma {:induction false} UntouchedOfConcat(a: seq<string>, b: seq<string>, values: seq<string>)
    ensures Untouched(a + b, values) == Untouched(a, values) + Untouched(b, values)
  {
    if values == [] {
    } else {
      var init, value := values[..|values| - 1], values[|values| - 1];
      UntouchedOfConcat(a, b, init);
      OthersOfConcat(Untouched(a, init), Untouched(b, init), KeyOf(value));
    }
  }

  lemma OthersAppend(env: seq<string>, entry: string, key: string)
    ensures Others(env + [entry], key) == if Sets(entry, key) then Others(env, key) else Others(env, key) + [entry]
  {
    assert (env + [entry])[..|env|] == env;
    assert Others(env, key) + [] == Others(env, key);
  }

  lemma {:induction false} OthersTwice(env: seq<string>, k: string, l: string)
    ensures Others(Others(env, k), l) == Others(Others(env, l), k)
    ensures Others(Others(env, k), k) == Others(env, k)
  {
    if env == [] {
    } else {
      var init, last := env[..|env| - 1], env[|env| - 1];
      assert env == init + [last];
      OthersTwice(init, k, l);
      OthersAppend(init, last, k);
      OthersAppend(init, last, l);
      OthersAppend(Others(init, k), last, l);
      OthersAppend(Others(init, l), last, k);
      OthersAppend(Others(init, k), last, k);
    }
  }

  lemma {:induction false} OthersOfUntouched(env: seq<string>, values: seq<string>, key: string)
    ensures Others(Untouched(env, values), key) == Untouched(Others(env, key), values)
  {
    if values == [] {
    } else {
      var init, value := values[..|values| - 1], values[|values| - 1];
      OthersOfUntouched(env, init, key);
      OthersTwice(Untouched(env, init), KeyOf(value), key);
    }
  }

  lemma {:induction false} UntouchedTwice(env: seq<string>, values: seq<string>)
    ensures Untouched(Untouched(env, values), values) == Untouched(env, values)
  {
    if values == [] {
    } else {
      var init, value := values[..|values| - 1], values[|values| - 1];
      var k := KeyOf(value);
      var u := Untouched(env, init);
      UntouchedTwice(env, init);
      OthersOfUntouched(u, init, k);
      OthersTwice(u, k, k);
    }
  }

  lemma {:induction false} AmongOthers(env: seq<string>, key: string, entry: string)
    ensures entry in Others(env, key) <==> entry in env && !Sets(entry, key)
  {
    if env == [] {
    } else {
      var init, last := env[..|env| - 1], env[|env| - 1];
      AmongOthers(init, key, entry);
      assert env == init + [last];
    }
  }

  ghost predicate Concerned(entry: string, values: seq<string>) {
    exists i :: 0 <= i < |values| && Sets(entry, KeyOf(values[i]))
  }

  lemma ConcernedAppend(entry: string, values: seq<string>, value: string)
    ensures Concerned(entry, values + [value]) <==> Concerned(entry, values) || Sets(entry, KeyOf(value))
  {
    var all := values + [value];
    assert all[|values|] == value;
    if i :| 0 <= i < |values| && Sets(entry, KeyOf(values[i])) {
      assert all[i] == values[i];
    }
  }

  lemma {:induction false} AmongUntouched(env: seq<string>, values: seq<string>, entry: string)
    ensures entry in Untouched(env, values) <==> entry in env && !Concerned(entry, values)
  {
    if values == [] {
    } else {
      var init, value := values[..|values| - 1], values[|values| - 1];
      AmongUntouched(env, init, entry);
      AmongOthers(Untouched(env, init), KeyOf(value), entry);
      assert values == init + [value];
      ConcernedAppend(entry, init, value);
    }
  }

  lemma {:induction false} AmongSettings(values: seq<string>, entry: string)
    ensures entry in SetAll([], values) ==> entry in values
    ensures entry in values && '=' !in entry ==> entry in SetAll([], values)
  {
    if values == [] {
    } else {
      var init, value := values[..|values| - 1], values[|values| - 1];
      AmongSettings(init, entry);
      AmongOthers(SetAll([], init), KeyOf(value), entry);
      SetsItsKey(entry, KeyOf(value));
      assert values == init + [value];
    }
  }

  /** Of the settings themselves, a second pass leaves the bare ones untouched and no others. */
  lemma SettingsUntouched(values: seq<string>)
    ensures (forall v :: v in values ==> '=' in v) <==> Untouched(SetAll([], values), values) == []
  {
    var settings := SetAll([], values);
    var left := Untouched(settings, values);
    if v :| v in values && '=' !in v {
      AmongSettings(values, v);
      forall i | 0 <= i < |values| ensures !Sets(v, KeyOf(values[i])) {
        SetsItsKey(v, KeyOf(values[i]));
      }
      AmongUntouched(settings, values, v);
    } else if left != [] {
      var entry := left[0];
      AmongUntouched(settings, values, entry);
      AmongSettings(values, entry);
      SetsItsKey(entry, KeyOf(entry));
    }
  }

  /** Applying the same settings again changes nothing exactly when none of them is bare: a bare one is
      never found as an old entry for its key, and piles up. */
  lemma SetTwice(env: seq<string>, values: seq<string>)
    ensures SetAll(SetAll(env, values), values) == SetAll(env, values) <==> forall v :: v in values ==> '=' in v
  {
    var settings, rest := SetAll([], values), Untouched(env, values);
    var once := SetAll(env, values);
    UntouchedThenSettings(env, values);
    UntouchedThenSettings(once, values);
    UntouchedOfConcat(rest, settings, values);
    UntouchedTwice(env, values);
    SettingsUntouched(values);
    var left := Untouched(settings, values);
    assert SetAll(once, values) == rest + left + settings;
    if left == [] {
      assert rest + left == rest;
    } else {
      assert |rest + left + settings| > |rest + settings|;
    }
  }
}
