/** `shorten` of tools/govulncheck-report/report.go: one line of limited length. */
module Summaries {
  import opened Spaces

  const LIMIT: nat := 200

  /** The word at the front: everything before the first space. */
  function Word(s: string): (word: string)
    ensures word <= s && forall i :: 0 <= i < |word| ==> !IsSpace(word[i])
    ensures |word| < |s| ==> IsSpace(s[|word|])
  {
    if s == "" || IsSpace(s[0]) then "" else [s[0]] + Word(s[1..])
  }

  /** strings.Fields. */
  function Fields(s: string): (words: seq<string>)
    ensures forall i :: 0 <= i < |words| ==> IsWord(words[i])
    decreases |s|
  {
    if s == "" then []
    else if IsSpace(s[0]) then Fields(s[1..])
    else [Word(s)] + Fields(s[|Word(s)|..])
  }

  predicate IsWord(s: string) {
    s != "" && forall i :: 0 <= i < |s| ==> !IsSpace(s[i])
  }

  /** strings.Join with a blank. */
  function Line(words: seq<string>): string {
    if words == [] then ""
    else if |words| == 1 then words[0]
    else words[0] + " " + Line(words[1..])
  }

  function Shorten(value: string, limit: nat): string
    requires 3 <= limit
  {
    var text := Line(Fields(value));
    if |text| <= limit then text else text[..limit - 3] + "..."
  }

  // ----- What the fields are -----

  predicate AllSpace(s: string) {
    forall i :: 0 <= i < |s| ==> IsSpace(s[i])
  }

  lemma FieldsOfWord(word: string)
    requires IsWord(word)
    ensures Fields(word) == [word]
  {
    WordBeforeBlank(word, "");
    assert word + "" == word;
    assert word[|word|..] == "";
  }

  lemma {:induction false} FieldsOfSpace(s: string, rest: string)
    requires AllSpace(s)
    ensures Fields(s + rest) == Fields(rest)
  {
    if s == "" {
      assert s + rest == rest;
    } else {
      assert (s + rest)[1..] == s[1..] + rest;
      FieldsOfSpace(s[1..], rest);
    }
  }

  /** A word, white space, and more: the word comes first, and the white space does not matter. */
  lemma FieldsOfMore(word: string, space: string, rest: string)
    requires IsWord(word) && AllSpace(space) && space != ""
    ensures Fields(word + space + rest) == [word] + Fields(rest)
  {
    var s, more := word + space + rest, space + rest;
    assert s == word + more && IsSpace(more[0]);
    WordBeforeBlank(word, more);
    assert s[|word|..] == more;
    FieldsOfSpace(space, rest);
  }

  /** The fields are the words: text without words has none, a word is its own, and any other text starts with
      white space or with a word and white space, and goes on as the rest does. */
  lemma FieldsExactly(before: string, word: string, space: string, rest: string)
    requires AllSpace(before) && IsWord(word) && AllSpace(space) && (space != "" || rest == "")
    ensures Fields(before) == []
    ensures Fields(before + word + space + rest) == [word] + Fields(rest)
  {
    FieldsOfSpace(before, "");
    assert before + "" == before;
    assert before + word + space + rest == before + (word + space + rest);
    FieldsOfSpace(before, word + space + rest);
    if space == "" {
      assert word + space + rest == word;
      FieldsOfWord(word);
    } else {
      FieldsOfMore(word, space, rest);
    }
  }

  // ----- Tidy text -----

  /** Words with one blank between them and nothing around them. */
  predicate Tidy(s: string) {
    s != "" ==> !IsSpace(s[0]) && !IsSpace(s[|s| - 1]) && Spaced(s)
  }

  /** All white space is single blanks. */
  predicate Spaced(s: string) {
    && (forall i :: 0 <= i < |s| && IsSpace(s[i]) ==> s[i] == ' ')
    && (forall i :: 0 <= i < |s| - 1 && IsSpace(s[i]) ==> !IsSpace(s[i + 1]))
  }

  lemma TidyBlankTidy(a: string, b: string)
    requires a != "" && b != "" && Tidy(a) && Tidy(b)
    ensures Tidy(a + " " + b) && a + " " + b != ""
  {
    var s := a + " " + b;
    assert s[0] == a[0] && s[|s| - 1] == b[|b| - 1] && s[|a|] == ' ' && s[|a| - 1] == a[|a| - 1] && s[|a| + 1] == b[0];
    forall i | 0 <= i < |s| - 1 && IsSpace(s[i]) ensures !IsSpace(s[i + 1]) {
      if i < |a| - 1 {
        assert s[i] == a[i] && s[i + 1] == a[i + 1];
      } else if i > |a| {
        assert s[i] == b[i - |a| - 1] && s[i + 1] == b[i - |a|];
      }
    }
  }

  lemma {:induction false} LineIsTidy(words: seq<string>)
    requires forall i :: 0 <= i < |words| ==> IsWord(words[i])
    ensures Tidy(Line(words)) && (words != [] ==> Line(words) != "")
  {
    if |words| <= 1 {
      assert words != [] ==> IsWord(words[0]);
    } else {
      LineIsTidy(words[1..]);
      assert IsWord(words[0]);
      TidyBlankTidy(words[0], Line(words[1..]));
    }
  }

  lemma {:induction false} WordBeforeBlank(word: string, rest: string)
    requires IsWord(word) && (rest == "" || IsSpace(rest[0]))
    ensures Word(word + rest) == word
  {
    var s := word + rest;
    if |word| == 1 {
      assert s[1..] == rest;
    } else {
      assert s[1..] == word[1..] + rest;
      WordBeforeBlank(word[1..], rest);
    }
  }

  lemma RestIsTidy(s: string, n: nat)
    requires Tidy(s) && n < |s| - 1 && s[n] == ' '
    ensures Tidy(s[n + 1..]) && s[n + 1..] != ""
  {
    var rest := s[n + 1..];
    assert IsSpace(s[n]) && rest[0] == s[n + 1] && rest[|rest| - 1] == s[|s| - 1];
    forall i | 0 <= i < |rest| - 1 && IsSpace(rest[i]) ensures !IsSpace(rest[i + 1]) {
      assert rest[i] == s[n + 1 + i] && rest[i + 1] == s[n + 2 + i];
    }
  }

  lemma {:induction false} TidyIsItsLine(s: string)
    requires Tidy(s)
    ensures Line(Fields(s)) == s
    ensures s != "" ==> Fields(s) != []
    decreases |s|
  {
    if s == "" {
      assert Fields(s) == [];
    } else {
      var word := Word(s);
      var n := |word|;
      if n == |s| {
        assert s[n..] == "" && word == s;
      } else {
        assert IsSpace(s[n]) && s[n] == ' ' && n < |s| - 1;
        RestIsTidy(s, n);
        TidyIsItsLine(s[n + 1..]);
        assert s[n..][1..] == s[n + 1..];
        assert Fields(s) == [word] + Fields(s[n + 1..]);
        assert Fields(s)[1..] == Fields(s[n + 1..]);
        assert s == word + " " + s[n + 1..];
      }
    }
  }

  lemma CutIsTidy(s: string, n: nat)
    requires Tidy(s) && 0 < n <= |s|
    ensures Tidy(s[..n] + "...")
  {
    var t := s[..n] + "...";
    assert t[0] == s[0] && t[|t| - 1] == '.' && t[n] == '.';
    forall i | 0 <= i < |t| - 1 && IsSpace(t[i]) ensures !IsSpace(t[i + 1]) {
      assert i < n && t[i] == s[i];
    }
  }

  /** The result fits, is tidy, and is not changed by shortening it again; tidy text that fits is kept as it
      is, and any other text keeps the start of its line. */
  lemma ShortenKeeps(value: string, limit: nat)
    requires 4 <= limit
    ensures var short := Shorten(value, limit);
      && |short| <= limit && Tidy(short) && Shorten(short, limit) == short
      && (Tidy(value) && |value| <= limit ==> short == value)
      && short[..Min(|short|, limit - 3)] <= Line(Fields(value))
      && (|Line(Fields(value))| > limit ==> |short| == limit && short[limit - 3..] == "...")
      && (|Line(Fields(value))| <= limit ==> short == Line(Fields(value)))
  {
    var text := Line(Fields(value));
    LineIsTidy(Fields(value));
    if |text| > limit {
      CutIsTidy(text, limit - 3);
      assert Shorten(value, limit)[..limit - 3] == text[..limit - 3];
    }
    TidyIsItsLine(Shorten(value, limit));
    if Tidy(value) {
      TidyIsItsLine(value);
    }
  }

  function Min(a: nat, b: nat): nat {
    if a < b then a else b
  }
}
