/**
 The memory limit of the Trivy child (pkg/trivy/memory.go): which settings the Go runtime accepts, and the
 limit derived from the cgroup when none is set.
 */
module GoMemLimit {
  import opened Wrappers
  import opened Spaces

  const MAX_INT64: int := 0x7fff_ffff_ffff_ffff
  const MAX_UINT64: int := 0xffff_ffff_ffff_ffff

  // ----- Decimal numbers -----

  predicate IsDigit(c: char) {
    '0' <= c <= '9'
  }

  predicate AllDigits(s: string) {
    forall i :: 0 <= i < |s| ==> IsDigit(s[i])
  }

  /** The number a string of digits denotes. */
  function Value(digits: string): (n: nat)
    requires AllDigits(digits)
  {
    if digits == "" then 0
    else 10 * Value(digits[..|digits| - 1]) + (digits[|digits| - 1] as int - '0' as int)
  }

  /** strconv.FormatInt for a number that is not negative. */
  function Decimal(n: nat): (s: string)
    ensures s != "" && AllDigits(s)
    ensures n > 0 ==> s[0] != '0'
  {
    var last := [(n % 10 + '0' as int) as char];
    if n < 10 then last else Decimal(n / 10) + last
  }

  lemma {:induction false} ValueOfDecimal(n: nat)
    ensures Value(Decimal(n)) == n
  {
    var s := Decimal(n);
    if n < 10 {
      assert s[..0] == "";
    } else {
      ValueOfDecimal(n / 10);
      assert s[..|s| - 1] == Decimal(n / 10);
    }
  }

  /** No leading zero, except in "0" itself. */
  predicate Canonical(digits: string) {
    AllDigits(digits) && digits != "" && (digits[0] == '0' ==> digits == "0")
  }

  lemma {:induction false} ValuePositive(digits: string)
    requires AllDigits(digits) && digits != "" && digits[0] != '0'
    ensures Value(digits) > 0
  {
    if |digits| > 1 {
      ValuePositive(digits[..|digits| - 1]);
    } else {
      assert digits[..0] == "";
    }
  }

  /** Printing and reading undo each other, on exactly the strings that are printed. */
  lemma {:induction false} DecimalOfValue(digits: string)
    requires AllDigits(digits) && digits != ""
    ensures Decimal(Value(digits)) == digits <==> Canonical(digits)
  {
    var init, d := digits[..|digits| - 1], digits[|digits| - 1] as int - '0' as int;
    var n := Value(digits);
    if Canonical(digits) {
      assert (d + '0' as int) as char == digits[|digits| - 1];
      if |digits| == 1 {
        assert Value(init) == 0 && n == d;
      } else {
        ValuePositive(init);
        DecimalOfValue(init);
        assert n / 10 == Value(init) && n % 10 == d;
        assert digits == init + [digits[|digits| - 1]];
      }
    } else if n > 0 {
      assert Decimal(n)[0] != '0';
    } else {
      assert Decimal(0) == "0";
    }
  }

  // ----- The validator -----

  datatype Unit = Unit(suffix: string, bytes: nat)

  const UNITS: seq<Unit> := [
    Unit("", 1), Unit("B", 1), Unit("KiB", 0x400), Unit("MiB", 0x10_0000), Unit("GiB", 0x4000_0000), Unit("TiB", 0x100_0000_0000)]

  /** The digits in front: what "[0-9]+" of the pattern can take, up to the suffix. */
  function DigitsOf(value: string): (digits: string)
    ensures digits <= value && AllDigits(digits)
    ensures |digits| < |value| ==> !IsDigit(value[|digits|])
  {
    if value == "" || !IsDigit(value[0]) then "" else [value[0]] + DigitsOf(value[1..])
  }

  /** The position of the suffix in `UNITS`, or none. */
  function UnitOf(suffix: string): (unit: Option<nat>)
    ensures unit.Some? ==> unit.value < |UNITS| && UNITS[unit.value].suffix == suffix && UNITS[unit.value].bytes > 0
    ensures unit.None? ==> forall i :: 0 <= i < |UNITS| ==> UNITS[i].suffix != suffix
  {
    if suffix == "" then Some(0) else if suffix == "B" then Some(1) else if suffix == "KiB" then Some(2)
    else if suffix == "MiB" then Some(3) else if suffix == "GiB" then Some(4) else if suffix == "TiB" then Some(5)
    else None
  }

  /** validGoMemLimit: match the pattern, read the digits as a uint64, compare with the maximum over the unit. */
  predicate ValidGoMemLimit(value: string) {
    var digits := DigitsOf(value);
    var unit := UnitOf(value[|digits|..]);
    && digits != "" && unit.Some?
    && Value(digits) <= MAX_UINT64
    && Value(digits) <= MAX_INT64 / UNITS[unit.value].bytes
  }

  /** What the units are: powers of 1024. */
  lemma UnitSizes(unit: Unit)
    ensures unit in UNITS <==>
      || unit == Unit("", 1) || unit == Unit("B", 1)
      || unit == Unit("KiB", 1024) || unit == Unit("MiB", 1024 * 1024)
      || unit == Unit("GiB", 1024 * 1024 * 1024) || unit == Unit("TiB", 1024 * 1024 * 1024 * 1024)
  {
  }

  /** `value` is a number written in front of a unit, and this many bytes. */
  predicate Denotes(value: string, digits: string, unit: Unit, bytes: nat) {
    && digits != "" && AllDigits(digits) && unit in UNITS
    && value == digits + unit.suffix
    && bytes == Value(digits) * unit.bytes
  }

  lemma QuotientBounds(n: nat, unit: nat)
    requires unit > 0
    ensures n <= MAX_INT64 / unit <==> n * unit <= MAX_INT64
  {
    var q, r := MAX_INT64 / unit, MAX_INT64 % unit;
    assert MAX_INT64 == unit * q + r;
    if n <= q {
      MulOrder(n, q, unit);
    } else {
      MulOrder(q + 1, n, unit);
    }
  }

  lemma MulOrder(a: nat, b: nat, c: nat)
    requires a <= b
    ensures a * c <= b * c
  {
  }

  lemma {:induction false} DigitsInFront(digits: string, suffix: string)
    requires AllDigits(digits) && (suffix == "" || !IsDigit(suffix[0]))
    ensures DigitsOf(digits + suffix) == digits
  {
    var value := digits + suffix;
    if digits == "" {
      assert value == suffix;
    } else {
      assert value[0] == digits[0] && value[1..] == digits[1..] + suffix;
      DigitsInFront(digits[1..], suffix);
    }
  }

  lemma DenotedFits(value: string, digits: string, unit: Unit, bytes: nat)
    requires Denotes(value, digits, unit, bytes)
    ensures ValidGoMemLimit(value) <==> bytes <= MAX_INT64
  {
    UnitFacts(unit);
    DigitsInFront(digits, unit.suffix);
    assert value[|digits|..] == unit.suffix;
    QuotientBounds(Value(digits), unit.bytes);
    MulOrder(1, unit.bytes, Value(digits));
  }

  /** A setting is accepted exactly when it is digits and a unit whose product fits in an int64: the
      division guards against overflow without ever refusing a value that fits. */
  lemma ValidExactlyWhenItFits(value: string)
    ensures ValidGoMemLimit(value) <==>
      exists digits, unit, bytes: nat :: Denotes(value, digits, unit, bytes) && bytes <= MAX_INT64
  {
    if ValidGoMemLimit(value) {
      var digits := DigitsOf(value);
      var unit := UNITS[UnitOf(value[|digits|..]).value];
      var bytes := Value(digits) * unit.bytes;
      assert value == digits + value[|digits|..];
      assert Denotes(value, digits, unit, bytes);
      DenotedFits(value, digits, unit, bytes);
    }
    if digits, unit, bytes: nat :| Denotes(value, digits, unit, bytes) && bytes <= MAX_INT64 {
      DenotedFits(value, digits, unit, bytes);
    }
  }

  lemma UnitFacts(unit: Unit)
    requires unit in UNITS
    ensures unit.bytes > 0 && (unit.suffix == "" || !IsDigit(unit.suffix[0]))
    ensures UnitOf(unit.suffix).Some? && UNITS[UnitOf(unit.suffix).value] == unit
  {
  }

  // ----- The cgroup limit -----

  function TrimLeft(s: string): string {
    if s != "" && IsSpace(s[0]) then TrimLeft(s[1..]) else s
  }

  function TrimRight(s: string): string {
    if s != "" && IsSpace(s[|s| - 1]) then TrimRight(s[..|s| - 1]) else s
  }

  function TrimSpace(s: string): string {
    TrimRight(TrimLeft(s))
  }

  /** strconv.ParseInt in base 10 with 64 bits. */
  function ParseInt(s: string): Option<int> {
    var negative := s != "" && s[0] == '-';
    var digits := if s != "" && (s[0] == '-' || s[0] == '+') then s[1..] else s;
    if digits == "" || !AllDigits(digits) then None
    else if negative then (if Value(digits) <= MAX_INT64 + 1 then Some(0 - Value(digits) as int) else None)
    else if Value(digits) <= MAX_INT64 then Some(Value(digits))
    else None
  }

  /** The limit one readable file states; "max", a saturated counter and nonsense all mean none. */
  function LimitIn(content: string): (limit: Option<int>)
    ensures limit.Some? ==> 0 < limit.value < 0x4000_0000_0000_0000
  {
    match ParseInt(TrimSpace(content))
    case None => None
    case Some(n) => if n <= 0 || n >= 0x4000_0000_0000_0000 then None else Some(n)
  }

  predicate Blank(s: string) {
    forall i :: 0 <= i < |s| ==> IsSpace(s[i])
  }

  predicate Solid(s: string) {
    s != "" && !IsSpace(s[0]) && !IsSpace(s[|s| - 1])
  }

  lemma {:induction false} TrimLeftBlank(l: string, s: string)
    requires Blank(l)
    ensures TrimLeft(l + s) == TrimLeft(s)
  {
    if l == "" {
      assert l + s == s;
    } else {
      assert (l + s)[1..] == l[1..] + s;
      TrimLeftBlank(l[1..], s);
    }
  }

  lemma {:induction false} TrimRightBlank(s: string, r: string)
    requires Blank(r)
    ensures TrimRight(s + r) == TrimRight(s)
  {
    if r == "" {
      assert s + r == s;
    } else {
      assert (s + r)[..|s + r| - 1] == s + r[..|r| - 1];
      TrimRightBlank(s, r[..|r| - 1]);
    }
  }

  /** Trimming takes the white space on both sides and nothing else. */
  lemma TrimSolid(l: string, s: string, r: string)
    requires Blank(l) && Blank(r) && Solid(s)
    ensures TrimSpace(l + s + r) == s
  {
    assert l + s + r == l + (s + r);
    TrimLeftBlank(l, s + r);
    assert TrimLeft(s + r) == s + r;
    TrimRightBlank(s, r);
  }

  lemma {:induction false} TrimmedLeft(content: string) returns (l: string)
    ensures Blank(l) && content == l + TrimLeft(content)
    ensures TrimLeft(content) != "" ==> !IsSpace(TrimLeft(content)[0])
  {
    if content != "" && IsSpace(content[0]) {
      var rest := TrimmedLeft(content[1..]);
      l := [content[0]] + rest;
    } else {
      l := "";
    }
  }

  lemma {:induction false} TrimmedRight(content: string) returns (r: string)
    ensures Blank(r) && content == TrimRight(content) + r
    ensures TrimRight(content) != "" ==> !IsSpace(TrimRight(content)[|TrimRight(content)| - 1])
  {
    if content != "" && IsSpace(content[|content| - 1]) {
      var rest := TrimmedRight(content[..|content| - 1]);
      r := rest + [content[|content| - 1]];
    } else {
      r := "";
    }
  }

  /** The digits of a positive number, with or without a plus sign. */
  predicate Numeral(text: string, n: nat) {
    var digits := if text != "" && text[0] == '+' then text[1..] else text;
    digits != "" && AllDigits(digits) && Value(digits) == n
  }

  /** `content` is this number with white space around it. */
  ghost predicate States(content: string, n: nat) {
    exists l, text, r :: Blank(l) && Blank(r) && Numeral(text, n) && content == l + text + r
  }

  lemma NumeralIsSolid(text: string, n: nat)
    requires Numeral(text, n)
    ensures Solid(text)
  {
    var digits := if text[0] == '+' then text[1..] else text;
    assert text[|text| - 1] == digits[|digits| - 1];
    assert IsDigit(digits[0]) && IsDigit(digits[|digits| - 1]);
  }

  lemma ParsesNumerals(text: string, n: nat)
    requires 0 < n <= MAX_INT64
    ensures ParseInt(text) == Some(n) <==> Numeral(text, n)
  {
  }

  /** A limit is read from a file if and only if the file holds just this number, in white space such as the
      newline that ends it, with or without a plus sign, and the number is positive and below 2^62. */
  lemma LimitInExactly(content: string, n: nat)
    ensures LimitIn(content) == Some(n) <==> States(content, n) && 0 < n < 0x4000_0000_0000_0000
  {
    if 0 < n < 0x4000_0000_0000_0000 {
      var text := TrimSpace(content);
      ParsesNumerals(text, n);
      if Numeral(text, n) {
        var l := TrimmedLeft(content);
        var r := TrimmedRight(TrimLeft(content));
        assert content == l + text + r;
      }
      if l, t, r :| Blank(l) && Blank(r) && Numeral(t, n) && content == l + t + r {
        NumeralIsSolid(t, n);
        TrimSolid(l, t, r);
      }
    }
  }

  /** In particular every printed number below 2^62 is read back, whatever white space is around it. */
  lemma PrintedIsRead(l: string, n: nat, r: string)
    requires Blank(l) && Blank(r) && 0 < n < 0x4000_0000_0000_0000
    ensures LimitIn(l + Decimal(n) + r) == Some(n)
  {
    ValueOfDecimal(n);
    assert IsDigit(Decimal(n)[0]);
    assert Numeral(Decimal(n), n);
    LimitInExactly(l + Decimal(n) + r, n);
  }

  /** As in every cgroup file: the number on a line of its own. */
  lemma LineIsRead(n: nat)
    requires 0 < n < 0x4000_0000_0000_0000
    ensures LimitIn(Decimal(n) + "\n") == Some(n)
  {
    PrintedIsRead("", n, "\n");
    assert "" + Decimal(n) + "\n" == Decimal(n) + "\n";
  }

  /** The first file that can be read is the authority, whatever it says. */
  function LimitOf(files: seq<Option<string>>): (limit: Option<int>)
    ensures limit.Some? ==> 0 < limit.value < 0x4000_0000_0000_0000
  {
    if files == [] then None
    else if files[0].Some? then LimitIn(files[0].value)
    else LimitOf(files[1..])
  }

  /** From what each path holds, `None` where it cannot be read, in order of precedence. */
  method CgroupMemoryLimit(files: seq<Option<string>>) returns (limit: Option<int>)
    ensures limit == LimitOf(files)
  {
    for i := 0 to |files|
      invariant LimitOf(files) == LimitOf(files[i..])
    {
      if files[i].Some? {
        return LimitIn(files[i].value);
      }
    }
    return None;
  }

  /** A file that cannot be read leaves the answer to the next one; one that can be read never does, not
      even when it states no limit. */
  lemma {:induction false} FirstReadableDecides(files: seq<Option<string>>, i: nat)
    requires i < |files| && files[i].Some? && forall j :: 0 <= j < i ==> files[j].None?
    ensures LimitOf(files) == LimitIn(files[i].value)
  {
    if i == 0 {
    } else {
      FirstReadableDecides(files[1..], i - 1);
    }
  }

  /** The first file that can be read states this limit. */
  ghost predicate FirstStates(files: seq<Option<string>>, i: nat, n: nat) {
    && i < |files| && files[i].Some? && (forall j :: 0 <= j < i ==> files[j].None?)
    && States(files[i].value, n) && 0 < n < 0x4000_0000_0000_0000
  }

  lemma {:induction false} FirstReadable(files: seq<Option<string>>) returns (i: nat)
    ensures i <= |files| && (forall j :: 0 <= j < i ==> files[j].None?) && (i < |files| ==> files[i].Some?)
    ensures i == |files| ==> LimitOf(files) == None
  {
    if files == [] || files[0].Some? {
      i := 0;
    } else {
      i := FirstReadable(files[1..]);
      i := i + 1;
      assert forall j :: 0 < j < i ==> files[j] == files[1..][j - 1];
    }
  }

  lemma FirstStatesIsLimit(files: seq<Option<string>>, i: nat, n: nat)
    requires FirstStates(files, i, n)
    ensures LimitOf(files) == Some(n)
  {
    FirstReadableDecides(files, i);
    LimitInExactly(files[i].value, n);
  }

  /** There is a limit exactly if the first readable file states one, and then it is that one. */
  lemma LimitOfExactly(files: seq<Option<string>>)
    ensures LimitOf(files).Some? <==> exists i: nat, n: nat :: FirstStates(files, i, n)
    ensures forall i: nat, n: nat :: FirstStates(files, i, n) ==> LimitOf(files) == Some(n)
  {
    forall i: nat, n: nat | FirstStates(files, i, n) ensures LimitOf(files) == Some(n) {
      FirstStatesIsLimit(files, i, n);
    }
    var i := FirstReadable(files);
    if LimitOf(files).Some? {
      FirstReadableDecides(files, i);
      LimitInExactly(files[i].value, LimitOf(files).value);
      assert FirstStates(files, i, LimitOf(files).value);
    }
  }

  // ----- The derived limit -----

  /** `rounded` is a float64 next to a positive `exact`: off by at most half a unit in the last of 53 places. */
  predicate Rounds(exact: real, rounded: real) {
    exact > 0.0
    && (exact - rounded) * 9007199254740992.0 <= exact
    && (rounded - exact) * 9007199254740992.0 <= exact
  }

  ghost predicate FloatSteps(limit: int, wide: real, share: real, product: real) {
    limit > 0 && Rounds(limit as real, wide) && Rounds(0.8, share) && Rounds(wide * share, product)
  }

  /** int64(float64(limit) * 0.8) with every rounding on the way: of the limit, of 0.8, and of the product. */
  ghost predicate Derived(limit: int, derived: int) {
    exists wide, share, product :: FloatSteps(limit, wide, share, product) && derived == product.Floor
  }

  lemma MulBounds(a: real, a': real, b: real, b': real)
    requires 0.0 <= a <= a' && 0.0 <= b <= b'
    ensures a * b <= a' * b'
  {
    assert (a' - a) * b >= 0.0;
    assert a' * (b' - b) >= 0.0;
  }

  lemma ProductBounds(exact: real, wide: real, share: real, product: real)
    requires exact >= 1.0 && Rounds(exact, wide) && Rounds(0.8, share) && Rounds(wide * share, product)
    ensures exact * 0.799 <= product <= exact * 0.801
  {
    assert exact * 0.9999 <= wide <= exact * 1.0001;
    assert 0.7999 <= share <= 0.8001;
    MulBounds(exact * 0.9999, wide, 0.7999, share);
    MulBounds(wide, exact * 1.0001, share, 0.8001);
    var p := wide * share;
    assert exact * 0.7998 <= p <= exact * 0.8002;
    assert p * 0.9999 <= product <= p * 1.0001;
  }

  /** However the floating-point operations round, the derived limit is below the cgroup limit and not
      negative, and its decimal text is a setting the runtime accepts as that many bytes. */
  lemma DerivedLimitIsAccepted(limit: int, derived: int)
    requires 0 < limit < 0x4000_0000_0000_0000 && Derived(limit, derived)
    ensures 0 <= derived < limit
    ensures limit as real * 0.799 - 1.0 < derived as real <= limit as real * 0.801
    ensures ValidGoMemLimit(Decimal(derived)) && Denotes(Decimal(derived), Decimal(derived), UNITS[0], derived)
  {
    var wide, share, product :| FloatSteps(limit, wide, share, product) && derived == product.Floor;
    ProductBounds(limit as real, wide, share, product);
    var text := Decimal(derived);
    ValueOfDecimal(derived);
    assert text + "" == text;
    assert Denotes(text, text, UNITS[0], derived);
    ValidExactlyWhenItFits(text);
  }

  // ----- The setting for the child -----

  /** `derived` is what the floating-point computation gives for the cgroup limit, where there is one. */
  method ChildGoMemLimit(configured: string, files: seq<Option<string>>, derived: int) returns (setting: string)
    requires LimitOf(files).Some? ==> Derived(LimitOf(files).value, derived)
    ensures setting == "" || ValidGoMemLimit(setting)
    ensures configured == "off" ==> setting == ""
    ensures ValidGoMemLimit(configured) ==> setting == configured
    ensures configured != "off" && !ValidGoMemLimit(configured) ==>
      match LimitOf(files)
      case None => setting == ""
      case Some(limit) => Denotes(setting, setting, UNITS[0], derived) && 0 <= derived < limit
    ensures configured != "off" && !ValidGoMemLimit(configured) ==>
      && (setting != "" <==> exists i: nat, n: nat :: FirstStates(files, i, n))
      && (forall i: nat, n: nat :: FirstStates(files, i, n) ==>
            Denotes(setting, setting, UNITS[0], derived) && 0 <= derived < n && n as real * 0.799 - 1.0 < derived as real)
  {
    if configured == "off" {
      assert DigitsOf("off") == "";
      return "";
    }
    if ValidGoMemLimit(configured) {
      return configured;
    }
    assert DigitsOf("") == "";
    var limit := CgroupMemoryLimit(files);
    LimitOfExactly(files);
    if limit.None? {
      return "";
    }
    DerivedLimitIsAccepted(limit.value, derived);
    return Decimal(derived);
  }
}
