/**
 The govulncheck report (tools/govulncheck-report/report.go): a stream of messages becomes one finding for
 each pair of vulnerability and module, most actionable first.
 */
module VulnReport {
  import opened Wrappers
  import opened Separators
  import opened Summaries

  datatype Level = Required | Imported | Called {
    function Rank(): nat { match this case Required => 0 case Imported => 1 case Called => 2 }
    function Text(): string {
      match this case Required => "Required" case Imported => "Imported" case Called => "Called"
    }
  }

  datatype Frame = Frame(modul: string, version: string, packag: string, func: string, receiver: string)

  datatype RawFinding = RawFinding(osv: string, fixedVersion: string, trace: seq<Frame>)

  datatype OsvEntry = OsvEntry(id: string, summary: string, details: string, affected: seq<string>)

  datatype Config = Config(scannerVersion: string, goVersion: string)

  datatype Message = Message(config: Option<Config>, osv: Option<OsvEntry>, finding: Option<RawFinding>)

  datatype Finding = Finding(
    id: string, modul: string, version: string, fixedVersion: string,
    reachability: string, trace: string, summary: string, level: Level)

  datatype Summary = Summary(
    scannerError: bool, exitCode: int, fixableFindingCount: nat, calledFindingCount: nat,
    parseErrors: seq<string>, config: Config, findings: seq<Finding>)

  /** A raw finding once it is known which module it lives in and how far it is reachable. */
  datatype Described = Described(
    id: string, modul: string, version: string, fixedVersion: string, level: Level, trace: string, summary: string)

  // ----- Reading one finding -----

  const NO_OSV := OsvEntry("", "", "", [])

  function FallbackModule(affected: seq<string>): string {
    if affected == [] then "unknown"
    else if affected[0] != "" then affected[0]
    else FallbackModule(affected[1..])
  }

  function LastPathSegment(path: string): string {
    if path == "" then "" else if path[|path| - 1] == '/' then "" else LastPathSegment(path[..|path| - 1]) + [path[|path| - 1]]
  }

  function SymbolLabel(f: Frame): string {
    var name := if f.receiver != "" then f.receiver + "." + f.func else f.func;
    var pkg := LastPathSegment(f.packag);
    if pkg != "" then pkg + "." + name else name
  }

  function Summarize(osv: OsvEntry): string {
    Shorten(if osv.summary != "" then osv.summary else osv.details, LIMIT)
  }

  function Describe(raw: RawFinding, osv: OsvEntry): Described {
    if raw.trace == [] then
      Described(raw.osv, FallbackModule(osv.affected), "", raw.fixedVersion, Required, "", Summarize(osv))
    else
      var vuln := raw.trace[0];
      var modul := if vuln.modul == "" then FallbackModule(osv.affected) else vuln.modul;
      var level := if vuln.func != "" then Called else if vuln.packag != "" then Imported else Required;
      var trace := if vuln.func != "" then SymbolLabel(vuln) else "";
      Described(raw.osv, modul, vuln.version, raw.fixedVersion, level, trace, Summarize(osv))
  }

  // ----- What a description says -----

  /** The first affected package that has a name. */
  predicate FirstNamed(affected: seq<string>, i: nat) {
    i < |affected| && affected[i] != "" && forall j :: 0 <= j < i ==> affected[j] == ""
  }

  lemma {:induction false} FallbackExactly(affected: seq<string>)
    ensures forall i: nat :: FirstNamed(affected, i) ==> FallbackModule(affected) == affected[i]
    ensures (forall i :: 0 <= i < |affected| ==> affected[i] == "") ==> FallbackModule(affected) == "unknown"
    ensures FallbackModule(affected) != ""
  {
    if affected == [] || affected[0] != "" {
    } else {
      FallbackExactly(affected[1..]);
      forall i: nat | FirstNamed(affected, i) ensures FallbackModule(affected) == affected[i] {
        assert FirstNamed(affected[1..], i - 1);
      }
    }
  }

  /** The module a finding is about: that of the vulnerable frame, the first one, if it has a name, otherwise the
      first affected package with a name, or "unknown". */
  ghost predicate ModuleIs(raw: RawFinding, entry: OsvEntry, modul: string) {
    if raw.trace != [] && raw.trace[0].modul != "" then modul == raw.trace[0].modul
    else if exists i :: 0 <= i < |entry.affected| && entry.affected[i] != "" then
      exists i: nat :: FirstNamed(entry.affected, i) && modul == entry.affected[i]
    else modul == "unknown"
  }

  lemma {:induction false} SomeFirstNamed(affected: seq<string>, i: nat) returns (first: nat)
    requires i < |affected| && affected[i] != ""
    ensures FirstNamed(affected, first)
  {
    if affected[0] != "" {
      first := 0;
    } else {
      first := SomeFirstNamed(affected[1..], i - 1);
      first := first + 1;
      assert forall j :: 0 < j < first ==> affected[j] == affected[1..][j - 1];
    }
  }

  lemma DescribedModule(raw: RawFinding, entry: OsvEntry, modul: string)
    ensures Describe(raw, entry).modul == modul <==> ModuleIs(raw, entry, modul)
  {
    FallbackExactly(entry.affected);
    if i :| 0 <= i < |entry.affected| && entry.affected[i] != "" {
      var first := SomeFirstNamed(entry.affected, i);
    }
  }

  /** The vulnerable frame has a function: the code is called. */
  predicate ReachesFunction(raw: RawFinding) {
    raw.trace != [] && raw.trace[0].func != ""
  }

  /** The vulnerable frame has at least a package: the code is imported. */
  predicate ReachesPackage(raw: RawFinding) {
    raw.trace != [] && (raw.trace[0].func != "" || raw.trace[0].packag != "")
  }

  /** The rest of a description is what the vulnerable frame, the finding and the entry say. */
  lemma DescribedByFirstFrame(raw: RawFinding, entry: OsvEntry)
    ensures var d := Describe(raw, entry);
      && d.id == raw.osv && d.fixedVersion == raw.fixedVersion
      && d.version == (if raw.trace == [] then "" else raw.trace[0].version)
      && (d.level == Called <==> ReachesFunction(raw))
      && (d.level == Required <==> !ReachesPackage(raw))
      && d.trace == (if ReachesFunction(raw) then SymbolLabel(raw.trace[0]) else "")
      && d.summary == Shorten(if entry.summary == "" then entry.details else entry.summary, 200)
  {
  }

  /** Whatever follows the vulnerable frame in a trace does not matter. */
  lemma FirstFrameDecides(raw: RawFinding, raw': RawFinding, entry: OsvEntry)
    requires raw.osv == raw'.osv && raw.fixedVersion == raw'.fixedVersion
    requires raw.trace == raw'.trace || (raw.trace != [] && raw'.trace != [] && raw.trace[0] == raw'.trace[0])
    ensures Describe(raw, entry) == Describe(raw', entry)
  {
  }

  /** `segment` is what follows the last slash of a path, or all of it. */
  ghost predicate LastSegmentIs(path: string, segment: string) {
    '/' !in segment && (path == segment || exists front: string :: path == front + "/" + segment)
  }

  lemma {:induction false} SegmentFollowsSlash(path: string, segment: string)
    requires LastSegmentIs(path, segment)
    ensures LastPathSegment(path) == segment
  {
    if path == "" {
    } else if segment == "" {
      assert path[|path| - 1] == '/';
    } else {
      var last := segment[|segment| - 1];
      assert last in segment && path[|path| - 1] == last;
      if path != segment {
        var front: string :| path == front + "/" + segment;
        assert path[..|path| - 1] == front + "/" + segment[..|segment| - 1];
      } else {
        assert path[..|path| - 1] == segment[..|segment| - 1];
      }
      assert forall c :: c in segment[..|segment| - 1] ==> c in segment;
      SegmentFollowsSlash(path[..|path| - 1], segment[..|segment| - 1]);
    }
  }

  /** A called symbol reads package.Receiver.Function, with the last segment of the package path, and without
      what is missing. */
  lemma LabelExactly(f: Frame, segment: string)
    requires LastSegmentIs(f.packag, segment)
    ensures SymbolLabel(f) ==
      (if segment == "" then "" else segment + ".") + ((if f.receiver == "" then "" else f.receiver + ".") + f.func)
  {
    SegmentFollowsSlash(f.packag, segment);
  }

  // ----- Reading the stream -----

  /** The kind of a message is decided by the first part that is present and named. */
  predicate IsOsv(m: Message) {
    m.config.None? && m.osv.Some? && m.osv.value.id != ""
  }

  predicate IsFinding(m: Message) {
    m.config.None? && !IsOsv(m) && m.finding.Some? && m.finding.value.osv != ""
  }

  /** The last entry for each vulnerability. */
  function OsvTable(messages: seq<Message>): map<string, OsvEntry> {
    if messages == [] then map[]
    else
      var table, m := OsvTable(messages[..|messages| - 1]), messages[|messages| - 1];
      if IsOsv(m) then table[m.osv.value.id := m.osv.value] else table
  }

  function RawFindings(messages: seq<Message>): seq<RawFinding> {
    if messages == [] then []
    else
      var raws, m := RawFindings(messages[..|messages| - 1]), messages[|messages| - 1];
      if IsFinding(m) then raws + [m.finding.value] else raws
  }

  function LastConfig(messages: seq<Message>): Option<Config> {
    if messages == [] then None
    else if messages[|messages| - 1].config.Some? then messages[|messages| - 1].config
    else LastConfig(messages[..|messages| - 1])
  }

  predicate NamesOsv(m: Message, id: string) {
    IsOsv(m) && m.osv.value.id == id
  }

  /** Message `i` is the last one that describes this vulnerability. */
  predicate LastOsv(messages: seq<Message>, id: string, i: nat) {
    && i < |messages| && NamesOsv(messages[i], id)
    && forall j :: i < j < |messages| ==> !NamesOsv(messages[j], id)
  }

  /** The table holds the last entry of each vulnerability that has one, and no other. */
  lemma {:induction false} TableHoldsLast(messages: seq<Message>, id: string)
    ensures id in OsvTable(messages) <==> exists i :: 0 <= i < |messages| && NamesOsv(messages[i], id)
    ensures forall i: nat :: LastOsv(messages, id, i) ==> id in OsvTable(messages) && OsvTable(messages)[id] == messages[i].osv.value
  {
    if messages == [] {
      assert id !in OsvTable(messages);
    } else {
      var init, m := messages[..|messages| - 1], messages[|messages| - 1];
      TableHoldsLast(init, id);
      forall i: nat | LastOsv(messages, id, i)
        ensures id in OsvTable(messages) && OsvTable(messages)[id] == messages[i].osv.value
      {
        if i < |init| {
          assert !NamesOsv(m, id);
          assert LastOsv(init, id, i);
        }
      }
      if i :| 0 <= i < |messages| && NamesOsv(messages[i], id) {
        assert i < |init| ==> NamesOsv(init[i], id);
      }
      if i :| 0 <= i < |init| && NamesOsv(init[i], id) {
        assert NamesOsv(messages[i], id);
      }
    }
  }

  /** Every finding appears in its place: after as many others as come before it in the stream. */
  lemma {:induction false} FindingsInOrder(messages: seq<Message>, i: nat)
    requires i <= |messages|
    ensures RawFindings(messages[..i]) <= RawFindings(messages)
    ensures i < |messages| && IsFinding(messages[i]) ==>
      |RawFindings(messages[..i])| < |RawFindings(messages)|
      && RawFindings(messages)[|RawFindings(messages[..i])|] == messages[i].finding.value
  {
    if i == |messages| {
      assert messages[..i] == messages;
    } else {
      var init := messages[..|messages| - 1];
      assert init[..i] == messages[..i];
      FindingsInOrder(init, i);
      if i == |init| {
        assert messages[..i] == init;
      }
    }
  }

  /** And nothing else appears. */
  lemma {:induction false} OnlyFindings(messages: seq<Message>, k: nat) returns (i: nat)
    requires k < |RawFindings(messages)|
    ensures i < |messages| && IsFinding(messages[i]) && |RawFindings(messages[..i])| == k
  {
    var init := messages[..|messages| - 1];
    if k < |RawFindings(init)| {
      i := OnlyFindings(init, k);
      assert init[..i] == messages[..i];
    } else {
      i := |init|;
    }
  }

  /** The configuration is the last one there is. */
  lemma {:induction false} ConfigIsLast(messages: seq<Message>, i: nat)
    requires i < |messages| && messages[i].config.Some? && forall j :: i < j < |messages| ==> messages[j].config.None?
    ensures LastConfig(messages) == messages[i].config
  {
    if i < |messages| - 1 {
      ConfigIsLast(messages[..|messages| - 1], i);
    } else {
      assert messages[|messages| - 1] == messages[i];
    }
  }

  function OsvOf(table: map<string, OsvEntry>, id: string): OsvEntry {
    if id in table then table[id] else NO_OSV
  }

  function DescribeAll(raws: seq<RawFinding>, table: map<string, OsvEntry>): (ds: seq<Described>)
    ensures |ds| == |raws|
    ensures forall i :: 0 <= i < |raws| ==> ds[i] == Describe(raws[i], OsvOf(table, raws[i].osv))
  {
    seq(|raws|, i requires 0 <= i < |raws| => Describe(raws[i], OsvOf(table, raws[i].osv)))
  }

  /** All findings are described with the whole table, wherever in the stream an entry comes. */
  function DescribedStream(messages: seq<Message>): seq<Described> {
    DescribeAll(RawFindings(messages), OsvTable(messages))
  }

  // ----- What a merged finding is -----

  /** The map key of a pair. */
  function PairKey(id: string, modul: string): string {
    id + "\0" + modul
  }

  /** How findings are put together: by map key, as the program does it, or by pair, as it is meant. */
  datatype Grouping = ByKey | ByPair

  predicate Together(on: Grouping, id: string, modul: string, id': string, modul': string) {
    match on
    case ByKey => PairKey(id, modul) == PairKey(id', modul')
    case ByPair => id == id' && modul == modul'
  }

  predicate Same(on: Grouping, d: Described, f: Finding) {
    Together(on, d.id, d.modul, f.id, f.modul)
  }

  /** The first of the group, which names it. */
  predicate FirstOf(on: Grouping, ds: seq<Described>, f: Finding, j: nat) {
    && j < |ds| && Same(on, ds[j], f)
    && ds[j].id == f.id && ds[j].modul == f.modul && ds[j].summary == f.summary
    && forall i :: 0 <= i < j ==> !Same(on, ds[i], f)
  }

  /** The first of the group that reach its level. */
  predicate FirstAtLevel(on: Grouping, ds: seq<Described>, f: Finding, j: nat) {
    && j < |ds| && Same(on, ds[j], f) && ds[j].level == f.level && ds[j].trace == f.trace
    && forall i :: 0 <= i < j && Same(on, ds[i], f) ==> ds[i].level.Rank() < f.level.Rank()
  }

  predicate FirstVersion(on: Grouping, ds: seq<Described>, f: Finding, j: nat) {
    && j < |ds| && Same(on, ds[j], f) && ds[j].version == f.version
    && forall i :: 0 <= i < j && Same(on, ds[i], f) ==> ds[i].version == ""
  }

  predicate FirstFix(on: Grouping, ds: seq<Described>, f: Finding, j: nat) {
    && j < |ds| && Same(on, ds[j], f) && ds[j].fixedVersion == f.fixedVersion
    && forall i :: 0 <= i < j && Same(on, ds[i], f) ==> ds[i].fixedVersion == ""
  }

  ghost predicate RightVersion(on: Grouping, f: Finding, ds: seq<Described>) {
    if f.version != "" then exists j: nat :: FirstVersion(on, ds, f, j)
    else forall i :: 0 <= i < |ds| && Same(on, ds[i], f) ==> ds[i].version == ""
  }

  ghost predicate RightFix(on: Grouping, f: Finding, ds: seq<Described>) {
    if f.fixedVersion != "" then exists j: nat :: FirstFix(on, ds, f, j)
    else forall i :: 0 <= i < |ds| && Same(on, ds[i], f) ==> ds[i].fixedVersion == ""
  }

  ghost predicate RightLevel(on: Grouping, f: Finding, ds: seq<Described>) {
    && f.reachability == f.level.Text()
    && (exists j: nat :: FirstAtLevel(on, ds, f, j))
    && (forall i :: 0 <= i < |ds| && Same(on, ds[i], f) ==> ds[i].level.Rank() <= f.level.Rank())
  }

  /** The finding for its group: named by the first, with the maximum level, the trace of the first that
      reaches it, and the first fix and version that are known. */
  ghost predicate Represents(on: Grouping, f: Finding, ds: seq<Described>) {
    && (exists j: nat :: FirstOf(on, ds, f, j))
    && RightLevel(on, f, ds) && RightVersion(on, f, ds) && RightFix(on, f, ds)
  }

  /** There is only one such finding for a group. */
  lemma RepresentsUnique(on: Grouping, f: Finding, g: Finding, ds: seq<Described>)
    requires Represents(on, f, ds) && Represents(on, g, ds) && Together(on, f.id, f.modul, g.id, g.modul)
    ensures f == g
  {
    SameName(on, f, g, ds);
    SameLevel(on, f, g, ds);
    SameVersion(on, f, g, ds);
    SameFix(on, f, g, ds);
  }

  lemma SameName(on: Grouping, f: Finding, g: Finding, ds: seq<Described>)
    requires Represents(on, f, ds) && Represents(on, g, ds) && Together(on, f.id, f.modul, g.id, g.modul)
    ensures f.id == g.id && f.modul == g.modul && f.summary == g.summary
  {
    var i: nat :| FirstOf(on, ds, f, i);
    var j: nat :| FirstOf(on, ds, g, j);
    assert Same(on, ds[i], g) && Same(on, ds[j], f);
    assert i == j;
  }

  lemma SameLevel(on: Grouping, f: Finding, g: Finding, ds: seq<Described>)
    requires RightLevel(on, f, ds) && RightLevel(on, g, ds) && f.id == g.id && f.modul == g.modul
    ensures f.level == g.level && f.trace == g.trace && f.reachability == g.reachability
  {
    var i: nat :| FirstAtLevel(on, ds, f, i);
    var j: nat :| FirstAtLevel(on, ds, g, j);
    assert Same(on, ds[i], g) && Same(on, ds[j], f);
    assert f.level.Rank() == g.level.Rank();
    assert i == j;
  }

  lemma SameVersion(on: Grouping, f: Finding, g: Finding, ds: seq<Described>)
    requires RightVersion(on, f, ds) && RightVersion(on, g, ds) && f.id == g.id && f.modul == g.modul
    ensures f.version == g.version
  {
    if f.version != "" {
      var i: nat :| FirstVersion(on, ds, f, i);
      assert Same(on, ds[i], g);
      assert g.version != "";
      var j: nat :| FirstVersion(on, ds, g, j);
      assert Same(on, ds[j], f);
      assert i == j;
    }
  }

  lemma SameFix(on: Grouping, f: Finding, g: Finding, ds: seq<Described>)
    requires RightFix(on, f, ds) && RightFix(on, g, ds) && f.id == g.id && f.modul == g.modul
    ensures f.fixedVersion == g.fixedVersion
  {
    if f.fixedVersion != "" {
      var i: nat :| FirstFix(on, ds, f, i);
      assert Same(on, ds[i], g);
      assert g.fixedVersion != "";
      var j: nat :| FirstFix(on, ds, g, j);
      assert Same(on, ds[j], f);
      assert i == j;
    }
  }

  // ----- Merging -----

  function Started(d: Described): Finding {
    Finding(d.id, d.modul, d.version, d.fixedVersion, d.level.Text(), d.trace, d.summary, d.level)
  }

  function Merged(f: Finding, d: Described): Finding {
    var g := if d.level.Rank() > f.level.Rank()
      then f.(level := d.level, reachability := d.level.Text(), trace := d.trace) else f;
    var h := if g.fixedVersion == "" then g.(fixedVersion := d.fixedVersion) else g;
    if h.version == "" then h.(version := d.version) else h
  }

  lemma StartedRepresents(on: Grouping, ds: seq<Described>, d: Described)
    requires forall i :: 0 <= i < |ds| ==> !Same(on, ds[i], Started(d))
    ensures Represents(on, Started(d), ds + [d])
  {
    var all, f, n := ds + [d], Started(d), |ds|;
    assert all[n] == d && forall i :: 0 <= i < n ==> all[i] == ds[i];
    assert FirstOf(on, all, f, n) && FirstAtLevel(on, all, f, n) && FirstVersion(on, all, f, n) && FirstFix(on, all, f, n);
  }

  lemma StillVersion(on: Grouping, f: Finding, ds: seq<Described>, d: Described)
    requires RightVersion(on, f, ds) && !Same(on, d, f)
    ensures RightVersion(on, f, ds + [d])
  {
    var all := ds + [d];
    assert all[|ds|] == d && forall i :: 0 <= i < |ds| ==> all[i] == ds[i];
    if f.version != "" {
      var v: nat :| FirstVersion(on, ds, f, v);
      assert FirstVersion(on, all, f, v);
    }
  }

  lemma StillFix(on: Grouping, f: Finding, ds: seq<Described>, d: Described)
    requires RightFix(on, f, ds) && !Same(on, d, f)
    ensures RightFix(on, f, ds + [d])
  {
    var all := ds + [d];
    assert all[|ds|] == d && forall i :: 0 <= i < |ds| ==> all[i] == ds[i];
    if f.fixedVersion != "" {
      var x: nat :| FirstFix(on, ds, f, x);
      assert FirstFix(on, all, f, x);
    }
  }

  /** A finding of another group changes nothing. */
  lemma StillRepresents(on: Grouping, f: Finding, ds: seq<Described>, d: Described)
    requires Represents(on, f, ds) && !Same(on, d, f)
    ensures Represents(on, f, ds + [d])
  {
    var all := ds + [d];
    assert all[|ds|] == d && forall i :: 0 <= i < |ds| ==> all[i] == ds[i];
    var n: nat :| FirstOf(on, ds, f, n);
    assert FirstOf(on, all, f, n);
    var j: nat :| FirstAtLevel(on, ds, f, j);
    assert FirstAtLevel(on, all, f, j);
    StillVersion(on, f, ds, d);
    StillFix(on, f, ds, d);
  }

  lemma MergedLevel(on: Grouping, f: Finding, ds: seq<Described>, d: Described)
    requires RightLevel(on, f, ds) && Same(on, d, f)
    ensures RightLevel(on, Merged(f, d), ds + [d])
  {
    var all, g := ds + [d], Merged(f, d);
    assert all[|ds|] == d && forall i :: 0 <= i < |ds| ==> all[i] == ds[i];
    var j: nat :| FirstAtLevel(on, ds, f, j);
    if d.level.Rank() > f.level.Rank() {
      assert FirstAtLevel(on, all, g, |ds|);
    } else {
      assert FirstAtLevel(on, all, g, j);
    }
  }

  lemma MergedVersion(on: Grouping, f: Finding, ds: seq<Described>, d: Described)
    requires RightVersion(on, f, ds) && Same(on, d, f)
    ensures RightVersion(on, Merged(f, d), ds + [d])
  {
    var all, g := ds + [d], Merged(f, d);
    assert all[|ds|] == d && forall i :: 0 <= i < |ds| ==> all[i] == ds[i];
    if f.version != "" {
      var v: nat :| FirstVersion(on, ds, f, v);
      assert FirstVersion(on, all, g, v);
    } else if g.version != "" {
      assert FirstVersion(on, all, g, |ds|);
    }
  }

  lemma MergedFix(on: Grouping, f: Finding, ds: seq<Described>, d: Described)
    requires RightFix(on, f, ds) && Same(on, d, f)
    ensures RightFix(on, Merged(f, d), ds + [d])
  {
    var all, g := ds + [d], Merged(f, d);
    assert all[|ds|] == d && forall i :: 0 <= i < |ds| ==> all[i] == ds[i];
    if f.fixedVersion != "" {
      var x: nat :| FirstFix(on, ds, f, x);
      assert FirstFix(on, all, g, x);
    } else if g.fixedVersion != "" {
      assert FirstFix(on, all, g, |ds|);
    }
  }

  lemma MergedRepresents(on: Grouping, f: Finding, ds: seq<Described>, d: Described)
    requires Represents(on, f, ds) && Same(on, d, f)
    ensures Represents(on, Merged(f, d), ds + [d])
  {
    var all := ds + [d];
    var n: nat :| FirstOf(on, ds, f, n);
    assert FirstOf(on, all, Merged(f, d), n);
    MergedLevel(on, f, ds, d);
    MergedVersion(on, f, ds, d);
    MergedFix(on, f, ds, d);
  }

  // ----- The map of merged findings -----

  /** The merged findings of a stream, under the keys of their groups. */
  ghost predicate MergedOk(merged: map<string, Finding>, ds: seq<Described>) {
    && (forall key :: key in merged ==>
          key == PairKey(merged[key].id, merged[key].modul) && Represents(ByKey, merged[key], ds))
    && (forall i :: 0 <= i < |ds| ==> PairKey(ds[i].id, ds[i].modul) in merged)
  }

  function MergeInto(merged: map<string, Finding>, d: Described): map<string, Finding> {
    var key := PairKey(d.id, d.modul);
    merged[key := if key in merged then Merged(merged[key], d) else Started(d)]
  }

  /** The finding that is merged into, or started. */
  lemma MergeTouched(merged: map<string, Finding>, ds: seq<Described>, d: Described)
    requires MergedOk(merged, ds)
    ensures var key := PairKey(d.id, d.modul); var f := MergeInto(merged, d)[key];
      PairKey(f.id, f.modul) == key && Represents(ByKey, f, ds + [d])
  {
    var key := PairKey(d.id, d.modul);
    if key in merged {
      MergedRepresents(ByKey, merged[key], ds, d);
    } else {
      forall i | 0 <= i < |ds| ensures !Same(ByKey, ds[i], Started(d)) {
        assert PairKey(ds[i].id, ds[i].modul) in merged;
      }
      StartedRepresents(ByKey, ds, d);
    }
  }

  lemma MergeUntouched(merged: map<string, Finding>, ds: seq<Described>, d: Described, other: string)
    requires MergedOk(merged, ds) && other in merged && other != PairKey(d.id, d.modul)
    ensures other in MergeInto(merged, d) && MergeInto(merged, d)[other] == merged[other]
    ensures Represents(ByKey, merged[other], ds + [d])
  {
    StillRepresents(ByKey, merged[other], ds, d);
  }

  /** One more finding. */
  lemma MergeStep(merged: map<string, Finding>, ds: seq<Described>, d: Described)
    requires MergedOk(merged, ds)
    ensures MergedOk(MergeInto(merged, d), ds + [d])
  {
    var merged', all := MergeInto(merged, d), ds + [d];
    MergeTouched(merged, ds, d);
    forall key | key in merged'
      ensures key == PairKey(merged'[key].id, merged'[key].modul) && Represents(ByKey, merged'[key], all)
    {
      if key != PairKey(d.id, d.modul) {
        MergeUntouched(merged, ds, d, key);
      }
    }
    forall i | 0 <= i < |all| ensures PairKey(all[i].id, all[i].modul) in merged' {
      assert i < |ds| ==> all[i] == ds[i];
    }
  }

  // ----- Order -----

  /** The order Go compares strings in. */
  predicate Less(s: string, t: string) {
    if t == "" then false
    else if s == "" then true
    else if s[0] != t[0] then s[0] < t[0]
    else Less(s[1..], t[1..])
  }

  lemma {:induction false} LessOrders(s: string, t: string, u: string)
    ensures !Less(s, s)
    ensures Less(s, t) ==> !Less(t, s)
    ensures Less(s, t) && Less(t, u) ==> Less(s, u)
    ensures s == t || Less(s, t) || Less(t, s)
    decreases |s| + |t| + |u|
  {
    if s != "" {
      LessOrders(s[1..], if t == "" then "" else t[1..], if u == "" then "" else u[1..]);
    } else if t != "" && u != "" {
      LessOrders(s, t[1..], u[1..]);
    }
    if s != "" && t != "" && s[0] == t[0] && s[1..] == t[1..] {
      assert s == [s[0]] + s[1..] && t == [t[0]] + t[1..];
    }
  }

  /** `s` ends, or has the smaller character, where the two first differ. */
  predicate DiffersAt(s: string, t: string, n: nat) {
    n <= |s| && n < |t| && s[..n] == t[..n] && (n == |s| || s[n] < t[n])
  }

  lemma SameFirstCharacter(s: string, t: string, n: nat)
    requires s != "" && t != "" && DiffersAt(s, t, n)
    ensures n == 0 || s[0] == t[0]
  {
    assert n == 0 || (s[..n][0] == s[0] && t[..n][0] == t[0]);
  }

  lemma {:induction false} LessExactly(s: string, t: string)
    ensures Less(s, t) <==> exists n: nat :: DiffersAt(s, t, n)
  {
    if t == "" {
      assert !Less(s, t);
    } else if s == "" {
      assert DiffersAt(s, t, 0);
    } else if s[0] != t[0] {
      assert s[0] < t[0] ==> DiffersAt(s, t, 0);
      if n: nat :| DiffersAt(s, t, n) {
        SameFirstCharacter(s, t, n);
      }
    } else {
      LessExactly(s[1..], t[1..]);
      if n: nat :| DiffersAt(s[1..], t[1..], n) {
        assert s[..n + 1] == [s[0]] + s[1..][..n] && t[..n + 1] == [t[0]] + t[1..][..n];
        assert DiffersAt(s, t, n + 1);
      }
      if n: nat :| DiffersAt(s, t, n) {
        assert n > 0;
        assert s[1..][..n - 1] == s[..n][1..] && t[1..][..n - 1] == t[..n][1..];
        assert DiffersAt(s[1..], t[1..], n - 1);
      }
    }
  }

  /** Most actionable first: reachable code, then the vulnerability, then the module. */
  predicate Before(f: Finding, g: Finding) {
    if f.level != g.level then f.level.Rank() > g.level.Rank()
    else if f.id != g.id then Less(f.id, g.id)
    else Less(f.modul, g.modul)
  }

  lemma BeforeOrders(f: Finding, g: Finding, h: Finding)
    ensures !Before(f, f)
    ensures Before(f, g) ==> !Before(g, f)
    ensures Before(f, g) && Before(g, h) ==> Before(f, h)
    ensures f.id != g.id || f.modul != g.modul ==> Before(f, g) || Before(g, f)
  {
    LessOrders(f.id, g.id, h.id);
    LessOrders(f.modul, g.modul, h.modul);
  }

  /** Called before imported before only required; among these by vulnerability, and then by module. */
  ghost predicate MoreActionable(f: Finding, g: Finding) {
    if f.reachability == g.reachability then
      (exists n: nat :: DiffersAt(f.id, g.id, n)) || (f.id == g.id && exists n: nat :: DiffersAt(f.modul, g.modul, n))
    else
      f.reachability == "Called" || g.reachability == "Required"
  }

  lemma BeforeExactly(f: Finding, g: Finding)
    requires f.reachability == f.level.Text() && g.reachability == g.level.Text()
    ensures Before(f, g) <==> MoreActionable(f, g)
  {
    LessExactly(f.id, g.id);
    LessExactly(f.modul, g.modul);
    LessOrders(f.id, g.id, f.id);
    assert |"Called"| == 6 && |"Imported"| == 8 && |"Required"| == 8 && "Imported"[0] != "Required"[0];
  }

  predicate Sorted(out: seq<Finding>) {
    forall i, j :: 0 <= i < j < |out| ==> Before(out[i], out[j])
  }

  predicate OnePerPair(out: seq<Finding>) {
    forall i, j :: 0 <= i < j < |out| ==> out[i].id != out[j].id || out[i].modul != out[j].modul
  }

  ghost predicate Covered(on: Grouping, out: seq<Finding>, d: Described) {
    exists f :: f in out && Same(on, d, f)
  }

  /** One finding for each group that occurs, and nothing else, in order. */
  ghost predicate Report(on: Grouping, out: seq<Finding>, ds: seq<Described>) {
    && Sorted(out)
    && (forall f :: f in out ==> Represents(on, f, ds))
    && (forall i :: 0 <= i < |ds| ==> Covered(on, out, ds[i]))
  }

  lemma TailContains(a: seq<Finding>, b: seq<Finding>, f: Finding)
    requires Sorted(a) && a != [] && b != [] && a[0] == b[0] && (forall g :: g in a ==> g in b)
    requires f in a[1..]
    ensures f in b[1..]
  {
    var i :| 0 <= i < |a[1..]| && a[1..][i] == f;
    assert a[i + 1] == f && f in a && Before(a[0], f);
    BeforeOrders(f, f, f);
    var j :| 0 <= j < |b| && b[j] == f;
    assert b[1..][j - 1] == f;
  }

  lemma SameFirst(a: seq<Finding>, b: seq<Finding>)
    requires Sorted(a) && Sorted(b) && a != [] && b != [] && a[0] in b && b[0] in a
    ensures a[0] == b[0]
  {
    var i :| 0 <= i < |b| && b[i] == a[0];
    var j :| 0 <= j < |a| && a[j] == b[0];
    BeforeOrders(a[0], b[0], a[0]);
  }

  lemma {:induction false} SortedSetsEqual(a: seq<Finding>, b: seq<Finding>)
    requires Sorted(a) && Sorted(b) && (forall f :: f in a ==> f in b) && (forall f :: f in b ==> f in a)
    ensures a == b
  {
    assert |a| > 0 ==> a[0] in a;
    assert |b| > 0 ==> b[0] in b;
    if |a| > 0 && |b| > 0 {
      SameFirst(a, b);
      forall f | f in a[1..] ensures f in b[1..] { TailContains(a, b, f); }
      forall f | f in b[1..] ensures f in a[1..] { TailContains(b, a, f); }
      SortedSetsEqual(a[1..], b[1..]);
      assert a == [a[0]] + a[1..] && b == [b[0]] + b[1..];
    }
  }

  lemma ReportContains(on: Grouping, a: seq<Finding>, b: seq<Finding>, ds: seq<Described>, f: Finding)
    requires Report(on, a, ds) && Report(on, b, ds) && f in a
    ensures f in b
  {
    var j: nat :| FirstOf(on, ds, f, j);
    assert Covered(on, b, ds[j]);
    var g :| g in b && Same(on, ds[j], g);
    RepresentsUnique(on, f, g, ds);
  }

  /** A stream has one report: map iteration order and the sorting algorithm cannot show. */
  lemma ReportUnique(on: Grouping, a: seq<Finding>, b: seq<Finding>, ds: seq<Described>)
    requires Report(on, a, ds) && Report(on, b, ds)
    ensures a == b
  {
    forall f | f in a ensures f in b { ReportContains(on, a, b, ds, f); }
    forall f | f in b ensures f in a { ReportContains(on, b, a, ds, f); }
    SortedSetsEqual(a, b);
  }

  // ----- Keys and pairs -----

  /** The two share a key only if they are for one pair. */
  predicate Apart(c: Described, d: Described) {
    PairKey(c.id, c.modul) == PairKey(d.id, d.modul) ==> c.id == d.id && c.modul == d.modul
  }

  predicate PairsApart(ds: seq<Described>) {
    forall i, j :: 0 <= i < |ds| && 0 <= j < |ds| ==> Apart(ds[i], ds[j])
  }

  lemma SameEitherWay(f: Finding, ds: seq<Described>, n: nat)
    requires PairsApart(ds) && n < |ds| && ds[n].id == f.id && ds[n].modul == f.modul
    ensures forall i :: 0 <= i < |ds| ==> (Same(ByKey, ds[i], f) <==> Same(ByPair, ds[i], f))
  {
    assert forall i :: 0 <= i < |ds| ==> Apart(ds[i], ds[n]);
  }

  lemma RepresentsPair(f: Finding, ds: seq<Described>)
    requires PairsApart(ds) && Represents(ByKey, f, ds)
    ensures Represents(ByPair, f, ds)
  {
    var n: nat :| FirstOf(ByKey, ds, f, n);
    SameEitherWay(f, ds, n);
    assert FirstOf(ByPair, ds, f, n);
    var j: nat :| FirstAtLevel(ByKey, ds, f, j);
    assert FirstAtLevel(ByPair, ds, f, j);
    if f.version != "" {
      var v: nat :| FirstVersion(ByKey, ds, f, v);
      assert FirstVersion(ByPair, ds, f, v);
    }
    if f.fixedVersion != "" {
      var x: nat :| FirstFix(ByKey, ds, f, x);
      assert FirstFix(ByPair, ds, f, x);
    }
  }

  lemma CoveredPair(out: seq<Finding>, ds: seq<Described>, i: nat)
    requires PairsApart(ds) && Report(ByKey, out, ds) && i < |ds|
    ensures Covered(ByPair, out, ds[i])
  {
    assert Covered(ByKey, out, ds[i]);
    var f :| f in out && Same(ByKey, ds[i], f);
    var n: nat :| FirstOf(ByKey, ds, f, n);
    assert Apart(ds[i], ds[n]);
  }

  /** Two covered pairs with one key have one finding, so they are one pair. */
  lemma ReportKeepsApart(out: seq<Finding>, ds: seq<Described>, i: nat, j: nat)
    requires Report(ByKey, out, ds) && Report(ByPair, out, ds) && i < |ds| && j < |ds|
    ensures Apart(ds[i], ds[j])
  {
    assert Covered(ByPair, out, ds[i]) && Covered(ByPair, out, ds[j]);
    var f :| f in out && Same(ByPair, ds[i], f);
    var g :| g in out && Same(ByPair, ds[j], g);
    if PairKey(ds[i].id, ds[i].modul) == PairKey(ds[j].id, ds[j].modul) {
      RepresentsUnique(ByKey, f, g, ds);
    }
  }

  lemma ApartReportsPairs(out: seq<Finding>, ds: seq<Described>)
    requires Report(ByKey, out, ds) && PairsApart(ds)
    ensures Report(ByPair, out, ds)
  {
    forall f | f in out ensures Represents(ByPair, f, ds) {
      RepresentsPair(f, ds);
    }
    forall i | 0 <= i < |ds| ensures Covered(ByPair, out, ds[i]) {
      CoveredPair(out, ds, i);
    }
  }

  /** The report that is made by key is the report by pair if and only if no two pairs share a key. */
  lemma PairReportExactly(out: seq<Finding>, ds: seq<Described>)
    requires Report(ByKey, out, ds)
    ensures Report(ByPair, out, ds) <==> PairsApart(ds)
  {
    if PairsApart(ds) {
      ApartReportsPairs(out, ds);
    }
    if Report(ByPair, out, ds) {
      forall i, j | 0 <= i < |ds| && 0 <= j < |ds| ensures Apart(ds[i], ds[j]) {
        ReportKeepsApart(out, ds, i, j);
      }
    }
  }

  /** Findings for two different vulnerabilities can meet under one key if and only if one id starts with
      the other and a NUL; ids without a NUL never meet. */
  lemma IdsMeetExactly(id: string, id': string)
    requires id != id'
    ensures (exists modul, modul' :: PairKey(id, modul) == PairKey(id', modul')) <==>
      Reaches(id, '\0', id') || Reaches(id', '\0', id)
    ensures Free(id, '\0') && Free(id', '\0') ==> !Reaches(id, '\0', id') && !Reaches(id', '\0', id)
  {
    assert forall i, m :: PairKey(i, m) == Joined(i, '\0', m);
    CollideExactly(id, id', '\0');
    if x, y :| Joined(id, '\0', x) == Joined(id', '\0', y) {
      assert PairKey(id, x) == PairKey(id', y);
    }
    if Reaches(id, '\0', id') {
      ReachedHasSeparator(id, '\0', id');
    }
    if Reaches(id', '\0', id) {
      ReachedHasSeparator(id', '\0', id);
    }
  }

  ghost predicate NulFreeIds(messages: seq<Message>) {
    forall i :: 0 <= i < |messages| && messages[i].finding.Some? ==> Free(messages[i].finding.value.osv, '\0')
  }

  lemma {:induction false} RawFindingsNulFree(messages: seq<Message>)
    requires NulFreeIds(messages)
    ensures forall i :: 0 <= i < |RawFindings(messages)| ==> Free(RawFindings(messages)[i].osv, '\0')
  {
    if messages == [] {
      assert RawFindings(messages) == [];
    } else {
      RawFindingsNulFree(messages[..|messages| - 1]);
    }
  }

  /** Ids without a NUL keep the pairs of a stream apart, whatever its modules are called. */
  lemma NulFreeApart(messages: seq<Message>)
    requires NulFreeIds(messages)
    ensures PairsApart(DescribedStream(messages))
  {
    var ds := DescribedStream(messages);
    RawFindingsNulFree(messages);
    forall i, j | 0 <= i < |ds| && 0 <= j < |ds| ensures Apart(ds[i], ds[j]) {
      if PairKey(ds[i].id, ds[i].modul) == PairKey(ds[j].id, ds[j].modul) {
        SplitFree(ds[i].id, ds[i].modul, ds[j].id, ds[j].modul, '\0');
      }
    }
  }

  /** A finding in this module, and nothing else about it. */
  function Plain(osv: string, modul: string): RawFinding {
    RawFinding(osv, "", [Frame(modul, "", "", "", "")])
  }

  function TwoFindings(first: RawFinding, second: RawFinding): seq<Message> {
    [Message(None, None, Some(first)), Message(None, None, Some(second))]
  }

  lemma RawOfTwo(first: RawFinding, second: RawFinding)
    requires first.osv != "" && second.osv != ""
    ensures RawFindings(TwoFindings(first, second)) == [first, second]
  {
    var messages := TwoFindings(first, second);
    assert messages[..1] == [messages[0]] && messages[..1][..0] == [];
    assert RawFindings(messages[..1]) == [first];
  }

  lemma DescribedPlain(osv: string, modul: string, entry: OsvEntry)
    requires modul != ""
    ensures Describe(Plain(osv, modul), entry).id == osv && Describe(Plain(osv, modul), entry).modul == modul
  {
  }

  const MEETING: seq<Message> := TwoFindings(Plain("a", "b\0c"), Plain("a\0b", "c"))

  /** A stream of two findings whose pairs meet: whatever list is made of it by key, one pair is missing. */
  lemma NulInIdCollides(out: seq<Finding>)
    requires Report(ByKey, out, DescribedStream(MEETING))
    ensures !Report(ByPair, out, DescribedStream(MEETING))
  {
    var ds := DescribedStream(MEETING);
    RawOfTwo(Plain("a", "b\0c"), Plain("a\0b", "c"));
    DescribedPlain("a", "b\0c", OsvOf(OsvTable(MEETING), "a"));
    DescribedPlain("a\0b", "c", OsvOf(OsvTable(MEETING), "a\0b"));
    KeysMeet();
    PairsMeet(ds);
    PairReportExactly(out, ds);
  }

  lemma KeysMeet()
    ensures PairKey("a", "b\0c") == PairKey("a\0b", "c")
  {
    assert "a\0b" == "a" + "\0" + "b" && "b\0c" == "b" + "\0" + "c";
  }

  lemma PairsMeet(ds: seq<Described>)
    requires |ds| == 2 && PairKey(ds[0].id, ds[0].modul) == PairKey(ds[1].id, ds[1].modul) && |ds[0].id| != |ds[1].id|
    ensures !PairsApart(ds)
  {
    assert ds[0].id != ds[1].id && !Apart(ds[0], ds[1]);
  }

  // ----- analyze -----

  /** The findings of a map, in whatever order the map is ranged over. */
  method Enumerate(merged: map<string, Finding>) returns (out: seq<Finding>)
    requires forall key :: key in merged ==> key == PairKey(merged[key].id, merged[key].modul)
    ensures OnePerPair(out)
    ensures forall f :: f in out <==> exists key :: key in merged && merged[key] == f
  {
    out := [];
    var keys := merged.Keys;
    while keys != {}
      invariant keys <= merged.Keys && OnePerPair(out)
      invariant forall i :: 0 <= i < |out| ==>
        PairKey(out[i].id, out[i].modul) in merged.Keys - keys && merged[PairKey(out[i].id, out[i].modul)] == out[i]
      invariant forall key :: key in merged && key !in keys ==> merged[key] in out
      decreases |keys|
    {
      var key :| key in keys;
      out := out + [merged[key]];
      keys := keys - {key};
    }
    forall f ensures f in out <==> exists key :: key in merged && merged[key] == f {
      if f in out {
        var i :| 0 <= i < |out| && out[i] == f;
        assert merged[PairKey(out[i].id, out[i].modul)] == f;
      }
    }
  }

  /** Any sort by `Before`; the pairs are distinct, so there is only one result. */
  method SortFindings(xs: seq<Finding>) returns (out: seq<Finding>)
    requires OnePerPair(xs)
    ensures Sorted(out) && forall f :: f in out <==> f in xs
  {
    out := [];
    for i := 0 to |xs|
      invariant Sorted(out) && forall f :: f in out <==> f in xs[..i]
    {
      assert xs[..i + 1] == xs[..i] + [xs[i]];
      forall f | f in out ensures f.id != xs[i].id || f.modul != xs[i].modul {
        assert f in xs[..i];
      }
      out := Insert(out, xs[i]);
    }
    assert xs[..|xs|] == xs;
  }

  method Insert(xs: seq<Finding>, x: Finding) returns (out: seq<Finding>)
    requires Sorted(xs) && forall f :: f in xs ==> f.id != x.id || f.modul != x.modul
    ensures Sorted(out) && forall f :: f in out <==> f in xs || f == x
  {
    var i := 0;
    while i < |xs| && Before(xs[i], x)
      invariant 0 <= i <= |xs| && forall j :: 0 <= j < i ==> Before(xs[j], x)
    {
      i := i + 1;
    }
    forall j | i <= j < |xs| ensures Before(x, xs[j]) {
      assert xs[i] in xs && xs[j] in xs;
      BeforeOrders(x, xs[i], xs[j]);
    }
    out := xs[..i] + [x] + xs[i..];
    forall f ensures f in out <==> f in xs || f == x {
      assert xs == xs[..i] + xs[i..];
    }
  }

  /** Which of the first `n` findings have a fix, and which are called. */
  function FixablePositions(out: seq<Finding>, n: nat): set<nat>
    requires n <= |out|
  {
    set i: nat | 0 <= i < n && out[i].fixedVersion != ""
  }

  function CalledPositions(out: seq<Finding>, n: nat): set<nat>
    requires n <= |out|
  {
    set i: nat | 0 <= i < n && out[i].reachability == "Called"
  }

  lemma OneMorePosition(out: seq<Finding>, n: nat)
    requires n < |out|
    ensures |FixablePositions(out, n + 1)| == |FixablePositions(out, n)| + if out[n].fixedVersion != "" then 1 else 0
    ensures |CalledPositions(out, n + 1)| == |CalledPositions(out, n)| + if out[n].reachability == "Called" then 1 else 0
  {
    var fixable, called := FixablePositions(out, n), CalledPositions(out, n);
    assert FixablePositions(out, n + 1) == if out[n].fixedVersion != "" then fixable + {n} else fixable;
    assert CalledPositions(out, n + 1) == if out[n].reachability == "Called" then called + {n} else called;
  }

  /** First pass: the whole stream, before anything is merged. */
  method ReadStream(messages: seq<Message>)
    returns (config: Option<Config>, table: map<string, OsvEntry>, raws: seq<RawFinding>)
    ensures config == LastConfig(messages) && table == OsvTable(messages) && raws == RawFindings(messages)
  {
    config, table, raws := None, map[], [];
    for i := 0 to |messages|
      invariant config == LastConfig(messages[..i])
      invariant table == OsvTable(messages[..i]) && raws == RawFindings(messages[..i])
    {
      var m := messages[i];
      assert messages[..i + 1][..i] == messages[..i];
      if m.config.Some? {
        config := m.config;
      } else if m.osv.Some? && m.osv.value.id != "" {
        table := table[m.osv.value.id := m.osv.value];
      } else if m.finding.Some? && m.finding.value.osv != "" {
        raws := raws + [m.finding.value];
      }
    }
    assert messages[..|messages|] == messages;
  }

  method MergeOne(merged: map<string, Finding>, d: Described) returns (merged': map<string, Finding>)
    ensures merged' == MergeInto(merged, d)
  {
    var key := PairKey(d.id, d.modul);
    if key !in merged {
      return merged[key := Started(d)];
    }
    var existing := merged[key];
    if d.level.Rank() > existing.level.Rank() {
      existing := existing.(level := d.level, reachability := d.level.Text(), trace := d.trace);
    }
    if existing.fixedVersion == "" {
      existing := existing.(fixedVersion := d.fixedVersion);
    }
    if existing.version == "" {
      existing := existing.(version := d.version);
    }
    return merged[key := existing];
  }

  lemma MergeNext(merged: map<string, Finding>, ds: seq<Described>, i: nat, d: Described)
    requires i < |ds| && ds[i] == d && MergedOk(merged, ds[..i])
    ensures MergedOk(MergeInto(merged, d), ds[..i + 1])
    ensures |MergeInto(merged, d)| > 0
  {
    assert ds[..i + 1] == ds[..i] + [ds[i]];
    MergeStep(merged, ds[..i], ds[i]);
    assert PairKey(ds[i].id, ds[i].modul) in MergeInto(merged, ds[i]);
  }

  /** Second pass: each finding is merged into the one for its key. */
  method MergeFindings(raws: seq<RawFinding>, table: map<string, OsvEntry>) returns (merged: map<string, Finding>)
    ensures MergedOk(merged, DescribeAll(raws, table)) && (|merged| == 0 <==> raws == [])
  {
    merged := map[];
    ghost var ds := DescribeAll(raws, table);
    for i := 0 to |raws|
      invariant MergedOk(merged, ds[..i]) && (|merged| == 0 <==> i == 0)
    {
      var d := Describe(raws[i], OsvOf(table, raws[i].osv));
      MergeNext(merged, ds, i, d);
      merged := MergeOne(merged, d);
    }
    assert ds[..|raws|] == ds;
  }

  method CountFindings(out: seq<Finding>) returns (fixable: nat, called: nat)
    ensures fixable == |FixablePositions(out, |out|)| && called == |CalledPositions(out, |out|)|
  {
    fixable, called := 0, 0;
    for i := 0 to |out|
      invariant fixable == |FixablePositions(out, i)| && called == |CalledPositions(out, i)|
    {
      OneMorePosition(out, i);
      if out[i].fixedVersion != "" {
        fixable := fixable + 1;
      }
      if out[i].reachability == Called.Text() {
        called := called + 1;
      }
    }
  }

  /** The sorted list of the merged findings is the report. */
  lemma MergedListIsReport(merged: map<string, Finding>, out: seq<Finding>, ds: seq<Described>)
    requires MergedOk(merged, ds)
    requires Sorted(out) && forall f :: f in out <==> exists key :: key in merged && merged[key] == f
    ensures Report(ByKey, out, ds)
    ensures out == [] <==> |merged| == 0
  {
    forall i | 0 <= i < |ds| ensures Covered(ByKey, out, ds[i]) {
      var f := merged[PairKey(ds[i].id, ds[i].modul)];
      assert f in out && Same(ByKey, ds[i], f);
    }
    if out != [] {
      assert out[0] in out;
    }
    if |merged| != 0 {
      var key :| key in merged;
      assert merged[key] in out;
    }
  }

  // ----- The report in terms of the messages -----

  /** Message `i` is a finding for this vulnerability in this module. */
  ghost predicate Concerns(messages: seq<Message>, i: nat, id: string, modul: string) {
    && i < |messages| && messages[i].config == None
    && (messages[i].osv.Some? ==> messages[i].osv.value.id == "")
    && messages[i].finding.Some? && messages[i].finding.value.osv == id && id != ""
    && ModuleIs(messages[i].finding.value, OsvOf(OsvTable(messages), id), modul)
  }

  lemma DescribedMessage(messages: seq<Message>, i: nat, modul: string) returns (k: nat)
    requires i < |messages| && IsFinding(messages[i])
    ensures k < |DescribedStream(messages)|
    ensures var raw := messages[i].finding.value;
      && DescribedStream(messages)[k] == Describe(raw, OsvOf(OsvTable(messages), raw.osv))
      && DescribedStream(messages)[k].id == raw.osv
      && (DescribedStream(messages)[k].modul == modul <==> Concerns(messages, i, raw.osv, modul))
  {
    FindingsInOrder(messages, i);
    k := |RawFindings(messages[..i])|;
    DescribedModule(messages[i].finding.value, OsvOf(OsvTable(messages), messages[i].finding.value.osv), modul);
  }

  lemma MessageDescribed(messages: seq<Message>, k: nat) returns (i: nat)
    requires k < |DescribedStream(messages)|
    ensures i < |messages| && IsFinding(messages[i])
    ensures var raw, d := messages[i].finding.value, DescribedStream(messages)[k];
      d == Describe(raw, OsvOf(OsvTable(messages), raw.osv)) && Concerns(messages, i, d.id, d.modul)
  {
    i := OnlyFindings(messages, k);
    FindingsInOrder(messages, i);
    var raw := messages[i].finding.value;
    DescribedModule(raw, OsvOf(OsvTable(messages), raw.osv), DescribedStream(messages)[k].modul);
  }

  ghost predicate SomeReaches(messages: seq<Message>, f: Finding) {
    exists i: nat :: Concerns(messages, i, f.id, f.modul) && ReachesFunction(messages[i].finding.value)
  }

  ghost predicate SomeImports(messages: seq<Message>, f: Finding) {
    exists i: nat :: Concerns(messages, i, f.id, f.modul) && ReachesPackage(messages[i].finding.value)
  }

  ghost predicate Listed(findings: seq<Finding>, id: string, modul: string) {
    exists f :: f in findings && f.id == id && f.modul == modul
  }

  /** Every finding stems from a message for its pair, and every such message has its finding; it is Called
      exactly if the vulnerable frame of some such message has a function, and Required exactly if that of none
      has so much as a package. */
  ghost predicate ReportsMessages(findings: seq<Finding>, messages: seq<Message>) {
    && (forall i: nat, id, modul :: Concerns(messages, i, id, modul) ==> Listed(findings, id, modul))
    && (forall f :: f in findings ==>
          && (exists i: nat :: Concerns(messages, i, f.id, f.modul))
          && (f.reachability == "Called" <==> SomeReaches(messages, f))
          && (f.reachability == "Required" <==> !SomeImports(messages, f)))
  }

  lemma LevelOfMessages(messages: seq<Message>, f: Finding)
    requires Represents(ByPair, f, DescribedStream(messages))
    ensures f.level == Called <==> SomeReaches(messages, f)
    ensures f.level == Required <==> !SomeImports(messages, f)
    ensures exists i: nat :: Concerns(messages, i, f.id, f.modul)
  {
    var ds := DescribedStream(messages);
    var j: nat :| FirstAtLevel(ByPair, ds, f, j);
    var i := MessageDescribed(messages, j);
    assert Concerns(messages, i, f.id, f.modul);
    DescribedByFirstFrame(messages[i].finding.value, OsvOf(OsvTable(messages), f.id));
    if m: nat :| Concerns(messages, m, f.id, f.modul) && ReachesFunction(messages[m].finding.value) {
      MessageLevel(messages, m, f);
    }
    if m: nat :| Concerns(messages, m, f.id, f.modul) && ReachesPackage(messages[m].finding.value) {
      MessageLevel(messages, m, f);
    }
  }

  lemma MessageLevel(messages: seq<Message>, m: nat, f: Finding)
    requires RightLevel(ByPair, f, DescribedStream(messages)) && Concerns(messages, m, f.id, f.modul)
    ensures ReachesFunction(messages[m].finding.value) ==> f.level == Called
    ensures ReachesPackage(messages[m].finding.value) ==> f.level != Required
  {
    var k := DescribedMessage(messages, m, f.modul);
    DescribedByFirstFrame(messages[m].finding.value, OsvOf(OsvTable(messages), f.id));
    assert Same(ByPair, DescribedStream(messages)[k], f);
  }

  lemma MessageListed(messages: seq<Message>, findings: seq<Finding>, i: nat, id: string, modul: string)
    requires Report(ByPair, findings, DescribedStream(messages)) && Concerns(messages, i, id, modul)
    ensures Listed(findings, id, modul)
  {
    var k := DescribedMessage(messages, i, modul);
    assert Covered(ByPair, findings, DescribedStream(messages)[k]);
  }

  lemma LevelTexts(level: Level)
    ensures level.Text() == "Called" <==> level == Called
    ensures level.Text() == "Required" <==> level == Required
  {
    assert |"Called"| == 6 && |"Imported"| == 8 && |"Required"| == 8 && "Imported"[0] != "Required"[0];
  }

  lemma ReportIsOfMessages(messages: seq<Message>, findings: seq<Finding>)
    requires Report(ByPair, findings, DescribedStream(messages))
    ensures ReportsMessages(findings, messages)
  {
    forall i: nat, id, modul | Concerns(messages, i, id, modul) ensures Listed(findings, id, modul) {
      MessageListed(messages, findings, i, id, modul);
    }
    forall f | f in findings
      ensures exists i: nat :: Concerns(messages, i, f.id, f.modul)
      ensures f.reachability == "Called" <==> SomeReaches(messages, f)
      ensures f.reachability == "Required" <==> !SomeImports(messages, f)
    {
      LevelOfMessages(messages, f);
      LevelTexts(f.level);
    }
  }

  /** Most actionable first. */
  ghost predicate Ranked(findings: seq<Finding>) {
    forall i, j :: 0 <= i < j < |findings| ==> MoreActionable(findings[i], findings[j])
  }

  lemma SortedIsRanked(out: seq<Finding>, ds: seq<Described>)
    requires Report(ByKey, out, ds)
    ensures Ranked(out)
  {
    ReportedLevels(out, ds);
    forall i, j | 0 <= i < j < |out| ensures MoreActionable(out[i], out[j]) {
      assert out[i] in out && out[j] in out;
      BeforeExactly(out[i], out[j]);
    }
  }

  lemma ReportedLevels(out: seq<Finding>, ds: seq<Described>)
    requires Report(ByKey, out, ds)
    ensures forall f :: f in out ==> f.reachability == f.level.Text()
  {
    forall f | f in out ensures f.reachability == f.level.Text() {
      assert Represents(ByKey, f, ds);
    }
  }

  /** The whole analysis. `parseError` ends the stream early. Every stream gets the one report by key, which
      is the report by pair exactly if no two pairs share a key. The scanner counts as failed if its output
      was unreadable or incomplete, if it exited oddly, or if it claims findings and reported none. */
  method Analyze(messages: seq<Message>, parseError: Option<string>, exitCode: int) returns (s: Summary)
    ensures Report(ByKey, s.findings, DescribedStream(messages))
    ensures Report(ByPair, s.findings, DescribedStream(messages)) <==> PairsApart(DescribedStream(messages))
    ensures PairsApart(DescribedStream(messages)) ==> ReportsMessages(s.findings, messages)
    ensures Ranked(s.findings)
    ensures s.fixableFindingCount == |set i: nat | 0 <= i < |s.findings| && s.findings[i].fixedVersion != ""|
    ensures s.calledFindingCount == |set i: nat | 0 <= i < |s.findings| && s.findings[i].reachability == "Called"|
    ensures s.parseErrors == if parseError.Some? then [parseError.value] else []
    ensures s.exitCode == exitCode
    ensures s.config == match LastConfig(messages) case None => Config("", "") case Some(config) => config
    ensures s.scannerError <==>
      parseError.Some? || LastConfig(messages).None? || exitCode !in {0, 3}
      || (exitCode == 3 && RawFindings(messages) == [])
  {
    var config, table, raws := ReadStream(messages);
    var merged := MergeFindings(raws, table);
    var listed := Enumerate(merged);
    var out := SortFindings(listed);
    MergedListIsReport(merged, out, DescribedStream(messages));
    PairReportExactly(out, DescribedStream(messages));
    ReportedLevels(out, DescribedStream(messages));
    SortedIsRanked(out, DescribedStream(messages));
    if Report(ByPair, out, DescribedStream(messages)) {
      ReportIsOfMessages(messages, out);
    }
    var fixable, called := CountFindings(out);
    var failed := parseError.Some? || config.None? || (exitCode != 0 && exitCode != 3) || (exitCode == 3 && |out| == 0);
    s := Summary(failed, exitCode, fixable, called, if parseError.Some? then [parseError.value] else [],
                 if config.Some? then config.value else Config("", ""), out);
  }
}
