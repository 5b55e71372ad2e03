/**
 The sampling of cache sizes (pkg/metrics/background.go): walks over directory trees that share one budget of
 entries. A tree is what the file system answers during the walk.
 */
module CacheWalk {
  import opened Wrappers

  /** How the listing of a directory ends: completely, or with an error once `entries` were handed out. */
  datatype Ending = Complete | Broken(vanished: bool)

  datatype Node =
    | File(size: nat)
    | Special                              // symbolic link, device, socket
    | Unstatable(vanished: bool)           // Lstat fails, because the entry does not exist or otherwise
    | Unopenable(vanished: bool)           // a directory that Open refuses
    | Dir(entries: seq<Node>, end: Ending)

  /** A place below the start of a walk: the index of the entry on every level. */
  type Path = seq<nat>

  datatype WalkError = BudgetExceeded | Cancelled | Unsupported | PathError(at: Path, vanished: bool)

  // ----- What is to be walked -----

  /** Everything below can be walked: nothing fails, and nothing is of a type that must fail. */
  predicate Walkable(node: Node, skip: bool) {
    match node
    case File(_) => true
    case Special => skip
    case Unstatable(_) => false
    case Unopenable(_) => false
    case Dir(entries, end) => end.Complete? && forall entry :: entry in entries ==> Walkable(entry, skip)
  }

  /** The nodes of the tree, its root among them. */
  function Count(node: Node): nat
    decreases node
  {
    if node.Dir? then 1 + CountFrom(node.entries, 0) else 1
  }

  function CountFrom(entries: seq<Node>, i: nat): nat
    requires i <= |entries|
    decreases entries, |entries| - i
  {
    if i == |entries| then 0 else Count(entries[i]) + CountFrom(entries, i + 1)
  }

  /** The sizes of all regular files. */
  function Size(node: Node): nat
    decreases node
  {
    match node
    case File(size) => size
    case Dir(entries, _) => SizeFrom(entries, 0)
    case _ => 0
  }

  function SizeFrom(entries: seq<Node>, i: nat): nat
    requires i <= |entries|
    decreases entries, |entries| - i
  {
    if i == |entries| then 0 else Size(entries[i]) + SizeFrom(entries, i + 1)
  }

  /** All nodes of the tree, each before what is below it. */
  function Nodes(node: Node): (nodes: seq<Node>)
    decreases node
  {
    [node] + if node.Dir? then NodesFrom(node.entries, 0) else []
  }

  function NodesFrom(entries: seq<Node>, i: nat): seq<Node>
    requires i <= |entries|
    decreases entries, |entries| - i
  {
    if i == |entries| then [] else Nodes(entries[i]) + NodesFrom(entries, i + 1)
  }

  function FileSizes(nodes: seq<Node>): nat {
    if nodes == [] then 0 else (if nodes[0].File? then nodes[0].size else 0) + FileSizes(nodes[1..])
  }

  /** Nothing fails at this very node. */
  predicate Sound(node: Node, skip: bool) {
    node.File? || (node.Special? && skip) || (node.Dir? && node.end.Complete?)
  }

  lemma {:induction false} FileSizesOfConcat(a: seq<Node>, b: seq<Node>)
    ensures FileSizes(a + b) == FileSizes(a) + FileSizes(b)
  {
    if a == [] {
      assert a + b == b;
    } else {
      assert (a + b)[1..] == a[1..] + b;
      FileSizesOfConcat(a[1..], b);
    }
  }

  /** Counting, summing and checking a tree is counting, summing and checking its nodes. */
  lemma {:induction false} TreeIsItsNodes(node: Node, skip: bool)
    ensures Count(node) == |Nodes(node)|
    ensures Size(node) == FileSizes(Nodes(node))
    ensures Walkable(node, skip) <==> forall n :: n in Nodes(node) ==> Sound(n, skip)
    decreases node
  {
    if node.Dir? {
      EntriesAreTheirNodes(node.entries, 0, skip);
      FileSizesOfConcat([node], NodesFrom(node.entries, 0));
      assert forall n :: n in Nodes(node) <==> n == node || n in NodesFrom(node.entries, 0);
      assert (forall entry :: entry in node.entries ==> Walkable(entry, skip)) <==>
        forall j :: 0 <= j < |node.entries| ==> Walkable(node.entries[j], skip);
    } else {
      assert Nodes(node) == [node];
      assert forall n :: n in [node] <==> n == node;
    }
    assert node in Nodes(node);
    assert FileSizes([node]) == (if node.File? then node.size else 0) + FileSizes([node][1..]);
  }

  lemma {:induction false} EntriesAreTheirNodes(entries: seq<Node>, i: nat, skip: bool)
    requires i <= |entries|
    ensures CountFrom(entries, i) == |NodesFrom(entries, i)|
    ensures SizeFrom(entries, i) == FileSizes(NodesFrom(entries, i))
    ensures (forall j :: i <= j < |entries| ==> Walkable(entries[j], skip)) <==>
      forall n :: n in NodesFrom(entries, i) ==> Sound(n, skip)
    decreases entries, |entries| - i
  {
    if i == |entries| {
      assert NodesFrom(entries, i) == [];
    } else {
      TreeIsItsNodes(entries[i], skip);
      EntriesAreTheirNodes(entries, i + 1, skip);
      FileSizesOfConcat(Nodes(entries[i]), NodesFrom(entries, i + 1));
    }
  }

  // ----- How far a walk gets without any limit -----

  /** The first failure, in the order of the listings. */
  function Fault(node: Node, at: Path, skip: bool): Option<WalkError>
    decreases node
  {
    match node
    case File(_) => None
    case Special => if skip then None else Some(Unsupported)
    case Unstatable(vanished) => Some(PathError(at, vanished))
    case Unopenable(vanished) => Some(PathError(at, vanished))
    case Dir(entries, end) => FaultFrom(entries, 0, end, at, skip)
  }

  function FaultFrom(entries: seq<Node>, i: nat, end: Ending, at: Path, skip: bool): Option<WalkError>
    requires i <= |entries|
    decreases entries, |entries| - i
  {
    if i == |entries| then if end.Broken? then Some(PathError(at, end.vanished)) else None
    else if Walkable(entries[i], skip) then FaultFrom(entries, i + 1, end, at, skip)
    else Fault(entries[i], at + [i], skip)
  }

  /** The nodes that are looked at up to the first failure. */
  function Cost(node: Node, skip: bool): nat
    decreases node
  {
    if node.Dir? then 1 + CostFrom(node.entries, 0, skip) else 1
  }

  function CostFrom(entries: seq<Node>, i: nat, skip: bool): nat
    requires i <= |entries|
    decreases entries, |entries| - i
  {
    if i == |entries| then 0
    else Cost(entries[i], skip) + if Walkable(entries[i], skip) then CostFrom(entries, i + 1, skip) else 0
  }

  /** A walk fails exactly where the tree is not walkable, and never of a limit. It looks at no more than the
      nodes, and at all of them where it succeeds. */
  lemma {:induction false} WalkOfTree(node: Node, at: Path, skip: bool)
    ensures Fault(node, at, skip).None? <==> Walkable(node, skip)
    ensures Fault(node, at, skip) != Some(BudgetExceeded) && Fault(node, at, skip) != Some(Cancelled)
    ensures 1 <= Cost(node, skip) <= Count(node)
    ensures Walkable(node, skip) ==> Cost(node, skip) == Count(node)
    decreases node
  {
    if node.Dir? {
      WalkOfEntries(node.entries, 0, node.end, at, skip);
    }
  }

  lemma {:induction false} WalkOfEntries(entries: seq<Node>, i: nat, end: Ending, at: Path, skip: bool)
    requires i <= |entries|
    ensures FaultFrom(entries, i, end, at, skip).None? <==>
      end.Complete? && forall j :: i <= j < |entries| ==> Walkable(entries[j], skip)
    ensures FaultFrom(entries, i, end, at, skip) != Some(BudgetExceeded)
    ensures FaultFrom(entries, i, end, at, skip) != Some(Cancelled)
    ensures CostFrom(entries, i, skip) <= CountFrom(entries, i)
    ensures (forall j :: i <= j < |entries| ==> Walkable(entries[j], skip)) ==>
      CostFrom(entries, i, skip) == CountFrom(entries, i)
    decreases entries, |entries| - i
  {
    if i == |entries| {
      assert CostFrom(entries, i, skip) == CountFrom(entries, i) == 0;
    } else {
      WalkOfTree(entries[i], at + [i], skip);
      WalkOfEntries(entries, i + 1, end, at, skip);
    }
  }

  /** It is this very node that does not exist any more: it is not found, cannot be opened, or its listing ends
      so after all that was below could be walked. */
  predicate EndedItself(node: Node, skip: bool) {
    match node
    case Unstatable(vanished) => vanished
    case Unopenable(vanished) => vanished
    case Dir(entries, end) => end == Broken(true) && forall entry :: entry in entries ==> Walkable(entry, skip)
    case _ => false
  }

  /** A failure names a place at or below the node. */
  lemma {:induction false} FaultBelow(node: Node, at: Path, skip: bool)
    ensures var fault := Fault(node, at, skip); fault.Some? && fault.value.PathError? ==> at <= fault.value.at
    decreases node
  {
    if node.Dir? {
      FaultBelowEntries(node.entries, 0, node.end, at, skip);
    }
  }

  lemma {:induction false} FaultBelowEntries(entries: seq<Node>, i: nat, end: Ending, at: Path, skip: bool)
    requires i <= |entries|
    ensures var fault := FaultFrom(entries, i, end, at, skip);
      fault.Some? && fault.value.PathError? ==>
        && at <= fault.value.at
        && (fault.value.at == at ==> forall j :: i <= j < |entries| ==> Walkable(entries[j], skip))
    decreases entries, |entries| - i
  {
    if i < |entries| {
      FaultBelow(entries[i], at + [i], skip);
      FaultBelowEntries(entries, i + 1, end, at, skip);
    }
  }

  /** The failure that names the node itself as vanished is told apart from those below it by its path. */
  lemma FaultAtTop(node: Node, at: Path, skip: bool)
    ensures Fault(node, at, skip) == Some(PathError(at, true)) <==> EndedItself(node, skip)
  {
    if node.Dir? {
      FaultBelowEntries(node.entries, 0, node.end, at, skip);
      AllWalkable(node.entries, 0, node.end, at, skip);
      WalkOfEntries(node.entries, 0, node.end, at, skip);
      assert (forall entry :: entry in node.entries ==> Walkable(entry, skip)) <==>
        forall j :: 0 <= j < |node.entries| ==> Walkable(node.entries[j], skip);
    }
  }

  lemma {:induction false} AllWalkable(entries: seq<Node>, i: nat, end: Ending, at: Path, skip: bool)
    requires i <= |entries|
    ensures (forall j :: i <= j < |entries| ==> Walkable(entries[j], skip)) ==>
      FaultFrom(entries, i, end, at, skip) == if end.Broken? then Some(PathError(at, end.vanished)) else None
    decreases |entries| - i
  {
    if i < |entries| {
      AllWalkable(entries, i + 1, end, at, skip);
    }
  }

  // ----- Budget and context -----

  function Max0(n: int): nat {
    if n < 0 then 0 else n
  }

  /** What limits a sample: the entries it may still look at, negative once it wanted more, and how many more
      checks its context will pass before it is found cancelled. */
  datatype Meter = Meter(remaining: int, checks: nat)

  predicate Suffices(m: Meter, cost: nat) {
    cost <= m.remaining && cost <= m.checks
  }

  /** What is left once `cost` entries were wanted, each after one check. */
  function After(m: Meter, cost: nat): Meter {
    if Suffices(m, cost) then Meter(m.remaining - cost, m.checks - cost)
    else if m.checks <= Max0(m.remaining) then Meter(m.remaining - m.checks, 0)
    else Meter((if m.remaining < 0 then m.remaining else 0) - 1, m.checks - Max0(m.remaining) - 1)
  }

  /** What a walk gives: its own outcome if the meter suffices, otherwise the limit that is met first. */
  function Metered(node: Node, at: Path, skip: bool, m: Meter): Result<nat, WalkError> {
    if !Suffices(m, Cost(node, skip)) then Err(LimitMet(m))
    else match Fault(node, at, skip)
      case None => Ok(Size(node))
      case Some(error) => Err(error)
  }

  function LimitMet(m: Meter): WalkError {
    if m.checks <= Max0(m.remaining) then Cancelled else BudgetExceeded
  }

  class Sample {
    var meter: Meter
    ghost var examined: nat   // the entries that were looked at

    constructor (maxFiles: int, checks: nat)
      ensures meter == Meter(maxFiles, checks) && examined == 0
    {
      meter, examined := Meter(maxFiles, checks), 0;
    }

    /** What is still allowed and what has been done: the walks must not change it. */
    ghost function Allowance(): nat
      reads this
    {
      examined + Max0(meter.remaining)
    }

    /** ctx.Err(). */
    method Check() returns (live: bool)
      modifies this
      ensures live == (old(meter).checks > 0)
      ensures meter == old(meter).(checks := if live then old(meter).checks - 1 else 0)
      ensures Allowance() == old(Allowance())
    {
      live := meter.checks > 0;
      if live {
        meter := meter.(checks := meter.checks - 1);
      }
    }

    /** Charges one entry. */
    method Charge() returns (ok: bool)
      modifies this
      ensures meter == old(meter).(remaining := old(meter).remaining - 1) && ok == (meter.remaining >= 0)
      ensures Allowance() == old(Allowance())
    {
      meter := meter.(remaining := meter.remaining - 1);
      ok := meter.remaining >= 0;
      if ok {
        examined := examined + 1;
      }
    }

    /** How every walk of an entry begins. */
    method Begin() returns (error: Option<WalkError>)
      modifies this
      ensures error.None? <==> Suffices(old(meter), 1)
      ensures meter == After(old(meter), 1)
      ensures error.Some? ==> error.value == if old(meter).checks == 0 then Cancelled else BudgetExceeded
      ensures Allowance() == old(Allowance())
    {
      var live := Check();
      if !live {
        return Some(Cancelled);
      }
      var ok := Charge();
      return if ok then None else Some(BudgetExceeded);
    }
  }

  /** directoryBytes: recursion with one shared, mutable budget. A listing hands out its entries in batches,
      which the walk takes in the same order. */
  method DirectoryBytes(node: Node, at: Path, sample: Sample, skip: bool) returns (r: Result<nat, WalkError>)
    modifies sample
    ensures r == Metered(node, at, skip, old(sample.meter))
    ensures sample.meter == After(old(sample.meter), Cost(node, skip))
    ensures sample.Allowance() == old(sample.Allowance())
    decreases node
  {
    WalkOfTree(node, at, skip);
    var error := sample.Begin();
    if error.Some? {
      return Err(error.value);
    }
    match node
    case File(size) =>
      return Ok(size);
    case Special =>
      return if skip then Ok(0) else Err(Unsupported);
    case Unstatable(vanished) =>
      return Err(PathError(at, vanished));
    case Unopenable(vanished) =>
      return Err(PathError(at, vanished));
    case Dir(entries, end) =>
      var total := 0;
      ghost var spent: nat := 1;
      for i := 0 to |entries|
        invariant Suffices(old(sample.meter), spent) && sample.meter == After(old(sample.meter), spent)
        invariant sample.Allowance() == old(sample.Allowance())
        invariant Fault(node, at, skip) == FaultFrom(entries, i, end, at, skip)
        invariant Cost(node, skip) == spent + CostFrom(entries, i, skip)
        invariant Size(node) == total + SizeFrom(entries, i)
      {
        WalkOfTree(entries[i], at + [i], skip);
        AfterAfter(old(sample.meter), spent, Cost(entries[i], skip));
        var n := DirectoryBytes(entries[i], at + [i], sample, skip);
        if n.Err? {
          return n;
        }
        total := total + n.value;
        spent := spent + Cost(entries[i], skip);
      }
      return if end.Complete? then Ok(total) else Err(PathError(at, end.vanished));
  }

  /** Spending in two parts is spending the sum, as long as the first part can be afforded. */
  lemma AfterAfter(m: Meter, a: nat, b: nat)
    requires Suffices(m, a)
    ensures After(After(m, a), b) == After(m, a + b)
    ensures Suffices(After(m, a), b) <==> Suffices(m, a + b)
    ensures LimitMet(After(m, a)) == LimitMet(m)
  {
  }

  /** On a walkable tree a walk succeeds exactly when the budget covers its nodes and the context lives as
      long, and then it returns the sum of the file sizes and leaves the budget lower by exactly the nodes; on
      any other tree it fails. */
  lemma FitsOrFails(node: Node, at: Path, skip: bool, m: Meter)
    ensures var r := Metered(node, at, skip, m);
      && (r.Ok? <==> Walkable(node, skip) && Count(node) <= m.remaining && Count(node) <= m.checks)
      && (r.Ok? ==> r.value == Size(node) && After(m, Cost(node, skip)).remaining == m.remaining - Count(node))
      && (r == Err(BudgetExceeded) ==> After(m, Cost(node, skip)).remaining < 0)
  {
    WalkOfTree(node, at, skip);
  }

  /** Where the limits end a walk: a cancelled context spends nothing of the budget, an exhausted budget is left
      negative, and whichever ends first is what the walk reports. */
  lemma LimitsExactly(node: Node, at: Path, skip: bool, m: Meter)
    ensures m.checks == 0 ==> Metered(node, at, skip, m) == Err(Cancelled) && After(m, Cost(node, skip)) == m
    ensures m.remaining <= 0 && m.checks > 0 ==>
      Metered(node, at, skip, m) == Err(BudgetExceeded) && After(m, Cost(node, skip)).remaining < 0
    ensures 0 <= m.remaining < Cost(node, skip) && m.remaining < m.checks ==>
      Metered(node, at, skip, m) == Err(BudgetExceeded) && After(m, Cost(node, skip)).remaining == -1
    ensures m.checks < Cost(node, skip) && m.checks <= m.remaining ==>
      Metered(node, at, skip, m) == Err(Cancelled) && After(m, Cost(node, skip)) == Meter(m.remaining - m.checks, 0)
  {
    WalkOfTree(node, at, skip);
  }

  // ----- The temp root -----

  const BATCH: nat := 256

  datatype TempRoot = Absent | Refused(error: WalkError) | Listed(entries: seq<Node>, end: Ending)

  /** The directory ended with the scan that owned it: nothing is missing from the total. */
  predicate Gone(entries: seq<Node>, i: nat)
    requires i < |entries|
  {
    EndedItself(entries[i], true)
  }

  function EntriesCost(entries: seq<Node>, n: nat): nat
    requires n <= |entries|
  {
    if n == 0 then 0 else EntriesCost(entries, n - 1) + Cost(entries[n - 1], true)
  }

  /** The sizes of the directories that are still there. */
  function EntriesSize(entries: seq<Node>, n: nat): nat
    requires n <= |entries|
  {
    if n == 0 then 0
    else EntriesSize(entries, n - 1) + if Walkable(entries[n - 1], true) then Size(entries[n - 1]) else 0
  }

  lemma {:induction false} EntriesCostGrows(entries: seq<Node>, m: nat, n: nat)
    requires m <= n <= |entries|
    ensures EntriesCost(entries, m) <= EntriesCost(entries, n)
    decreases n
  {
    if m == n {
      assert EntriesCost(entries, m) == EntriesCost(entries, n);
    } else {
      EntriesCostGrows(entries, m, n - 1);
    }
  }

  /** The cost of one batch. */
  function BatchCost(entries: seq<Node>, first: nat, last: nat): nat
    requires first <= last <= |entries|
  {
    EntriesCostGrows(entries, first, last);
    EntriesCost(entries, last) - EntriesCost(entries, first)
  }

  lemma BatchStep(entries: seq<Node>, first: nat, i: nat, last: nat)
    requires first <= i < last <= |entries|
    ensures BatchCost(entries, first, i + 1) == BatchCost(entries, first, i) + Cost(entries[i], true)
    ensures BatchCost(entries, first, i + 1) <= BatchCost(entries, first, last)
    ensures AllThere(entries, i + 1) <==> AllThere(entries, i) && (Walkable(entries[i], true) || Gone(entries, i))
  {
    EntriesCostGrows(entries, first, i);
    EntriesCostGrows(entries, i + 1, last);
  }

  /** An entry that ends the collection leaves the batch incomplete, or more expensive than can be afforded. */
  lemma BatchEnds(entries: seq<Node>, first: nat, i: nat, last: nat, m: Meter)
    requires first <= i < last <= |entries| && Suffices(m, BatchCost(entries, first, i))
    requires var r := Metered(entries[i], [i], true, After(m, BatchCost(entries, first, i)));
      r.Err? && !(r.error.PathError? && r.error.vanished)
    ensures !AllThere(entries, last) || !Suffices(m, BatchCost(entries, first, last))
  {
    BatchStep(entries, first, i, last);
    AfterAfter(m, BatchCost(entries, first, i), Cost(entries[i], true));
    WalkOfTree(entries[i], [i], true);
    FaultAtTop(entries[i], [i], true);
    AllThereGrows(entries, i + 1, last);
  }

  lemma AllThereGrows(entries: seq<Node>, m: nat, n: nat)
    requires m <= n <= |entries|
    ensures AllThere(entries, n) ==> AllThere(entries, m)
  {
  }

  /** How often the listing is asked for a batch: the last answer is that there is nothing more. */
  function Batches(entries: nat): nat {
    (entries + 255) / 256 + 1
  }

  /** Budget and context last for the root and all below it. */
  predicate TempFits(root: TempRoot, m: Meter) {
    root.Listed? ==>
      var cost := EntriesCost(root.entries, |root.entries|);
      1 + cost <= m.remaining && cost + Batches(|root.entries|) <= m.checks
  }

  /** The first `n` entries were walked, apart from whole directories that ended meanwhile. */
  predicate AllThere(entries: seq<Node>, n: nat)
    requires n <= |entries|
  {
    forall i :: 0 <= i < n ==> Walkable(entries[i], true) || Gone(entries, i)
  }

  /** A total can be stated: all that is there was walked. */
  predicate TempComplete(root: TempRoot) {
    match root
    case Absent => true
    case Refused(_) => false
    case Listed(entries, end) => end.Complete? && AllThere(entries, |entries|)
  }

  function TempSize(root: TempRoot): nat {
    if root.Listed? then EntriesSize(root.entries, |root.entries|) else 0
  }

  /** One batch of entries, from `first` to before `last`. `fatal` ends the collection, `partial` is something
      that vanished inside an entry: the collection goes on, without a total. */
  method TempBatch(entries: seq<Node>, first: nat, last: nat, sample: Sample)
    returns (size: nat, partial: Option<WalkError>, fatal: Option<WalkError>)
    requires first <= last <= |entries| && sample.meter.remaining >= 0
    modifies sample
    ensures fatal.None? ==>
      && Suffices(old(sample.meter), BatchCost(entries, first, last))
      && sample.meter == After(old(sample.meter), BatchCost(entries, first, last))
      && EntriesSize(entries, first) + size == EntriesSize(entries, last)
      && (AllThere(entries, first) ==> (partial.None? <==> AllThere(entries, last)))
    ensures fatal.Some? ==>
      !AllThere(entries, last) || !Suffices(old(sample.meter), BatchCost(entries, first, last))
    ensures sample.Allowance() == old(sample.Allowance())
  {
    size, partial := 0, None;
    for i := first to last
      invariant Suffices(old(sample.meter), BatchCost(entries, first, i))
      invariant sample.meter == After(old(sample.meter), BatchCost(entries, first, i))
      invariant sample.Allowance() == old(sample.Allowance())
      invariant EntriesSize(entries, first) + size == EntriesSize(entries, i)
      invariant AllThere(entries, first) ==> (partial.None? <==> AllThere(entries, i))
    {
      BatchStep(entries, first, i, last);
      AfterAfter(old(sample.meter), BatchCost(entries, first, i), Cost(entries[i], true));
      WalkOfTree(entries[i], [i], true);
      FaultAtTop(entries[i], [i], true);
      var n := DirectoryBytes(entries[i], [i], sample, true);
      if n.Err? && n.error.PathError? && n.error.vanished {
        if n.error.at == [i] {
          continue;
        }
        partial := Some(n.error);
        continue;
      }
      if n.Err? {
        BatchEnds(entries, first, i, last, old(sample.meter));
        return size, partial, Some(n.error);
      }
      size := size + n.value;
    }
    fatal := None;
  }

  /** trivyTempBytes: it states a total exactly when the total is not short. */
  method TrivyTempBytes(root: TempRoot, sample: Sample) returns (r: Result<nat, WalkError>)
    modifies sample
    ensures r.Ok? <==> TempComplete(root) && TempFits(root, old(sample.meter))
    ensures r.Ok? ==> r.value == TempSize(root)
    ensures !root.Listed? ==> sample.meter == old(sample.meter)
    ensures sample.Allowance() == old(sample.Allowance())
  {
    match root
    case Absent =>
      return Ok(0);
    case Refused(error) =>
      return Err(error);
    case Listed(entries, end) =>
      var ok := sample.Charge();
      if !ok {
        return Err(BudgetExceeded);
      }
      var total, partial := 0, None;
      var i, batches := 0, 0;
      ghost var cost := EntriesCost(entries, |entries|);
      while true
        invariant i <= |entries| && i == (if BATCH * batches <= |entries| then BATCH * batches else |entries|)
        invariant batches < Batches(|entries|)
        invariant 1 + EntriesCost(entries, i) <= old(sample.meter).remaining
        invariant batches + EntriesCost(entries, i) <= old(sample.meter).checks
        invariant sample.meter ==
          Meter(old(sample.meter).remaining - 1 - EntriesCost(entries, i), old(sample.meter).checks - batches - EntriesCost(entries, i))
        invariant sample.Allowance() == old(sample.Allowance())
        invariant total == EntriesSize(entries, i)
        invariant partial.None? <==> AllThere(entries, i)
        decreases |entries| - i, Batches(|entries|) - batches
      {
        EntriesCostGrows(entries, i, |entries|);
        var live := sample.Check();
        if !live {
          return Err(Cancelled);
        }
        batches := batches + 1;
        var last := if i + BATCH <= |entries| then i + BATCH else |entries|;
        EntriesCostGrows(entries, last, |entries|);
        var size, vanished, fatal := TempBatch(entries, i, last, sample);
        if fatal.Some? {
          return Err(fatal.value);
        }
        total := total + size;
        partial := if vanished.Some? then vanished else partial;
        if last == i && end.Complete? {
          return if partial.Some? then Err(partial.value) else Ok(total);
        }
        if last < i + BATCH && end.Broken? {
          return Err(PathError([], end.vanished));
        }
        i := last;
      }
  }

  // ----- One sample -----

  datatype Kind = Analysis | VulnerabilityDb | JavaDb | TmpTrivy

  /** The kinds below the cache root, in the order they are collected in. */
  const KINDS: seq<Kind> := [Analysis, VulnerabilityDb, JavaDb]

  /** The analysis cache is only looked at where it is the active one. */
  predicate Active(kind: Kind, filesystem: bool) {
    kind.Analysis? ==> filesystem
  }

  /** A part that does not exist is empty if the cache root is there. */
  predicate Measurable(part: Node, rootIsDir: bool) {
    Walkable(part, false) || (rootIsDir && EndedItself(part, false))
  }

  function PartSize(part: Node): nat {
    if Walkable(part, false) then Size(part) else 0
  }

  function PartCost(part: Node): nat {
    Cost(part, false)
  }

  /** What the first `n` kinds want of the budget. */
  function Wanted(node: Kind -> Node, n: nat, filesystem: bool): nat
    requires n <= |KINDS|
  {
    if n == 0 then 0
    else Wanted(node, n - 1, filesystem) + if Active(KINDS[n - 1], filesystem) then PartCost(node(KINDS[n - 1])) else 0
  }

  /** The gauge shows a kind exactly if it could be measured, and then its whole size. */
  predicate Shows(sizes: map<Kind, nat>, kind: Kind, measured: bool, size: nat) {
    (kind in sizes <==> measured) && (measured ==> sizes[kind] == size)
  }

  /** Kind `i` is shown if it is active and measurable, and the meter suffices for it and all before it. */
  predicate ShowsPart(sizes: map<Kind, nat>, m: Meter, node: Kind -> Node, i: nat, rootIsDir: bool, filesystem: bool)
    requires i < |KINDS|
  {
    Shows(sizes, KINDS[i],
      Active(KINDS[i], filesystem) && Measurable(node(KINDS[i]), rootIsDir) && Suffices(m, Wanted(node, i + 1, filesystem)),
      PartSize(node(KINDS[i])))
  }

  /** What is left for the temp root after parts of this cost, if anything is. */
  predicate TempFitsAfter(root: TempRoot, m: Meter, cost: nat) {
    root.Listed? ==> Suffices(m, cost) && TempFits(root, Meter(m.remaining - cost, m.checks - cost))
  }

  /** Nothing more can be walked. */
  predicate Spent(m: Meter) {
    m.remaining < 0 || m.checks == 0
  }

  /** What `cost` leaves of a meter: the rest of it, or nothing that helps. */
  predicate Tracks(m: Meter, left: Meter, cost: nat) {
    if Suffices(m, cost) then left == After(m, cost) else Spent(left)
  }

  lemma PartTracks(m: Meter, left: Meter, cost: nat, part: Node)
    requires Tracks(m, left, cost)
    ensures Tracks(m, After(left, PartCost(part)), cost + PartCost(part))
    ensures Suffices(left, PartCost(part)) <==> Suffices(m, cost + PartCost(part))
  {
    WalkOfTree(part, [], false);
  }

  lemma TempTracks(root: TempRoot, m: Meter, left: Meter, cost: nat)
    requires Tracks(m, left, cost)
    ensures TempFits(root, left) <==> TempFitsAfter(root, m, cost)
  {
  }

  /** In order: the analysis cache if it is the active one, the vulnerability database, the Java database, and
      what running scans hold; each is shown if it can be measured with what all before it have left. */
  predicate ShowsAll(sizes: map<Kind, nat>, m: Meter, node: Kind -> Node, rootIsDir: bool, temp: TempRoot, filesystem: bool) {
    var a := if filesystem then PartCost(node(Analysis)) else 0;
    var v := a + PartCost(node(VulnerabilityDb));
    var j := v + PartCost(node(JavaDb));
    && Shows(sizes, Analysis, filesystem && Measurable(node(Analysis), rootIsDir) && Suffices(m, a), PartSize(node(Analysis)))
    && Shows(sizes, VulnerabilityDb, Measurable(node(VulnerabilityDb), rootIsDir) && Suffices(m, v), PartSize(node(VulnerabilityDb)))
    && Shows(sizes, JavaDb, Measurable(node(JavaDb), rootIsDir) && Suffices(m, j), PartSize(node(JavaDb)))
    && Shows(sizes, TmpTrivy, TempComplete(temp) && TempFitsAfter(temp, m, j), TempSize(temp))
  }

  class Recorder {
    var sizes: map<Kind, nat>     // the gauge cache_size_bytes
    var lastSampleFailed: bool

    /** One kind below the cache root, when `cost` was wanted of meter `m` before. */
    method CollectPart(kind: Kind, part: Node, rootIsDir: bool, sample: Sample, ghost m: Meter, ghost cost: nat)
      returns (ok: bool)
      requires Tracks(m, sample.meter, cost)
      modifies this`sizes, sample
      ensures ok <==> Measurable(part, rootIsDir) && Suffices(m, cost + PartCost(part))
      ensures sizes == if ok then old(sizes)[kind := PartSize(part)] else old(sizes) - {kind}
      ensures Tracks(m, sample.meter, cost + PartCost(part))
      ensures sample.Allowance() == old(sample.Allowance())
    {
      PartTracks(m, sample.meter, cost, part);
      WalkOfTree(part, [], false);
      FaultAtTop(part, [], false);
      var r := DirectoryBytes(part, [], sample, false);
      if r.Err? && r.error.PathError? && r.error.at == [] && r.error.vanished && rootIsDir {
        r := Ok(0);
      }
      ok := r.Ok?;
      sizes := if ok then sizes[kind := r.value] else sizes - {kind};
    }

    /** Kind `i`, after those before it. */
    method CollectKind(i: nat, node: Kind -> Node, rootIsDir: bool, filesystem: bool, sample: Sample, ghost m: Meter)
      returns (ok: bool)
      requires i < |KINDS| && Tracks(m, sample.meter, Wanted(node, i, filesystem))
      modifies this`sizes, sample
      ensures ShowsPart(sizes, m, node, i, rootIsDir, filesystem)
      ensures ok <==> (Active(KINDS[i], filesystem) ==> KINDS[i] in sizes)
      ensures sizes - {KINDS[i]} == old(sizes) - {KINDS[i]}
      ensures Tracks(m, sample.meter, Wanted(node, i + 1, filesystem))
      ensures sample.Allowance() == old(sample.Allowance())
    {
      if KINDS[i] == Analysis && !filesystem {
        sizes := sizes - {KINDS[i]};
        return true;
      }
      ok := CollectPart(KINDS[i], node(KINDS[i]), rootIsDir, sample, m, Wanted(node, i, filesystem));
    }

    /** collectCache. Whatever the gauge showed before, it now shows each kind that could be measured
        within what the earlier ones left of budget and context, at its exact size, and no other; the sample
        counts as failed exactly if an active kind is missing. No more entries are examined than allowed. */
    method CollectCache(node: Kind -> Node, rootIsDir: bool, temp: TempRoot, maxFiles: int, checks: nat, filesystem: bool)
      returns (ghost examined: nat)
      modifies this
      ensures examined <= Max0(maxFiles)
      ensures ShowsAll(sizes, Meter(maxFiles, checks), node, rootIsDir, temp, filesystem)
      ensures !lastSampleFailed <==>
        (filesystem ==> Analysis in sizes) && VulnerabilityDb in sizes && JavaDb in sizes && TmpTrivy in sizes
    {
      var sample := new Sample(maxFiles, checks);
      ghost var m := sample.meter;
      var ok := true;
      for i := 0 to |KINDS|
        invariant Tracks(m, sample.meter, Wanted(node, i, filesystem))
        invariant forall j :: 0 <= j < i ==> ShowsPart(sizes, m, node, j, rootIsDir, filesystem)
        invariant ok <==> forall j :: 0 <= j < i && Active(KINDS[j], filesystem) ==> KINDS[j] in sizes
        invariant sample.Allowance() == Max0(maxFiles)
      {
        ghost var before := sizes;
        var okKind := CollectKind(i, node, rootIsDir, filesystem, sample, m);
        OthersShown(before, sizes, KINDS[i], m, node, i, rootIsDir, filesystem);
        ok := ok && okKind;
      }
      TempTracks(temp, m, sample.meter, Wanted(node, |KINDS|, filesystem));
      ghost var before := sizes;
      var r := TrivyTempBytes(temp, sample);
      sizes := if r.Ok? then sizes[TmpTrivy := r.value] else sizes - {TmpTrivy};
      OthersShown(before, sizes, TmpTrivy, m, node, |KINDS|, rootIsDir, filesystem);
      lastSampleFailed := !(ok && r.Ok?);
      examined := sample.examined;
      AllShown(sizes, m, node, rootIsDir, temp, filesystem);
    }
  }

  /** Collecting one kind leaves the others as they are shown. */
  lemma OthersShown(sizes: map<Kind, nat>, sizes': map<Kind, nat>, changed: Kind, m: Meter, node: Kind -> Node, n: nat,
                    rootIsDir: bool, filesystem: bool)
    requires n <= |KINDS| && (forall j :: 0 <= j < n ==> KINDS[j] != changed) && sizes' - {changed} == sizes - {changed}
    requires forall j :: 0 <= j < n ==> ShowsPart(sizes, m, node, j, rootIsDir, filesystem)
    ensures forall j :: 0 <= j < n ==> ShowsPart(sizes', m, node, j, rootIsDir, filesystem)
    ensures forall j :: 0 <= j < n ==> (KINDS[j] in sizes <==> KINDS[j] in sizes')
  {
    forall j | 0 <= j < n
      ensures ShowsPart(sizes', m, node, j, rootIsDir, filesystem) && (KINDS[j] in sizes <==> KINDS[j] in sizes')
    {
      assert ShowsPart(sizes, m, node, j, rootIsDir, filesystem);
      SameShown(sizes, sizes', changed, KINDS[j]);
    }
  }

  lemma SameShown(sizes: map<Kind, nat>, sizes': map<Kind, nat>, changed: Kind, other: Kind)
    requires sizes' - {changed} == sizes - {changed} && other != changed
    ensures other in sizes <==> other in sizes'
    ensures other in sizes ==> sizes'[other] == sizes[other]
  {
    assert other in sizes' - {changed} <==> other in sizes - {changed};
    assert other in sizes ==> (sizes - {changed})[other] == (sizes' - {changed})[other];
  }

  lemma WantedByKind(node: Kind -> Node, filesystem: bool)
    ensures Wanted(node, 1, filesystem) == if filesystem then PartCost(node(Analysis)) else 0
    ensures Wanted(node, 2, filesystem) == Wanted(node, 1, filesystem) + PartCost(node(VulnerabilityDb))
    ensures Wanted(node, 3, filesystem) == Wanted(node, 2, filesystem) + PartCost(node(JavaDb))
  {
    assert KINDS[0] == Analysis && KINDS[1] == VulnerabilityDb && KINDS[2] == JavaDb;
    assert Wanted(node, 0, filesystem) == 0;
  }

  lemma AllShown(sizes: map<Kind, nat>, m: Meter, node: Kind -> Node, rootIsDir: bool, temp: TempRoot, filesystem: bool)
    requires forall i :: 0 <= i < |KINDS| ==> ShowsPart(sizes, m, node, i, rootIsDir, filesystem)
    requires Shows(sizes, TmpTrivy,
      TempComplete(temp) && TempFitsAfter(temp, m, Wanted(node, |KINDS|, filesystem)), TempSize(temp))
    ensures ShowsAll(sizes, m, node, rootIsDir, temp, filesystem)
    ensures (forall i :: 0 <= i < |KINDS| && Active(KINDS[i], filesystem) ==> KINDS[i] in sizes) <==>
      (filesystem ==> Analysis in sizes) && VulnerabilityDb in sizes && JavaDb in sizes
  {
    WantedByKind(node, filesystem);
    assert KINDS[0] == Analysis && KINDS[1] == VulnerabilityDb && KINDS[2] == JavaDb;
    assert ShowsPart(sizes, m, node, 0, rootIsDir, filesystem);
    assert ShowsPart(sizes, m, node, 1, rootIsDir, filesystem);
    assert ShowsPart(sizes, m, node, 2, rootIsDir, filesystem);
  }
}
