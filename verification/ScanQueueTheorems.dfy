/** What the scan queue guarantees over every run. */
module ScanQueueTheorems {
  import opened Wrappers
  import opened ScanJobs
  import opened Redis
  import opened ScanQueue
  import opened ScanQueueInvariant
  import opened ScanQueueSteps

  lemma {:induction false} RunInv(states: seq<System>, events: seq<Event>, i: nat)
    requires Run(states, events) && i < |states|
    ensures Inv(states[i])
  {
    if i == 0 {
      InitHolds(states[0]);
    } else {
      RunInv(states, events, i - 1);
      assert Step(states[i - 1], events[i - 1], states[i]);
      EventKeeps(states[i - 1], events[i - 1]);
    }
  }

  ghost predicate Reachable(s: System) {
    exists states, events :: Run(states, events) && states[|events|] == s
  }

  lemma ReachableInv(s: System)
    requires Reachable(s)
    ensures Inv(s)
  {
    var states, events :| Run(states, events) && states[|events|] == s;
    RunInv(states, events, |events|);
  }

  lemma ReachableNext(s: System, e: Event)
    requires Reachable(s) && Enabled(s, e)
    ensures Reachable(Next(s, e))
  {
    var states, events :| Run(states, events) && states[|events|] == s;
    var states', events' := states + [Next(s, e)], events + [e];
    forall i {:trigger events'[i]} | 0 <= i < |events'| ensures Step(states'[i], events'[i], states'[i + 1]) {
      if i < |events| {
        assert Step(states[i], events[i], states[i + 1]);
      }
    }
    assert Run(states', events') && states'[|events'|] == Next(s, e);
  }

  lemma {:induction false} RunTimely(states: seq<System>, events: seq<Event>, i: nat)
    requires Run(states, events) && i < |states|
    ensures Timely(states[i].db)
  {
    if i == 0 {
      assert states[0].db == EMPTY;
    } else {
      RunTimely(states, events, i - 1);
      assert Step(states[i - 1], events[i - 1], states[i]);
      StepTimely(states[i - 1], events[i - 1]);
    }
  }

  // ----- No lost updates -----

  /** The first time a status update takes effect, the record it replaces is still the one it was
      computed from; when its script is executed again, the record is the one it wrote. */
  lemma NoLostUpdate(states: seq<System>, events: seq<Event>, i: nat, t: Token, fault: bool)
    requires Run(states, events) && i < |events| && events[i] == Execute(t, fault)
    requires Enabled(states[i], events[i]) && states[i].agents[t].sent.value.SetStatus?
    requires t in states[i + 1].agents && states[i + 1].agents[t].answer == Some(1)
    ensures var a, request := states[i].agents[t], states[i].agents[t].sent.value;
      var key, written := a.payload.key, Updated(request.read, request.goal, request.at);
      && Fenced(states[i].db, a.id, t)
      && JobAt(states[i].db, key) == Some(if request.applied then written else request.read)
      && JobAt(states[i + 1].db, key) == Some(written)
  {
    RunInv(states, events, i);
    assert Step(states[i], events[i], states[i + 1]);
    assert AgentOk(states[i].db, states[i].h, t, states[i].agents[t]);
  }

  // ----- At most three scans -----

  /** Event `i` of a run is a call of wrapper.Scan for this job. */
  predicate CallsScan(states: seq<System>, events: seq<Event>, key: ScanJobKey, i: nat)
    requires i < |events| <= |states|
  {
    && events[i].Invoke?
    && Decoded(states[i], events[i].t)
    && states[i].agents[events[i].t].payload.key == key
  }

  /** Calls of wrapper.Scan for one job among the first `n` events of a run. */
  function ScanCalls(states: seq<System>, events: seq<Event>, key: ScanJobKey, n: nat): nat
    requires n <= |events| <= |states|
  {
    if n == 0 then 0
    else ScanCalls(states, events, key, n - 1) + (if CallsScan(states, events, key, n - 1) then 1 else 0)
  }

  lemma {:induction false} ScansRecorded(states: seq<System>, events: seq<Event>, key: ScanJobKey, n: nat)
    requires Run(states, events) && n <= |events|
    ensures ScanCalls(states, events, key, n) == ScansOf(states[n].h, key)
  {
    if n == 0 {
      assert Init(states[0]);
    } else {
      var s, e := states[n - 1], events[n - 1];
      ScansRecorded(states, events, key, n - 1);
      RunInv(states, events, n - 1);
      assert Step(s, e, states[n]);
      if e.Invoke? {
        InvokeCounts(s, e.t, key);
      } else {
        OthersDoNotCount(s, e, key);
      }
    }
  }

  /** Agent `t` works on this job and its Pending write has taken effect. */
  ghost predicate HasBegun(s: System, key: ScanJobKey, t: Token) {
    Decoded(s, t) && s.agents[t].payload.key == key && s.agents[t].began
  }

  lemma Scanners(s: System, key: ScanJobKey) returns (callers: set<Token>)
    requires Inv(s)
    ensures forall t :: t in callers <==> IsScanner(s.h, key, t)
    ensures |callers| == ScansOf(s.h, key)
    ensures forall t :: t in callers ==> HasBegun(s, key, t) && s.agents[t].invoked
    ensures key in s.db.jobs ==>
      && key in s.h.began
      && callers <= s.h.began[key] && |s.h.began[key]| == s.db.jobs[key].value.attempts
  {
    if key in s.h.delivery {
      assert RecordOk(s.db, s.h, s.ttl, key);
      callers := s.h.scanners[key];
    } else {
      callers := {};
    }
  }

  /** As many calls as agents made one: every agent calls at most once, and only after its own Pending
      write has taken effect, which is one of the attempts the record counts. */
  lemma ScansCounted(states: seq<System>, events: seq<Event>, key: ScanJobKey, n: nat) returns (callers: set<Token>)
    requires Run(states, events) && n <= |events|
    ensures ScanCalls(states, events, key, n) == |callers|
    ensures forall t :: t in callers <==> exists i :: 0 <= i < n && CallsScan(states, events, key, i) && events[i].t == t
    ensures forall t :: t in callers ==> HasBegun(states[n], key, t) && states[n].agents[t].invoked
    ensures key in states[n].db.jobs ==>
      && key in states[n].h.began
      && callers <= states[n].h.began[key] && |states[n].h.began[key]| == states[n].db.jobs[key].value.attempts
  {
    ScansRecorded(states, events, key, n);
    RunInv(states, events, n);
    callers := Scanners(states[n], key);
    forall t ensures t in callers <==> exists i :: 0 <= i < n && CallsScan(states, events, key, i) && events[i].t == t {
      CallersRecorded(states, events, key, n, t);
    }
  }

  predicate IsScanner(h: History, key: ScanJobKey, t: Token) {
    key in h.delivery && key in h.scanners && t in h.scanners[key]
  }

  lemma {:induction false} CallersRecorded(states: seq<System>, events: seq<Event>, key: ScanJobKey, n: nat, t: Token)
    requires Run(states, events) && n <= |events|
    ensures IsScanner(states[n].h, key, t) <==>
      exists i :: 0 <= i < n && CallsScan(states, events, key, i) && events[i].t == t
  {
    if n == 0 {
      assert Init(states[0]);
    } else {
      CallersRecorded(states, events, key, n - 1, t);
      StepRecordsCaller(states, events, key, n - 1, t);
    }
  }

  lemma StepRecordsCaller(states: seq<System>, events: seq<Event>, key: ScanJobKey, n: nat, t: Token)
    requires Run(states, events) && n < |events|
    ensures IsScanner(states[n + 1].h, key, t) <==>
      IsScanner(states[n].h, key, t) || (CallsScan(states, events, key, n) && events[n].t == t)
  {
    RunInv(states, events, n);
    assert Step(states[n], events[n], states[n + 1]);
    if events[n].Invoke? {
      InvokeRecordsCaller(states[n], events[n].t, key, t);
    } else {
      OthersRecordNoCaller(states[n], events[n], key, t);
    }
  }

  lemma InvokeRecordsCaller(s: System, u: Token, key: ScanJobKey, t: Token)
    requires Inv(s) && Enabled(s, Invoke(u))
    ensures IsScanner(DoInvoke(s, u).h, key, t) <==>
      IsScanner(s.h, key, t) || (t == u && s.agents[u].payload.key == key)
  {
    assert AgentOk(s.db, s.h, u, s.agents[u]);
    assert RecordOk(s.db, s.h, s.ttl, s.agents[u].payload.key);
  }

  lemma OthersRecordNoCaller(s: System, e: Event, key: ScanJobKey, t: Token)
    requires Enabled(s, e) && !e.Invoke?
    ensures IsScanner(Next(s, e).h, key, t) <==> IsScanner(s.h, key, t)
  {
  }

  lemma SubsetSize<T>(a: set<T>, b: set<T>)
    requires a <= b
    ensures |a| <= |b|
  {
    assert b == a + (b - a);
  }

  /** No job is ever scanned more than three times, and never more often than its record says. */
  lemma AtMostThreeScans(states: seq<System>, events: seq<Event>, key: ScanJobKey, n: nat)
    requires Run(states, events) && n <= |events|
    ensures ScanCalls(states, events, key, n) <= 3
    ensures key in states[n].db.jobs ==>
      ScanCalls(states, events, key, n) <= states[n].db.jobs[key].value.attempts <= 3
  {
    RunInv(states, events, n);
    ScansRecorded(states, events, key, n);
    var s := states[n];
    if key in s.h.delivery {
      assert RecordOk(s.db, s.h, s.ttl, key);
      SubsetSize(s.h.scanners[key], s.h.began[key]);
    }
  }

  // ----- No accepted job is stranded -----

  ghost predicate QueuedAs(db: Database, key: ScanJobKey, id: EntryId) {
    id in db.stream && db.stream[id].Delivery? && db.stream[id].key == key
  }

  /** A job that is not finished has one entry in the stream and only one, and while the group exists
      every entry is pending or ahead of what has been delivered. */
  lemma NotStranded(states: seq<System>, events: seq<Event>, i: nat, key: ScanJobKey)
    requires Run(states, events) && i < |states|
    ensures var db := states[i].db;
      && (key in db.jobs && !db.jobs[key].value.status.Terminal() ==>
            exists id :: QueuedAs(db, key, id) && forall other :: QueuedAs(db, key, other) ==> other == id)
      && (db.group.Some? ==> forall id :: id in db.stream ==>
            id in db.group.value.pending || db.group.value.lastDelivered < id)
  {
    RunInv(states, events, i);
    var s := states[i];
    if key in s.db.jobs && !s.db.jobs[key].value.status.Terminal() {
      assert RecordOk(s.db, s.h, s.ttl, key);
      assert QueuedAs(s.db, key, s.h.delivery[key]);
    }
  }

  // ----- Records over a stretch of a run -----

  lemma RecordChangesCompose(s: System, m: System, s': System, key: ScanJobKey)
    requires key in s.h.delivery && RecordChange(s, m, key)
    requires key in m.h.delivery && RecordChange(m, s', key)
    ensures RecordChange(s, s', key)
  {
  }

  /** Finished and Failed are absorbing, a record that is gone stays gone, and an expiry that retirement
      has set stays: whatever happens between two states of a run. */
  lemma {:induction false} RecordOverRun(states: seq<System>, events: seq<Event>, i: nat, j: nat, key: ScanJobKey)
    requires Run(states, events) && i <= j < |states|
    requires key in states[i].h.delivery
    ensures RecordChange(states[i], states[j], key)
    decreases j
  {
    if i == j {
      assert states[i] == states[j];
    } else {
      RecordOverRun(states, events, i, j - 1, key);
      RunInv(states, events, j - 1);
      assert Step(states[j - 1], events[j - 1], states[j]);
      StepChange(states[j - 1], events[j - 1], key);
      RecordChangesCompose(states[i], states[j - 1], states[j], key);
    }
  }

  // ----- The report belongs to the finishing attempt -----

  /** Agent `t` worked on this job, its scan produced this report, and it stored Finished. */
  ghost predicate FinishedBy(s: System, key: ScanJobKey, t: Token, report: ScanReport) {
    && key in s.h.finisher && s.h.finisher[key] == t
    && t in s.agents && s.agents[t].report == Some(report)
  }

  /** In every state of every run, the report stored beside a Finished record is the one scanned by the
      agent whose Finished write took effect, unless the report key was evicted. */
  lemma ReportOfFinisher(states: seq<System>, events: seq<Event>, i: nat, key: ScanJobKey)
    requires Run(states, events) && i < |states|
    requires key in states[i].db.jobs && states[i].db.jobs[key].value.status.Finished?
    requires key !in states[i].h.lostReports
    ensures key in states[i].db.reports && key in states[i].h.finisher
    ensures FinishedBy(states[i], key, states[i].h.finisher[key], states[i].db.reports[key].value)
  {
    RunInv(states, events, i);
    assert FinishedOk(states[i], key);
  }

  /** In step `e` agent `e.t` becomes the finisher: its Finished write takes effect under its own lease,
      while the report stored beside the record is the one it has scanned. */
  ghost predicate Finishes(s: System, e: Event, s': System, key: ScanJobKey) {
    && e.Execute? && Finishing(s, e.t, key)
    && key in s'.h.finisher && s'.h.finisher[key] == e.t
    && key in s'.db.jobs && s'.db.jobs[key].value.status.Finished?
    && e.t in s'.agents && ReportKept(s'.db, s'.h, key, s'.agents[e.t].report)
  }

  lemma FinisherStep(s: System, e: Event, key: ScanJobKey)
    requires Inv(s) && Enabled(s, e) && key in Next(s, e).h.finisher
    requires Inv(Next(s, e))
    ensures var s' := Next(s, e);
      (key in s.h.finisher && s'.h.finisher[key] == s.h.finisher[key]) || Finishes(s, e, s', key)
  {
    var s' := Next(s, e);
    if e.Execute? {
      assert AgentOk(s.db, s.h, e.t, s.agents[e.t]);
      ExecuteFinisher(s, e.t, e.fault, key);
      assert key in s'.db.jobs ==> FinishedOk(s', key);
    } else {
      OthersKeepFinisher(s, e);
    }
  }

  lemma RunFinisherStep(states: seq<System>, events: seq<Event>, i: nat, key: ScanJobKey)
    requires Run(states, events) && i < |events| && key in states[i + 1].h.finisher
    ensures var s, s' := states[i], states[i + 1];
      (key in s.h.finisher && s'.h.finisher[key] == s.h.finisher[key]) || Finishes(s, events[i], s', key)
  {
    assert Step(states[i], events[i], states[i + 1]);
    RunInv(states, events, i);
    RunInv(states, events, i + 1);
    FinisherStep(states[i], events[i], key);
  }

  /** Every finisher became one by such a step. */
  lemma {:induction false} FinisherWroteFinished(states: seq<System>, events: seq<Event>, i: nat, key: ScanJobKey)
    returns (m: nat)
    requires Run(states, events) && i < |states| && key in states[i].h.finisher
    ensures m < i && Finishes(states[m], events[m], states[m + 1], key)
    ensures events[m].t == states[i].h.finisher[key]
    decreases i
  {
    assert i > 0;
    m := i - 1;
    RunFinisherStep(states, events, m, key);
    if !Finishes(states[m], events[m], states[m + 1], key) {
      m := FinisherWroteFinished(states, events, i - 1, key);
    }
  }

  /** `Get`: the record read in one round trip, the report in a later one. Without a report key the
      record is returned with whatever report it carries inline. */
  function Get(first: Database, second: Database, key: ScanJobKey): Option<ScanJob> {
    match JobAt(first, key)
    case None => None
    case Some(job) =>
      match ReportAt(second, key)
      case None => Some(job)
      case Some(report) => Some(job.(report := report))
  }

  /** Whatever two states of the server the round trips meet: nothing is found exactly if there is no record at
      the first one; otherwise it is that record, with the report stored at the second one if there is one. */
  lemma GetExactly(first: Database, second: Database, key: ScanJobKey)
    ensures Get(first, second, key).None? <==> key !in first.jobs
    ensures key in first.jobs ==>
      var got, record := Get(first, second, key).value, first.jobs[key].value;
      && got.key == record.key && got.status == record.status && got.attempts == record.attempts
      && got.error == record.error && got.finishedAt == record.finishedAt
      && got.report == if key in second.reports then second.reports[key].value else record.report
  {
  }

  /** Whoever polls an accepted job finds it, at whatever two moments of a run the read takes place: in every
      state before its retirement, and after it until the record expires, unless it was evicted. What is found
      is the job with its own key, its attempts so far, and, once it has failed, why. */
  lemma AcceptedIsFound(states: seq<System>, events: seq<Event>, i: nat, j: nat, key: ScanJobKey)
    requires Run(states, events) && i <= j < |states|
    requires key in states[i].h.delivery && key !in states[i].h.lostJobs
    ensures states[i].h.delivery[key] !in states[i].h.retired ==> Get(states[i].db, states[j].db, key).Some?
    ensures key in states[i].db.jobs ==>
      var got, record := Get(states[i].db, states[j].db, key), states[i].db.jobs[key].value;
      && got.Some? && got.value.key == key
      && got.value.status == record.status && got.value.error == record.error
      && got.value.attempts == record.attempts <= 3
  {
    RunInv(states, events, i);
    assert RecordOk(states[i].db, states[i].h, states[i].ttl, key);
    GetExactly(states[i].db, states[j].db, key);
  }

  /** A retired record at state `i`, and not past its expiry at state `n`. */
  ghost predicate Retained(states: seq<System>, i: nat, n: nat, key: ScanJobKey)
    requires i <= n < |states|
  {
    && key in states[i].h.delivery && states[i].h.delivery[key] in states[i].h.retired && key in states[i].db.jobs
    && (states[i].db.jobs[key].expiry.Some? ==> states[n].db.now < states[i].db.jobs[key].expiry.value)
    && key !in states[n].h.lostJobs
  }

  lemma RetainedStep(states: seq<System>, events: seq<Event>, i: nat, n: nat, key: ScanJobKey)
    requires Run(states, events) && i <= n < |events| && Retained(states, i, n + 1, key) && key in states[n].db.jobs
    ensures key in states[n + 1].db.jobs
  {
    RecordOverRun(states, events, i, n, key);
    RetentionStartsAtRetirement(states, events, i, key);
    RetentionStartsAtRetirement(states, events, n, key);
    TtlStays(states, events, i, n);
    assert Step(states[n], events[n], states[n + 1]);
    StepKeepsRecord(states[n], events[n], key);
  }

  lemma {:induction false} TtlStays(states: seq<System>, events: seq<Event>, i: nat, j: nat)
    requires Run(states, events) && i <= j < |states|
    ensures states[j].ttl == states[i].ttl
    decreases j
  {
    if i == j {
      assert states[i] == states[j];
    } else {
      TtlStays(states, events, i, j - 1);
      assert Step(states[j - 1], events[j - 1], states[j]);
      StepConserves(states[j - 1], events[j - 1]);
    }
  }

  lemma RetainedBefore(states: seq<System>, events: seq<Event>, i: nat, n: nat, key: ScanJobKey)
    requires Run(states, events) && i <= n < |events| && Retained(states, i, n + 1, key)
    ensures Retained(states, i, n, key)
  {
    assert Step(states[n], events[n], states[n + 1]);
    StepGoesForward(states[n], events[n]);
  }

  lemma {:induction false} RetainedIsThere(states: seq<System>, events: seq<Event>, i: nat, j: nat, key: ScanJobKey)
    requires Run(states, events) && i <= j < |states| && Retained(states, i, j, key)
    ensures key in states[j].db.jobs
    decreases j
  {
    if i == j {
      assert states[i] == states[j];
    } else {
      RetainedBefore(states, events, i, j - 1, key);
      RetainedIsThere(states, events, i, j - 1, key);
      RetainedStep(states, events, i, j - 1, key);
    }
  }

  /** A retired record stays for its whole retention: it is there, unchanged, in every later state before its
      expiry, and for good without one, unless it was evicted. */
  lemma RetiredIsKept(states: seq<System>, events: seq<Event>, i: nat, j: nat, key: ScanJobKey)
    requires Run(states, events) && i <= j < |states| && Retained(states, i, j, key)
    ensures key in states[j].db.jobs && states[j].db.jobs[key].value == states[i].db.jobs[key].value
    ensures key in states[i].db.reports && key !in states[j].h.lostReports ==>
      key in states[j].db.reports && states[j].db.reports[key].value == states[i].db.reports[key].value
  {
    RetainedIsThere(states, events, i, j, key);
    RecordOverRun(states, events, i, j, key);
    RunInv(states, events, i);
    assert RecordOk(states[i].db, states[i].h, states[i].ttl, key);
  }

  /** A read that sees Finished returns the finishing attempt's report, whatever happens between its two
      round trips, exactly when the record still exists at the second one. When it has expired in
      between, the caller gets a Finished job with an empty report. */
  lemma GetReturnsFinishersReport(states: seq<System>, events: seq<Event>, i: nat, j: nat, key: ScanJobKey)
    requires Run(states, events) && i <= j < |states|
    requires key in states[i].db.jobs && states[i].db.jobs[key].value.status.Finished?
    requires key !in states[j].h.lostReports && key !in states[j].h.lostJobs
    ensures key in states[i].h.finisher
    ensures var got := Get(states[i].db, states[j].db, key);
      && got.Some? && got.value.status.Finished?
      && (key in states[j].db.jobs ==> FinishedBy(states[i], key, states[i].h.finisher[key], got.value.report))
      && (key !in states[j].db.jobs ==> got.value.report == NO_REPORT)
  {
    RunInv(states, events, i);
    RunInv(states, events, j);
    assert RecordOk(states[i].db, states[i].h, states[i].ttl, key);
    RecordOverRun(states, events, i, j, key);
    ReportOfFinisher(states, events, i, key);
    assert RecordOk(states[j].db, states[j].h, states[j].ttl, key);
  }

  // ----- Conservation of deliveries -----

  /** No class of entries loses a member. */
  ghost predicate EntriesKept(s: System, s': System) {
    && s.h.added.Keys <= s'.h.added.Keys
    && s.h.retired <= s'.h.retired
    && s.db.quarantine.Keys <= s'.db.quarantine.Keys
  }

  lemma RunStepKeepsEntries(states: seq<System>, events: seq<Event>, i: nat)
    requires Run(states, events) && i < |events|
    ensures EntriesKept(states[i], states[i + 1])
  {
    assert Step(states[i], events[i], states[i + 1]);
    StepConserves(states[i], events[i]);
  }

  lemma {:induction false} EntriesKeptOverRun(states: seq<System>, events: seq<Event>, i: nat, j: nat)
    requires Run(states, events) && i <= j < |states|
    ensures EntriesKept(states[i], states[j])
    decreases j
  {
    if i == j {
      assert states[i] == states[j];
    } else {
      EntriesKeptOverRun(states, events, i, j - 1);
      RunStepKeepsEntries(states, events, j - 1);
    }
  }

  /** Every entry ever added is live, acknowledged or quarantined, and only one of these; the last two
      are for good. */
  lemma DeliveriesConserved(states: seq<System>, events: seq<Event>, i: nat, j: nat)
    requires Run(states, events) && i <= j < |states|
    ensures Conserved(states[j].db, states[j].h)
    ensures states[i].h.added.Keys <= states[j].h.added.Keys
    ensures states[i].h.retired <= states[j].h.retired
    ensures states[i].db.quarantine.Keys <= states[j].db.quarantine.Keys
  {
    RunInv(states, events, j);
    EntriesKeptOverRun(states, events, i, j);
  }

  /** Why an entry left the stream: an acknowledged one has a terminal record for as long as it has
      one, a quarantined one could not be decoded or its record was evicted. */
  lemma LeftForAReason(states: seq<System>, events: seq<Event>, i: nat, id: EntryId)
    requires Run(states, events) && i < |states| && id in states[i].h.added
    ensures var s := states[i];
      && (id in s.h.retired && s.h.added[id].Delivery? && s.h.added[id].key in s.db.jobs ==>
            s.db.jobs[s.h.added[id].key].value.status.Terminal())
      && (id in s.db.quarantine && s.h.added[id].Delivery? ==> s.h.added[id].key in s.h.lostJobs)
  {
    RunInv(states, events, i);
    var s := states[i];
    if s.h.added[id].Delivery? {
      assert RecordOk(s.db, s.h, s.ttl, s.h.added[id].key);
    }
  }

  // ----- Retention -----

  /** A record waits without an expiry until its entry is acknowledged; from then on, with a positive
      TTL, record and report always expire together. `RecordOverRun` adds that the expiry stays. */
  lemma RetentionStartsAtRetirement(states: seq<System>, events: seq<Event>, i: nat, key: ScanJobKey)
    requires Run(states, events) && i < |states| && key in states[i].h.delivery
    ensures var s, id := states[i], states[i].h.delivery[key];
      && (id in s.db.stream ==>
            && (key in s.db.jobs ==> s.db.jobs[key].expiry.None?)
            && (key in s.db.reports ==> s.db.reports[key].expiry.None?))
      && (id in s.h.retired && key in s.db.jobs ==>
            && (s.db.jobs[key].expiry.Some? <==> s.ttl > 0)
            && (key in s.db.reports ==> s.db.reports[key].expiry == s.db.jobs[key].expiry))
  {
    RunInv(states, events, i);
    assert RecordOk(states[i].db, states[i].h, states[i].ttl, key);
  }

  // ----- Leases -----

  /** There is never a second writer for a job, not even after its entry was delivered again by a
      recreated group. */
  lemma OneWriter(states: seq<System>, events: seq<Event>, i: nat, t: Token, u: Token, key: ScanJobKey)
    requires Run(states, events) && i < |states|
    requires CanWrite(states[i], t, key) && CanWrite(states[i], u, key)
    ensures t == u
  {
    RunInv(states, events, i);
    OneEntryPerJob(states[i], t, u);
  }

  /** A lost lease is lost for good: no run brings an agent back to it. */
  lemma {:induction false} LostLeaseStaysLost(states: seq<System>, events: seq<Event>, i: nat, j: nat, t: Token)
    requires Run(states, events) && i <= j < |states| && Excluded(states[i], t)
    ensures Excluded(states[j], t)
    decreases j
  {
    if i == j {
      assert states[i] == states[j];
    } else {
      LostLeaseStaysLost(states, events, i, j - 1, t);
      assert Step(states[j - 1], events[j - 1], states[j]);
      ExclusionStays(states[j - 1], events[j - 1], t);
    }
  }

  /** However long after the loss a renewal or release of that agent arrives, it changes nothing on the
      server: it neither deletes nor extends the lease of whoever holds it by then. */
  lemma LateLeaseScriptsDoNothing(states: seq<System>, events: seq<Event>, i: nat, j: nat, t: Token)
    requires Run(states, events) && i <= j < |events| && Excluded(states[i], t)
    requires events[j] == Renew(t) || events[j] == Release(t)
    ensures states[j + 1].db == states[j].db
  {
    LostLeaseStaysLost(states, events, i, j, t);
    assert Step(states[j], events[j], states[j + 1]);
  }

  // ----- Renewal -----

  /** The steps in which agent `t` itself gives its lease away. */
  ghost predicate LetsGo(s: System, e: Event, t: Token) {
    e == Release(t) || (e.Execute? && e.t == t && t in s.agents && s.agents[t].sent == Some(Retire))
  }

  ghost predicate Holds(s: System, t: Token) {
    t in s.agents && Fenced(s.db, s.agents[t].id, t)
  }

  /** From state `m` on the lease of `t` runs: it was held at `i`, or renewed in the step before `m`. */
  predicate RunsFrom(events: seq<Event>, i: nat, m: nat, t: Token)
    requires i <= m <= |events|
  {
    m == i || events[m - 1] == Renew(t)
  }

  /** When a lease that runs from state `m` on ends without a renewal. */
  ghost function EndsAt(states: seq<System>, i: nat, m: nat, t: Token): nat
    requires i <= m < |states| && Holds(states[i], t)
  {
    if m == i then states[i].db.leases[states[i].agents[t].id].until else states[m].db.now + 60000
  }

  /** At state `n` the time since the last renewal is less than a minute. */
  ghost predicate InTime(states: seq<System>, events: seq<Event>, i: nat, n: nat, t: Token)
    requires i <= n <= |events| && |states| == |events| + 1 && Holds(states[i], t)
  {
    exists m {:trigger RunsFrom(events, i, m, t)} ::
      i <= m <= n && RunsFrom(events, i, m, t) && states[n].db.now < EndsAt(states, i, m, t)
  }

  /** The lease of `t` is held, and lasts at least as long as every renewal so far has promised. */
  ghost predicate LeaseRuns(states: seq<System>, events: seq<Event>, i: nat, n: nat, t: Token)
    requires i <= n <= |events| && |states| == |events| + 1 && Holds(states[i], t)
  {
    && Holds(states[n], t) && states[n].agents[t].id == states[i].agents[t].id
    && forall m {:trigger RunsFrom(events, i, m, t)} :: i <= m <= n && RunsFrom(events, i, m, t) ==>
         EndsAt(states, i, m, t) <= states[n].db.leases[states[n].agents[t].id].until
  }

  /** An agent that holds its lease, renews it before each minute has passed, and neither releases it nor
      retires its delivery, still holds it: nobody else can take it from it. */
  lemma {:induction false} RenewedLeaseStays(states: seq<System>, events: seq<Event>, i: nat, j: nat, t: Token)
    requires Run(states, events) && i <= j <= |events| && Holds(states[i], t)
    requires forall n {:trigger events[n]} :: i <= n < j ==> !LetsGo(states[n], events[n], t)
    requires forall n :: i <= n <= j ==> InTime(states, events, i, n, t)
    ensures LeaseRuns(states, events, i, j, t) && !Excluded(states[j], t)
    decreases j
  {
    if i == j {
      assert states[i] == states[j];
    } else {
      RenewedLeaseStays(states, events, i, j - 1, t);
      LeaseStepsOn(states, events, i, j - 1, t);
      LeaseRunsOn(states, events, i, j - 1, t);
    }
  }

  /** One more step: the lease is still there and ends no earlier, and a renewal starts a new minute. */
  ghost predicate StillRuns(s: System, e: Event, s': System, t: Token) {
    && Holds(s, t) && Holds(s', t) && s'.agents[t].id == s.agents[t].id
    && s.db.leases[s.agents[t].id].until <= s'.db.leases[s'.agents[t].id].until
    && (e == Renew(t) ==> s'.db.leases[s'.agents[t].id].until == s'.db.now + 60000)
  }

  lemma LeaseStepsOn(states: seq<System>, events: seq<Event>, i: nat, n: nat, t: Token)
    requires Run(states, events) && i <= n < |events| && Holds(states[i], t)
    requires LeaseRuns(states, events, i, n, t) && !LetsGo(states[n], events[n], t) && InTime(states, events, i, n + 1, t)
    ensures StillRuns(states[n], events[n], states[n + 1], t)
  {
    assert Step(states[n], events[n], states[n + 1]);
    RunTimely(states, events, n);
    if events[n].TimePasses? {
      var m :| i <= m <= n + 1 && RunsFrom(events, i, m, t) && states[n + 1].db.now < EndsAt(states, i, m, t);
      assert RunsFrom(events, i, m, t) && m <= n;
    }
    LeaseStep(states[n], events[n], t);
  }

  lemma LeaseRunsOn(states: seq<System>, events: seq<Event>, i: nat, n: nat, t: Token)
    requires i <= n < |events| && |states| == |events| + 1 && Holds(states[i], t)
    requires LeaseRuns(states, events, i, n, t) && StillRuns(states[n], events[n], states[n + 1], t)
    ensures LeaseRuns(states, events, i, n + 1, t)
  {
    forall m {:trigger RunsFrom(events, i, m, t)} | i <= m <= n + 1 && RunsFrom(events, i, m, t)
      ensures EndsAt(states, i, m, t) <= states[n + 1].db.leases[states[n + 1].agents[t].id].until
    {
      if m <= n {
        assert RunsFrom(events, i, m, t);
      } else {
        assert events[n] == Renew(t);
      }
    }
  }

  // ----- Every entry can be taken again -----

  /** The commands of the worker loop, and waiting. */
  predicate OfLoop(e: Event) {
    e.TimePasses? || e.EnsureGroup? || e.Read? || e.Reclaim?
  }

  /** A path of nothing but these. */
  ghost predicate LoopPath(states: seq<System>, events: seq<Event>) {
    Path(states, events) && forall i {:trigger events[i]} :: 0 <= i < |events| ==> OfLoop(events[i])
  }

  ghost predicate Leads(s: System, s': System) {
    exists states, events :: LoopPath(states, events) && states[0] == s && states[|events|] == s'
  }

  lemma LeadsByOne(s: System, e: Event)
    requires Enabled(s, e) && OfLoop(e)
    ensures Leads(s, Next(s, e))
  {
    var states, events := [s, Next(s, e)], [e];
    forall i {:trigger events[i]} | 0 <= i < |events| ensures Step(states[i], events[i], states[i + 1]) {
    }
    assert LoopPath(states, events) && states[0] == s && states[|events|] == Next(s, e);
  }

  lemma JoinedStep(p: seq<System>, e: seq<Event>, q: seq<System>, f: seq<Event>, i: nat)
    requires LoopPath(p, e) && LoopPath(q, f) && p[|e|] == q[0] && i < |e + f|
    ensures Step((p + q[1..])[i], (e + f)[i], (p + q[1..])[i + 1]) && OfLoop((e + f)[i])
  {
    if i < |e| {
      assert (e + f)[i] == e[i];
    } else {
      assert (e + f)[i] == f[i - |e|];
    }
  }

  lemma LeadsOn(s: System, m: System, s': System)
    requires Leads(s, m) && Leads(m, s')
    ensures Leads(s, s')
  {
    var p, e :| LoopPath(p, e) && p[0] == s && p[|e|] == m;
    var q, f :| LoopPath(q, f) && q[0] == m && q[|f|] == s';
    var states, events := p + q[1..], e + f;
    forall i {:trigger events[i]} | 0 <= i < |events|
      ensures Step(states[i], events[i], states[i + 1]) && OfLoop(events[i])
    {
      JoinedStep(p, e, q, f, i);
    }
    assert LoopPath(states, events) && states[0] == s && states[|events|] == s';
  }

  /** Whatever waits without an expiry is as it was, and nothing has appeared. */
  ghost predicate Waits<V(!new)>(m: map<ScanJobKey, Stored<V>>, m': map<ScanJobKey, Stored<V>>) {
    && m'.Keys <= m.Keys
    && forall k :: k in m && m[k].expiry.None? ==> k in m' && m'[k] == m[k]
  }

  /** Entries, waiting records and reports, all that has happened, and the agents are as they were; there
      may be more agents, and at most one lease period has passed. */
  ghost predicate Untouched(s: System, s': System) {
    && s'.db.stream == s.db.stream && s'.db.quarantine == s.db.quarantine
    && s'.h == s.h && s'.ttl == s.ttl
    && Waits(s.db.jobs, s'.db.jobs) && Waits(s.db.reports, s'.db.reports)
    && (forall t :: t in s.agents ==> t in s'.agents && s'.agents[t] == s.agents[t])
    && s.db.now <= s'.db.now <= s.db.now + LEASE_MILLIS
  }

  /** A new agent holds the message of entry `id`, which is pending in the group and whose lease is free. */
  ghost predicate Offered(s: System, s': System, id: EntryId)
    requires id in s.db.stream
  {
    && Untouched(s, s')
    && s'.db.group.Some? && id in s'.db.group.value.pending && id !in s'.db.leases
    && exists t :: t in s'.agents && t !in s.agents && s'.agents[t] == NewAgent(s'.agents[t].consumer, id, s.db.stream[id])
  }

  function Undelivered(db: Database): set<EntryId>
    requires db.group.Some?
  {
    set id | id in db.stream && db.group.value.lastDelivered < id
  }

  lemma {:induction false} LeastOf(ids: set<nat>) returns (least: nat)
    requires ids != {}
    ensures least in ids && forall i :: i in ids ==> least <= i
  {
    var one :| one in ids;
    var rest := ids - {one};
    assert ids == rest + {one};
    least := one;
    if rest != {} {
      var other := LeastOf(rest);
      least := if other < one then other else one;
    }
  }

  lemma {:induction false} FreshToken(tokens: set<Token>) returns (t: Token)
    ensures t !in tokens && forall u :: u in tokens ==> u < t
  {
    if tokens == {} {
      t := 0;
    } else {
      var u :| u in tokens;
      var v := FreshToken(tokens - {u});
      assert tokens == tokens - {u} + {u};
      t := if u < v then v else u + 1;
    }
  }

  lemma WaitingTouchesNothing(s: System)
    ensures Untouched(s, Next(s, TimePasses(LEASE_MILLIS)))
  {
  }

  lemma ReclaimAfterWaiting(s: System, t: Token, id: EntryId)
    requires Reachable(s) && id in s.db.stream && t !in s.agents
    requires s.db.group.Some? && id in s.db.group.value.pending
    ensures exists s' :: Leads(s, s') && Offered(s, s', id)
  {
    var states, events :| Run(states, events) && states[|events|] == s;
    RunTimely(states, events, |events|);
    var wait, take := TimePasses(LEASE_MILLIS), Reclaim(t, 0, id);
    var m := Next(s, wait);
    WaitingTouchesNothing(s);
    assert id !in m.db.leases && Enabled(m, take);
    var s' := Next(m, take);
    LeadsByOne(s, wait);
    LeadsByOne(m, take);
    LeadsOn(s, m, s');
    assert s'.agents[t] == NewAgent(0, id, s.db.stream[id]);
    assert Offered(s, s', id);
  }

  /** An entry that is not pending has something to read at or before it. */
  lemma SomethingToRead(db: Database, id: EntryId) returns (first: EntryId)
    requires GroupOk(db) && db.group.Some? && id in db.stream && id !in db.group.value.pending
    ensures NextUndelivered(db, first) && first <= id
    ensures first in Undelivered(db)
  {
    assert id in Undelivered(db);
    first := LeastOf(Undelivered(db));
    forall j | j in db.stream && db.group.value.lastDelivered < j ensures first <= j {
      assert j in Undelivered(db);
    }
  }

  lemma OfferedLater(s: System, m: System, s': System, id: EntryId)
    requires id in s.db.stream && Untouched(s, m) && m.db.now == s.db.now
    requires Leads(s, m) && Leads(m, s') && Offered(m, s', id)
    ensures Leads(s, s') && Offered(s, s', id)
  {
    LeadsOn(s, m, s');
  }

  lemma ReadLeavesLess(db: Database, id: EntryId, consumer: Consumer)
    requires NextUndelivered(db, id)
    ensures var db' := ReadGroup(db, id, consumer); |Undelivered(db')| < |Undelivered(db)|
  {
    var db' := ReadGroup(db, id, consumer);
    assert Undelivered(db') <= Undelivered(db) - {id};
    SubsetSize(Undelivered(db'), Undelivered(db) - {id});
    assert id in Undelivered(db);
  }

  /** The next command of the loop while the entry is not pending: recreate the group, or read. */
  lemma Approach(s: System, id: EntryId) returns (e: Event)
    requires Reachable(s) && id in s.db.stream && (s.db.group.Some? ==> id !in s.db.group.value.pending)
    ensures Enabled(s, e) && OfLoop(e) && Untouched(s, Next(s, e)) && Next(s, e).db.now == s.db.now
    ensures Next(s, e).db.group.Some?
    ensures s.db.group.Some? ==> |Undelivered(Next(s, e).db)| < |Undelivered(s.db)|
  {
    e := EnsureGroup;
    if s.db.group.Some? {
      ReachableInv(s);
      var first := SomethingToRead(s.db, id);
      var t := FreshToken(s.agents.Keys);
      ReadLeavesLess(s.db, first, 0);
      e := Read(t, 0, first);
    }
  }

  /** From every reachable state, whether the group is there or lost and whoever holds the lease, commands
      of the worker loop and at most one lease period of waiting hand every entry of the stream to a new
      agent, which finds the lease free and the record as it was. */
  lemma {:induction false} NeverStuck(s: System, id: EntryId)
    requires Reachable(s) && id in s.db.stream
    ensures exists s' :: Leads(s, s') && Offered(s, s', id)
    decreases s.db.group.None?, if s.db.group.Some? then |Undelivered(s.db)| else 0
  {
    if s.db.group.Some? && id in s.db.group.value.pending {
      var t := FreshToken(s.agents.Keys);
      ReclaimAfterWaiting(s, t, id);
    } else {
      var e := Approach(s, id);
      var m := Next(s, e);
      LeadsByOne(s, e);
      ReachableNext(s, e);
      NeverStuck(m, id);
      var s' :| Leads(m, s') && Offered(m, s', id);
      OfferedLater(s, m, s', id);
    }
  }
}
