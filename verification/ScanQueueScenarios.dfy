/**
 Two things the scan queue does, shown at states it reaches: a late acknowledgement moves an expiry, and a
 reader can be given a Finished job without its report.
 */
module ScanQueueScenarios {
  import opened Wrappers
  import opened ScanJobs
  import opened Redis
  import opened ScanQueue
  import opened ScanQueueInvariant
  import opened ScanQueueSteps
  import opened ScanQueueTheorems

  // ----- A reader that is too late -----

  lemma ExpireTogether(s: System, key: ScanJobKey, d: nat)
    requires key in s.h.delivery && RecordOk(s.db, s.h, s.ttl, key)
    requires s.h.delivery[key] in s.h.retired && key in s.db.jobs
    requires s.db.jobs[key].expiry.Some? && s.db.jobs[key].expiry.value <= s.db.now + d
    ensures key !in Tick(s.db, d).jobs && key !in Tick(s.db, d).reports
    ensures s.db.jobs[key].value.report == NO_REPORT
  {
  }

  /** From every reachable state with a Finished record under an expiry, waiting until then makes a reader
      between whose round trips this happens return Finished without a report. */
  lemma ReaderComesTooLate(s: System, key: ScanJobKey) returns (wait: Event)
    requires Reachable(s) && key in s.db.jobs && key in s.h.delivery && s.h.delivery[key] in s.h.retired
    requires s.db.jobs[key].value.status.Finished? && s.db.jobs[key].expiry.Some?
    ensures wait.TimePasses? && Enabled(s, wait)
    ensures Get(s.db, Next(s, wait).db, key) == Some(s.db.jobs[key].value)
    ensures s.db.jobs[key].value.report == NO_REPORT
  {
    var expiry := s.db.jobs[key].expiry.value;
    var d := if expiry > s.db.now then expiry - s.db.now else 0;
    wait := TimePasses(d);
    RecordOfReachable(s, key);
    ExpireTogether(s, key, d);
  }

  lemma RecordOfReachable(s: System, key: ScanJobKey)
    requires Reachable(s) && key in s.h.delivery
    ensures RecordOk(s.db, s.h, s.ttl, key)
  {
    ReachableInv(s);
  }

  // ----- A run to the end -----

  /** Entry 1 is this job's delivery; agent 0 holds its lease, agent 1 an older copy of its message. */
  ghost predicate Working(s: System, key: ScanJobKey, ttl: int) {
    && Reachable(s) && s.ttl == ttl
    && s.agents.Keys == {0, 1}
    && s.agents[0].id == 1 && s.agents[0].payload == Delivery(key, "")
    && s.agents[1] == NewAgent(0, 1, Delivery(key, ""))
    && Fenced(s.db, 1, 0)
    && key in s.h.delivery && s.h.delivery[key] == 1 && 1 in s.db.stream
    && key in s.db.jobs && s.db.jobs[key].value.key == key
  }

  /** What agent 0 is about to do, and what the record and the report are. */
  ghost predicate At0(s: System, phase: Phase, report: Option<ScanReport>) {
    0 in s.agents && s.agents[0].phase == phase && s.agents[0].sent.None? && s.agents[0].report == report
  }

  lemma InitReachable(s: System)
    requires Init(s)
    ensures Reachable(s)
  {
    var states: seq<System>, events: seq<Event> := [s], [];
    assert Run(states, events) && states[|events|] == s;
  }

  /** The job is queued and its message read. */
  lemma Delivered(key: ScanJobKey, ttl: int) returns (s: System)
    ensures Reachable(s) && s.ttl == ttl
    ensures s.agents == map[0 := NewAgent(0, 1, Delivery(key, ""))]
    ensures s.db.stream == map[1 := Delivery(key, "")] && s.db.leases == map[]
    ensures s.db.jobs == map[key := Stored(NewScanJob(key), None)] && s.db.reports == map[]
    ensures s.db.group == Some(Group(1, map[1 := PendingEntry(0, 0)], map[0 := 0])) && s.db.now == 0
    ensures key in s.h.delivery && s.h.delivery[key] == 1
  {
    s := System(EMPTY, map[], History(map[], map[], {}, map[], map[], map[], map[], {}, {}), ttl);
    InitReachable(s);
    ReachableNext(s, EnqueueJob(key, "", false));
    s := Next(s, EnqueueJob(key, "", false));
    assert s.db.stream == map[1 := Delivery(key, "")];
    ReachableNext(s, EnsureGroup);
    s := Next(s, EnsureGroup);
    assert NextUndelivered(s.db, 1);
    ReachableNext(s, Read(0, 0, 1));
    s := Next(s, Read(0, 0, 1));
  }

  /** A lease period later the message is handed out again. */
  lemma DeliveredTwice(key: ScanJobKey, ttl: int) returns (s: System)
    ensures Reachable(s) && s.ttl == ttl
    ensures s.agents == map[0 := NewAgent(0, 1, Delivery(key, "")), 1 := NewAgent(0, 1, Delivery(key, ""))]
    ensures s.db.stream == map[1 := Delivery(key, "")] && s.db.leases == map[]
    ensures s.db.jobs == map[key := Stored(NewScanJob(key), None)]
    ensures key in s.h.delivery && s.h.delivery[key] == 1
  {
    var first := Delivered(key, ttl);
    ReachableNext(first, TimePasses(LEASE_MILLIS));
    var later := Next(first, TimePasses(LEASE_MILLIS));
    assert Claimable(later.db, 1) && later.db.jobs == first.db.jobs;
    ReachableNext(later, Reclaim(1, 0, 1));
    s := Next(later, Reclaim(1, 0, 1));
  }

  /** Only then the first agent takes the lease. */
  lemma FirstComes(key: ScanJobKey, ttl: int) returns (s: System)
    ensures Working(s, key, ttl) && At0(s, Leased, None)
    ensures s.db.jobs[key].value == NewScanJob(key)
  {
    var m := DeliveredTwice(key, ttl);
    ReachableNext(m, TakeLease(0, true));
    s := Next(m, TakeLease(0, true));
  }

  /** The reply to a script of agent 0 has come back. */
  lemma Proceeds(s: System, key: ScanJobKey, ttl: int, sent: Request, report: Option<ScanReport>) returns (s': System)
    requires Working(s, key, ttl) && (sent.SetStatus? || sent.PutReport?)
    requires s.agents[0].phase.Waiting? && s.agents[0].sent == Some(sent) && s.agents[0].answer == Some(1)
    requires s.agents[0].report == report
    ensures Working(s', key, ttl) && s'.db == s.db
    ensures At0(s', if sent.SetStatus? then AfterUpdate(sent.goal) else Updating(Finish), report)
  {
    ReachableNext(s, Proceed(0));
    s' := Next(s, Proceed(0));
  }

  /** One status update of agent 0. */
  lemma Updates(s: System, key: ScanJobKey, ttl: int, goal: Goal, report: Option<ScanReport>) returns (s': System)
    requires Working(s, key, ttl) && At0(s, Updating(goal), report)
    ensures Working(s', key, ttl) && At0(s', AfterUpdate(goal), report)
    ensures s'.db.jobs[key].value == Updated(s.db.jobs[key].value, goal, 0)
    ensures ReportAt(s'.db, key) == ReportAt(s.db, key)
  {
    ReachableNext(s, ReadStatus(0, 0));
    var m := Next(s, ReadStatus(0, 0));
    assert m.db == s.db && m.agents[0].sent == Some(SetStatus(goal, s.db.jobs[key].value, 0, false));
    ReachableNext(m, Execute(0, false));
    var n := Next(m, Execute(0, false));
    assert n.agents[0].answer == Some(1) && n.agents[0].phase.Waiting?;
    s' := Proceeds(n, key, ttl, n.agents[0].sent.value, report);
  }

  lemma Scans(s: System, key: ScanJobKey, ttl: int, report: ScanReport) returns (s': System)
    requires Working(s, key, ttl) && At0(s, Ready, None)
    ensures Working(s', key, ttl) && At0(s', Scanned, Some(report)) && s'.db == s.db
  {
    ReachableNext(s, Invoke(0));
    var m := Next(s, Invoke(0));
    ReachableNext(m, Return(0, Reported(report)));
    s' := Next(m, Return(0, Reported(report)));
  }

  lemma Reports(s: System, key: ScanJobKey, ttl: int, report: ScanReport) returns (s': System)
    requires Working(s, key, ttl) && At0(s, Scanned, Some(report))
    ensures Working(s', key, ttl) && At0(s', Updating(Finish), Some(report))
    ensures s'.db.jobs[key].value == s.db.jobs[key].value && ReportAt(s'.db, key) == Some(report)
  {
    ReachableNext(s, SendReport(0));
    var m := Next(s, SendReport(0));
    ReachableNext(m, Execute(0, false));
    var n := Next(m, Execute(0, false));
    assert n.agents[0].answer == Some(1) && n.agents[0].phase.Waiting?;
    s' := Proceeds(n, key, ttl, n.agents[0].sent.value, Some(report));
  }

  /** The job is finished, its delivery retired, and agent 1 still holds its old message. */
  ghost predicate Over(s: System, key: ScanJobKey, ttl: int, report: ScanReport) {
    && Reachable(s) && s.ttl == ttl
    && key in s.h.delivery && s.h.delivery[key] == 1 && 1 in s.h.retired
    && ttl > 0 && key in s.db.jobs && s.db.jobs[key].expiry == Some(s.db.now + ttl)
    && s.db.jobs[key].value.status.Finished?
    && ReportAt(s.db, key) == Some(report)
    && 1 in s.agents && s.agents[1] == NewAgent(0, 1, Delivery(key, "")) && 1 !in s.db.leases
  }

  lemma Retires(s: System, key: ScanJobKey, ttl: int, report: ScanReport) returns (s': System)
    requires ttl > 0
    requires Working(s, key, ttl) && At0(s, Retiring, Some(report))
    requires s.db.jobs[key].value.status.Finished? && ReportAt(s.db, key) == Some(report)
    ensures Over(s', key, ttl, report)
  {
    ReachableNext(s, CheckRetire(0));
    var m := Next(s, CheckRetire(0));
    assert m.db == s.db && m.agents[0].sent == Some(Retire);
    ReachableNext(m, Execute(0, false));
    s' := Next(m, Execute(0, false));
  }

  lemma ScansAtOnce(key: ScanJobKey, ttl: int, report: ScanReport) returns (s: System)
    ensures Working(s, key, ttl) && At0(s, Scanned, Some(report))
  {
    s := FirstComes(key, ttl);
    s := Fetches(s, key, ttl, NewScanJob(key));
    s := Updates(s, key, ttl, Begin, None);
    s := Scans(s, key, ttl, report);
  }

  lemma RunsToTheEnd(key: ScanJobKey, ttl: int, report: ScanReport) returns (s: System)
    requires ttl > 0
    ensures Over(s, key, ttl, report)
  {
    s := ScansAtOnce(key, ttl, report);
    s := Reports(s, key, ttl, report);
    s := Updates(s, key, ttl, Finish, Some(report));
    s := Retires(s, key, ttl, report);
  }

  lemma Fetches(s: System, key: ScanJobKey, ttl: int, job: ScanJob) returns (s': System)
    requires Working(s, key, ttl) && At0(s, Leased, None) && s.db.jobs[key].value == job
    ensures Working(s', key, ttl) && At0(s', Decision(job), None) && s'.db == s.db
  {
    ReachableNext(s, FetchJob(0));
    var m := Next(s, FetchJob(0));
    assert m.db == s.db && m.agents[0].phase == Fetched(job);
    ReachableNext(m, FetchReport(0));
    s' := Next(m, FetchReport(0));
  }

  // ----- What it shows -----

  /** For every job and report: a reader can be given Finished and no report, although one was stored. */
  lemma ReportCanBeMissed(key: ScanJobKey, ttl: int, report: ScanReport) returns (s: System, wait: Event)
    requires ttl > 0
    ensures Reachable(s) && Enabled(s, wait) && wait.TimePasses? && ReportAt(s.db, key) == Some(report)
    ensures var got := Get(s.db, Next(s, wait).db, key);
      got.Some? && got.value.status.Finished? && got.value.report == NO_REPORT
  {
    s := RunsToTheEnd(key, ttl, report);
    wait := ReaderComesTooLate(s, key);
  }

  /** Agent 1 takes the free lease, sees the job finished, and is about to acknowledge. */
  lemma SecondComes(s: System, key: ScanJobKey, ttl: int, report: ScanReport) returns (s': System)
    requires Over(s, key, ttl, report)
    ensures Reachable(s') && s'.ttl == ttl && s'.db == SetLease(s.db, 1, 1) && s'.h == s.h
    ensures Decoded(s', 1) && s'.agents[1].id == 1 && s'.agents[1].payload == Delivery(key, "")
    ensures s'.agents[1].sent == Some(Retire)
  {
    ReachableNext(s, TakeLease(1, true));
    var m := Next(s, TakeLease(1, true));
    assert m.agents[1].phase.Leased?;
    ReachableNext(m, FetchJob(1));
    var n := Next(m, FetchJob(1));
    assert n.agents[1].phase == Fetched(s.db.jobs[key].value);
    ReachableNext(n, FetchReport(1));
    var o := Next(n, FetchReport(1));
    assert o.agents[1].phase == Retiring && o.db == m.db;
    ReachableNext(o, CheckRetire(1));
    s' := Next(o, CheckRetire(1));
  }

  /** For every job and TTL above one millisecond: an acknowledgement by an agent with an old message moves
      the expiry of a record that was retired before. */
  lemma ExpiryCanMove(key: ScanJobKey, ttl: int) returns (s: System, e: Event)
    requires ttl > 1
    ensures Reachable(s) && Enabled(s, e)
    ensures key in s.h.delivery && s.h.delivery[key] in s.h.retired && key in s.db.jobs
    ensures MovesExpiry(s, e, key) && ExpiryMoved(s, Next(s, e), key)
  {
    var over := RunsToTheEnd(key, ttl, NO_REPORT);
    var m := SecondComes(over, key, ttl, NO_REPORT);
    ReachableNext(m, TimePasses(1));
    s := Next(m, TimePasses(1));
    assert s.agents == m.agents && key in s.db.jobs && Fenced(s.db, 1, 1);
    e := Execute(1, false);
    assert MovesExpiry(s, e, key);
    ReachableInv(s);
    ExpiryMovesExactly(s, e, key);
  }
}
