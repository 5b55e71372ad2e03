/**
 One worker processing one delivery, in the order of the source: `process`, `controller.Scan`, and the
 store operations, each round trip a script or command on the server. Beside the server it keeps the
 state of the state machine, and every round trip is proved to be one of its events, so a run of this
 code is a run of the machine.

 Nothing fails here and nobody else moves: this is the fault-free path, for any scan outcome.
 */
module StreamWorker {
  import opened Wrappers
  import opened ScanJobs
  import opened Redis
  import opened RedisServer
  import opened ScanQueue
  import opened ScanQueueInvariant
  import opened ScanQueueSteps
  import opened ScanQueueTheorems

  /** What happens to one attempt: the request is refused before the scan, or the scan has an outcome. */
  datatype Attempt = Refused(reason: string) | Ran(outcome: Outcome) {
    predicate Retried() { Ran? && outcome.Retry? }
  }

  /** What the record says after this attempt, which ended at `at`. */
  predicate Says(job: ScanJob, attempt: Attempt, at: nat) {
    match attempt
    case Refused(reason) => job.status == Failed && job.error == reason
    case Ran(Rejected(message)) => job.status == Failed && job.error == message
    case Ran(Retry) => job.status == Pending && job.error == ""
    case Ran(Reported(_)) => job.status == Finished && job.error == "" && job.finishedAt == Some(at)
  }

  /** The report stored after this attempt, given the one stored before it. */
  function ReportLeft(attempt: Attempt, stored: Option<ScanReport>): Option<ScanReport> {
    if attempt.Ran? && attempt.outcome.Reported? then Some(attempt.outcome.report) else stored
  }

  /** A run over this record starts an attempt; otherwise it only has to retire the delivery. */
  predicate Attempted(job: ScanJob) {
    job.status != Finished && job.status != Failed && job.attempts < 3
  }

  predicate SaysGivenUp(job: ScanJob) {
    job.status == Failed && job.error == "scan retry limit reached after interrupted or failed attempts"
  }

  /** What one run makes of a record and the report beside it. */
  predicate RunLeaves(job: ScanJob, report: Option<ScanReport>, attempt: Attempt, at: nat,
                      job': ScanJob, report': Option<ScanReport>) {
    && job'.key == job.key
    && if Attempted(job) then
         Says(job', attempt, at) && job'.attempts == job.attempts + 1 && report' == ReportLeft(attempt, report)
       else
         && report' == report
         && (if job.status == Finished || job.status == Failed then job' == job
             else SaysGivenUp(job') && job'.attempts == job.attempts)
  }

  /** Agent `t` holds the lease of its delivery, and the job has its record. */
  ghost predicate Owns(s: System, t: Token, key: ScanJobKey, id: EntryId) {
    && CanWrite(s, t, key) && s.agents[t].id == id
    && key in s.db.jobs
  }

  /** The entry is out of the stream and the pending list, with a copy in quarantine if it was in the stream;
      records, reports and other entries are as they were. */
  ghost predicate SetAside(db: Database, db': Database, id: EntryId, reason: string, message: Payload) {
    && db'.stream == db.stream - {id}
    && db'.quarantine == (if id in db.stream then db.quarantine[id := Quarantined(reason, message)] else db.quarantine)
    && (id in db.stream && db.group.Some? ==>
          db'.group.Some? && db'.group.value.pending == db.group.value.pending - {id})
    && db'.jobs == db.jobs && db'.reports == db.reports
  }

  /** Why a store write is refused. */
  datatype StoreError = MissingJob | OwnershipLost | NotTerminal

  /** Agent `t` works on the message of this delivery. */
  ghost predicate HoldsMessage(s: System, t: Token, key: ScanJobKey, id: EntryId) {
    Decoded(s, t) && s.agents[t].payload.key == key && s.agents[t].id == id
  }

  /** Agent `t` is on the way out, and nothing else has happened. */
  ghost predicate GaveUp(s: System, s': System, t: Token) {
    && s'.db == s.db && s'.h == s.h && s'.ttl == s.ttl
    && s'.agents.Keys == s.agents.Keys
    && t in s.agents && t in s'.agents && s'.agents[t].phase.Closing?
    && s'.agents[t].id == s.agents[t].id && s'.agents[t].payload == s.agents[t].payload
  }

  /** The delivery of this job is in the stream, and the job has its record. */
  ghost predicate QueuedDelivery(db: Database, key: ScanJobKey, id: EntryId) {
    id in db.stream && db.stream[id].Delivery? && db.stream[id].key == key && key in db.jobs
  }

  ghost predicate PendingDelivery(db: Database, key: ScanJobKey, id: EntryId) {
    QueuedDelivery(db, key, id) && db.group.Some? && id in db.group.value.pending
  }

  /** Only records, reports and agent `t` have changed. */
  ghost predicate OnlyRecords(s: System, s': System) {
    && s'.db.stream == s.db.stream && s'.db.group == s.db.group && s'.db.leases == s.db.leases
    && s'.db.jobs.Keys == s.db.jobs.Keys && s'.agents.Keys == s.agents.Keys && s'.ttl == s.ttl
  }

  lemma StoredUnderItsKey(s: System, key: ScanJobKey)
    requires Reachable(s) && key in s.db.jobs
    ensures s.db.jobs[key].value.key == key
  {
    ReachableInv(s);
    assert RecordOk(s.db, s.h, s.ttl, key);
  }

  /** The delivery and its lease are gone, and record and report are as before. */
  ghost predicate RetiredNow(s: System, s': System, key: ScanJobKey, id: EntryId) {
    && id !in s'.db.stream && (id in s.db.stream ==> id in s'.h.retired)
    && id !in s'.db.leases
    && key in s.db.jobs && key in s'.db.jobs && s'.db.jobs[key].value == s.db.jobs[key].value
    && ReportAt(s'.db, key) == ReportAt(s.db, key)
  }

  // ----- What the scripts of one agent leave -----

  /** A script was refused: only the agent has moved. */
  ghost predicate RefusedScript(s: System, s': System, t: Token) {
    && s'.db == s.db && s'.h == s.h && s'.ttl == s.ttl && s'.agents.Keys == s.agents.Keys
    && t in s.agents && t in s'.agents && s'.agents[t].phase.Waiting?
    && s'.agents[t].id == s.agents[t].id && s'.agents[t].payload == s.agents[t].payload
  }

  lemma StatusReply(s: System, t: Token, key: ScanJobKey, id: EntryId, goal: Goal, at: nat)
    requires HoldsMessage(s, t, key, id) && s.agents[t].phase == Updating(goal)
    requires key in s.db.jobs && s.db.jobs[key].value.key == key
    ensures var s' := DoSetStatus(DoReadStatus(s, t, at), t);
      if !Fenced(s.db, id, t) then
        RefusedScript(s, s', t)
      else
        && Owns(s', t, key, id) && OnlyRecords(s, s')
        && s'.agents[t].phase.Waiting? && s'.agents[t].answer == Some(1)
        && s'.agents[t].sent.Some? && s'.agents[t].sent.value.SetStatus? && s'.agents[t].sent.value.goal == goal
        && s'.db.jobs[key].value == Updated(s.db.jobs[key].value, goal, at)
        && ReportAt(s'.db, key) == ReportAt(s.db, key)
  {
  }

  lemma ReportReply(s: System, t: Token, key: ScanJobKey, id: EntryId, report: ScanReport)
    requires HoldsMessage(s, t, key, id) && s.agents[t].report == Some(report)
    ensures var s' := DoPutReport(DoSendReport(s, t), t);
      if !Fenced(s.db, id, t) || key !in s.db.jobs then
        RefusedScript(s, s', t)
      else
        && Owns(s', t, key, id) && OnlyRecords(s, s')
        && s'.agents[t].phase.Waiting? && s'.agents[t].answer == Some(1)
        && s'.agents[t].sent.Some? && s'.agents[t].sent.value.PutReport?
        && s'.db.jobs[key].value == s.db.jobs[key].value
        && ReportAt(s'.db, key) == Some(report)
  {
  }

  lemma RetireReply(s: System, t: Token, key: ScanJobKey, id: EntryId)
    requires HoldsMessage(s, t, key, id)
    requires key in s.db.jobs && s.db.jobs[key].value.status.Terminal()
    ensures var s' := DoRetire(DoCheckRetire(s, t), t);
      if !Fenced(s.db, id, t) then
        RefusedScript(s, s', t)
      else
        && HoldsMessage(s', t, key, id) && RetiredNow(s, s', key, id)
        && s'.agents[t].phase.Waiting? && s'.agents[t].answer == Some(1) && s'.agents[t].sent == Some(Retire)
  {
  }

  class Worker {
    const server: Server
    const consumer: Consumer
    const ttl: int
    var nextToken: Token
    ghost var sys: System

    ghost predicate Valid()
      reads this, server
    {
      && sys.db == server.db && sys.ttl == ttl
      && server.Valid()
      && Reachable(sys)
      && forall t :: t in sys.agents ==> t < nextToken
    }

    constructor (server: Server, consumer: Consumer, ttl: int, ghost sys: System, nextToken: Token)
      requires sys.db == server.db && sys.ttl == ttl && Reachable(sys)
      requires server.Valid() && forall t :: t in sys.agents ==> t < nextToken
      ensures Valid() && this.server == server && this.sys == sys && this.ttl == ttl
    {
      this.server, this.consumer, this.ttl, this.sys, this.nextToken := server, consumer, ttl, sys, nextToken;
    }

    /** The machine takes the step the code has just taken. */
    ghost method Took(e: Event)
      requires Reachable(sys) && Enabled(sys, e)
      requires Next(sys, e).db == server.db && server.Valid()
      requires sys.ttl == ttl && forall t :: t in Next(sys, e).agents ==> t < nextToken
      modifies `sys
      ensures sys == Next(old(sys), e) && Valid()
    {
      ReachableNext(sys, e);
      StepConserves(sys, e);
      sys := Next(sys, e);
    }

    // ----- Round trips -----

    method SetNX(t: Token, id: EntryId) returns (owned: bool)
      requires Valid() && Decoded(sys, t) && sys.agents[t].phase.Received? && sys.agents[t].id == id
      modifies this`sys, server
      ensures Valid() && sys == Next(old(sys), TakeLease(t, true))
      ensures owned == (id !in old(sys).db.leases)
    {
      owned := id !in server.db.leases;
      server.db := SetLease(server.db, id, t);
      Took(TakeLease(t, true));
    }

    method GetJob(t: Token, key: ScanJobKey) returns (state: Option<ScanJob>)
      requires Valid() && Decoded(sys, t) && sys.agents[t].phase.Leased? && sys.agents[t].payload.key == key
      modifies this`sys
      ensures Valid() && sys == Next(old(sys), FetchJob(t))
      ensures state == JobAt(old(sys).db, key)
    {
      state := JobAt(server.db, key);
      Took(FetchJob(t));
    }

    method GetReport(t: Token)
      requires Valid() && Decoded(sys, t) && sys.agents[t].phase.Fetched?
      modifies this`sys
      ensures Valid() && sys == Next(old(sys), FetchReport(t))
    {
      Took(FetchReport(t));
    }

    method ReleaseOwn(t: Token, id: EntryId)
      requires Valid() && t in sys.agents && sys.agents[t].phase.Closing? && sys.agents[t].id == id
      modifies this`sys, server
      ensures Valid() && sys == Next(old(sys), Release(t))
    {
      server.RunReleaseLease(id, t);
      Took(Release(t));
    }

    /** The script the agent has sent is executed. */
    ghost method Executed(t: Token)
      requires Reachable(sys) && Decoded(sys, t) && sys.agents[t].sent.Some? && !sys.agents[t].sent.value.Isolate?
      requires DoExecute(sys, t, false).db == server.db && server.Valid()
      requires sys.ttl == ttl && forall u :: u in sys.agents ==> u < nextToken
      modifies `sys
      ensures sys == DoExecute(old(sys), t, false) && Valid()
    {
      Took(Execute(t, false));
    }

    /** Its reply has come back as a success. */
    ghost method Confirm(t: Token)
      requires Valid() && t in sys.agents && sys.agents[t].phase.Waiting? && Confirmed(sys.agents[t])
      modifies `sys
      ensures sys == DoProceed(old(sys), t) && Valid()
    {
      Took(Proceed(t));
    }

    // ----- Store -----

    /** A round trip was refused: the caller gives up. */
    ghost method GiveUpOn(t: Token)
      requires Valid() && Decoded(sys, t) && !sys.agents[t].phase.Received? && !sys.agents[t].phase.Done?
      modifies `sys
      ensures Valid() && GaveUp(old(sys), sys, t)
    {
      Took(Abort(t));
    }

    /** The first round trip of a status update. */
    method ReadRecord(t: Token, key: ScanJobKey, at: nat) returns (state: Option<ScanJob>)
      requires Valid() && Decoded(sys, t) && sys.agents[t].payload.key == key && sys.agents[t].phase.Updating?
      modifies this`sys
      ensures Valid() && sys == DoReadStatus(old(sys), t, at)
      ensures state == JobAt(old(sys).db, key)
    {
      state := JobAt(server.db, key);
      Took(ReadStatus(t, at));
    }

    /** The second one, with the record it sends. */
    method WriteRecord(t: Token, key: ScanJobKey, id: EntryId, job: ScanJob, request: Request) returns (reply: int)
      requires Valid() && HoldsMessage(sys, t, key, id) && sys.agents[t].sent == Some(request) && request.SetStatus?
      requires job == Updated(request.read, request.goal, request.at) && job.key == key
      modifies this`sys, server
      ensures Valid() && sys == DoSetStatus(old(sys), t)
      ensures reply == UpdateJob(old(sys).db, key, id, job, t).1
    {
      reply := server.RunUpdateJob(job.key, id, job, t);
      Executed(t);
    }

    /** Reads the record, changes it as the goal asks, and writes it back under the lease. Without the record
        or the lease nothing is written. */
    method UpdateStatus(t: Token, key: ScanJobKey, id: EntryId, goal: Goal, at: nat) returns (error: Option<StoreError>)
      requires Valid() && HoldsMessage(sys, t, key, id) && sys.agents[t].phase == Updating(goal)
      modifies this`sys, server
      ensures Valid() && HoldsMessage(sys, t, key, id)
      ensures error == if key !in old(sys).db.jobs then Some(MissingJob)
        else if !Fenced(old(sys).db, id, t) then Some(OwnershipLost) else None
      ensures error.Some? ==> GaveUp(old(sys), sys, t)
      ensures error.None? ==>
        && Owns(sys, t, key, id) && OnlyRecords(old(sys), sys)
        && sys.agents[t].phase == AfterUpdate(goal)
        && sys.db.jobs[key].value == Updated(old(sys).db.jobs[key].value, goal, at)
        && ReportAt(sys.db, key) == ReportAt(old(sys).db, key)
    {
      ghost var before := sys;
      var state := ReadRecord(t, key, at);
      if state.None? {
        return Some(MissingJob);
      }
      StoredUnderItsKey(before, key);
      var reply := WriteRecord(t, key, id, Updated(state.value, goal, at), SetStatus(goal, state.value, at, false));
      StatusReply(before, t, key, id, goal, at);
      if reply != 1 {
        GiveUpOn(t);
        return Some(if reply == 0 then MissingJob else OwnershipLost);
      }
      Confirm(t);
      return None;
    }

    /** The script of a report update. */
    method WriteReport(t: Token, key: ScanJobKey, id: EntryId, report: ScanReport) returns (reply: int)
      requires Valid() && HoldsMessage(sys, t, key, id)
      requires sys.agents[t].phase.Scanned? && sys.agents[t].report == Some(report)
      modifies this`sys, server
      ensures Valid() && sys == DoPutReport(DoSendReport(old(sys), t), t)
      ensures reply == Redis.UpdateReport(old(sys).db, key, id, report, t).1
    {
      ghost var before := sys;
      Took(SendReport(t));
      assert sys == DoSendReport(before, t);
      reply := server.RunUpdateReport(key, id, report, t);
      Executed(t);
    }

    /** Stores what was scanned beside the record, under the lease. */
    method UpdateReport(t: Token, key: ScanJobKey, id: EntryId, report: ScanReport) returns (error: Option<StoreError>)
      requires Valid() && HoldsMessage(sys, t, key, id)
      requires sys.agents[t].phase.Scanned? && sys.agents[t].report == Some(report)
      modifies this`sys, server
      ensures Valid() && HoldsMessage(sys, t, key, id)
      ensures error == if !Fenced(old(sys).db, id, t) then Some(OwnershipLost)
        else if key !in old(sys).db.jobs then Some(MissingJob) else None
      ensures error.Some? ==> GaveUp(old(sys), sys, t)
      ensures error.None? ==>
        && Owns(sys, t, key, id) && OnlyRecords(old(sys), sys)
        && sys.agents[t].phase == Updating(Finish)
        && sys.db.jobs[key].value == old(sys).db.jobs[key].value
        && ReportAt(sys.db, key) == Some(report)
    {
      ghost var before := sys;
      var reply := WriteReport(t, key, id, report);
      ReportReply(before, t, key, id, report);
      if reply != 1 {
        GiveUpOn(t);
        return Some(if reply == 0 then MissingJob else OwnershipLost);
      }
      Confirm(t);
      return None;
    }

    /** The script of an acknowledgement, after the check that the record is terminal. */
    method WriteRetirement(t: Token, key: ScanJobKey, id: EntryId) returns (reply: int)
      requires Valid() && HoldsMessage(sys, t, key, id) && sys.agents[t].sent == Some(Retire)
      modifies this`sys, server
      ensures Valid() && sys == DoRetire(old(sys), t)
      ensures reply == Acknowledge(old(sys).db, key, id, t, ttl).1
    {
      reply := server.RunAcknowledge(key, id, t, ttl);
      Executed(t);
    }

    /** Removes the delivery and its lease for good; the record must be terminal and stays. */
    method AcknowledgeDelivery(t: Token, key: ScanJobKey, id: EntryId) returns (error: Option<StoreError>)
      requires Valid() && HoldsMessage(sys, t, key, id) && sys.agents[t].phase.Retiring?
      modifies this`sys, server
      ensures Valid() && HoldsMessage(sys, t, key, id) && sys.agents[t].phase.Closing?
      ensures error == if key !in old(sys).db.jobs || !old(sys).db.jobs[key].value.status.Terminal() then Some(NotTerminal)
        else if !Fenced(old(sys).db, id, t) then Some(OwnershipLost) else None
      ensures error.Some? ==> GaveUp(old(sys), sys, t)
      ensures error.None? ==> RetiredNow(old(sys), sys, key, id)
    {
      ghost var before := sys;
      var state := JobAt(server.db, key);
      Took(CheckRetire(t));
      assert sys == DoCheckRetire(before, t);
      if state.None? || !state.value.status.Terminal() {
        return Some(NotTerminal);
      }
      var reply := WriteRetirement(t, key, id);
      RetireReply(before, t, key, id);
      if reply != 1 {
        GiveUpOn(t);
        return Some(OwnershipLost);
      }
      Confirm(t);
      return None;
    }

    // ----- Controller -----

    /** The call of the Trivy wrapper, after the request was accepted. */
    method CallWrapper(t: Token, key: ScanJobKey, id: EntryId, outcome: Outcome)
      requires Valid() && Owns(sys, t, key, id) && sys.agents[t].phase.Ready?
      modifies this`sys
      ensures Valid() && Owns(sys, t, key, id) && OnlyRecords(old(sys), sys) && sys.db == old(sys).db
      ensures match outcome
        case Retry => sys.agents[t].phase.Closing?
        case Rejected(message) => sys.agents[t].phase == Updating(Fail(message))
        case Reported(report) => sys.agents[t].phase.Scanned? && sys.agents[t].report == Some(report)
    {
      ghost var before := sys;
      Took(Invoke(t));
      assert sys == DoInvoke(before, t);
      before := sys;
      Took(Return(t, outcome));
      assert sys == DoReturn(before, t, outcome);
    }

    method Refuse(t: Token, key: ScanJobKey, id: EntryId, reason: string)
      requires Valid() && Owns(sys, t, key, id) && sys.agents[t].phase.Ready?
      modifies this`sys
      ensures Valid() && Owns(sys, t, key, id) && OnlyRecords(old(sys), sys) && sys.db == old(sys).db
      ensures sys.agents[t].phase == Updating(Fail(reason))
    {
      Took(Reject(t, reason));
    }

    /** Pending, then the scan, then the report and Finished, or Failed; an outcome worth retrying is an error. */
    method Scan(t: Token, key: ScanJobKey, id: EntryId, attempt: Attempt, at: nat) returns (ok: bool)
      requires Valid() && Owns(sys, t, key, id) && sys.agents[t].phase == Updating(Begin)
      modifies this`sys, server
      ensures Valid() && Owns(sys, t, key, id) && OnlyRecords(old(sys), sys)
      ensures ok == !attempt.Retried()
      ensures sys.agents[t].phase == if ok then Retiring else Closing
      ensures Says(sys.db.jobs[key].value, attempt, at) && sys.db.jobs[key].value.key == old(sys).db.jobs[key].value.key
      ensures sys.db.jobs[key].value.attempts == old(sys).db.jobs[key].value.attempts + 1
      ensures ReportAt(sys.db, key) == ReportLeft(attempt, ReportAt(old(sys).db, key))
    {
      var _ := UpdateStatus(t, key, id, Begin, at);
      if attempt.Refused? {
        Refuse(t, key, id, attempt.reason);
        var _ := UpdateStatus(t, key, id, Fail(attempt.reason), at);
        return true;
      }
      CallWrapper(t, key, id, attempt.outcome);
      ok := Conclude(t, key, id, attempt.outcome, at);
    }

    /** What comes of the call: a report is stored and then Finished, a terminal error is stored as Failed. */
    method Conclude(t: Token, key: ScanJobKey, id: EntryId, outcome: Outcome, at: nat) returns (ok: bool)
      requires Valid() && Owns(sys, t, key, id) && sys.db.jobs[key].value.status.Pending? && sys.db.jobs[key].value.error == ""
      requires match outcome
        case Retry => sys.agents[t].phase.Closing?
        case Rejected(message) => sys.agents[t].phase == Updating(Fail(message))
        case Reported(report) => sys.agents[t].phase.Scanned? && sys.agents[t].report == Some(report)
      modifies this`sys, server
      ensures Valid() && Owns(sys, t, key, id) && OnlyRecords(old(sys), sys)
      ensures ok == !outcome.Retry? && sys.agents[t].phase == if ok then Retiring else Closing
      ensures Says(sys.db.jobs[key].value, Ran(outcome), at) && sys.db.jobs[key].value.key == old(sys).db.jobs[key].value.key
      ensures sys.db.jobs[key].value.attempts == old(sys).db.jobs[key].value.attempts
      ensures ReportAt(sys.db, key) == ReportLeft(Ran(outcome), ReportAt(old(sys).db, key))
    {
      match outcome {
        case Retry =>
          return false;
        case Rejected(message) =>
          var _ := UpdateStatus(t, key, id, Fail(message), at);
          return true;
        case Reported(report) =>
          var _ := UpdateReport(t, key, id, report);
          var _ := UpdateStatus(t, key, id, Finish, at);
          return true;
      }
    }

    // ----- Worker -----

    /** Reads the record under the lease, and after it the report, which only matters if it fails. */
    method Get(t: Token, key: ScanJobKey, id: EntryId) returns (state: Option<ScanJob>)
      requires Valid() && CanWrite(sys, t, key) && sys.agents[t].id == id && sys.agents[t].phase.Leased?
      modifies this`sys
      ensures Valid() && sys.db == old(sys).db && sys.h == old(sys).h
      ensures CanWrite(sys, t, key) && sys.agents[t].id == id
      ensures sys.agents[t].payload == old(sys).agents[t].payload
      ensures state == JobAt(sys.db, key)
      ensures match state
        case Some(job) => sys.agents[t].phase == Decision(job)
        case None =>
          && sys.agents[t].phase.Waiting?
          && sys.agents[t].sent == Some(Isolate("job metadata missing for " + key.id))
    {
      ghost var before := sys;
      state := GetJob(t, key);
      assert sys == DoFetchJob(before, t);
      if state.Some? {
        GetReport(t);
      }
    }

    /** Copies a delivery that cannot be executed to quarantine and takes it out of the stream. */
    method QuarantineDelivery(t: Token, id: EntryId, reason: string, payload: Payload)
      requires Valid() && t in sys.agents && sys.agents[t].id == id && sys.agents[t].payload == payload
      requires sys.agents[t].phase.Waiting? && sys.agents[t].sent == Some(Isolate(reason))
      modifies this`sys, server
      ensures Valid() && SetAside(old(sys).db, sys.db, id, reason, payload) && sys.db.leases == old(sys).db.leases
      ensures t in sys.agents && sys.agents[t].id == id && (payload.Delivery? ==> sys.agents[t].phase.Closing?)
    {
      var reply := server.RunQuarantine(id, Quarantined(reason, payload), false);
      Took(Execute(t, false));
      Confirm(t);
    }

    method Close(t: Token, id: EntryId)
      requires Valid() && t in sys.agents && sys.agents[t].phase.Closing? && sys.agents[t].id == id
      modifies this`sys, server
      ensures Valid() && sys.db == ReleaseLease(old(sys).db, id, t) && sys.h == old(sys).h
    {
      ReleaseOwn(t, id);
    }

    /** The rest of a run that found a record: it retires the delivery with a terminal record, or it uses
        up one attempt and leaves the delivery as it was. */
    method ProcessRecord(t: Token, key: ScanJobKey, id: EntryId, state: ScanJob, attempt: Attempt, at: nat)
      requires Valid() && Owns(sys, t, key, id) && sys.agents[t].phase == Decision(state)
      requires state == sys.db.jobs[key].value
      modifies this`sys, server
      ensures Valid() && key in sys.db.jobs && t in sys.agents
      ensures sys.agents[t].phase.Closing? && sys.agents[t].id == id
      ensures RunLeaves(state, ReportAt(old(sys).db, key), attempt, at, sys.db.jobs[key].value, ReportAt(sys.db, key))
      ensures if Attempted(state) && attempt.Retried() then
          sys.db.stream == old(sys).db.stream && sys.db.group == old(sys).db.group && Fenced(sys.db, id, t)
        else
          id !in sys.db.stream && (id in old(sys).db.stream ==> id in sys.h.retired) && id !in sys.db.leases
    {
      if !state.status.Terminal() {
        if state.attempts >= MAX_ATTEMPTS {
          var _ := UpdateStatus(t, key, id, GiveUp, at);
        } else {
          var ok := Scan(t, key, id, attempt, at);
          if !ok {
            return;
          }
        }
      }
      var _ := AcknowledgeDelivery(t, key, id);
    }

    /** One run over any message, fresh or stale. A payload that cannot be decoded and a job without a
        record are quarantined, a delivery whose lease is taken is left alone, and otherwise the record
        decides: retired with a terminal record, or one more attempt used up, delivery and free lease left. */
    method Process(t: Token, id: EntryId, message: Payload, attempt: Attempt, at: nat)
      requires Valid() && t in sys.agents && sys.agents[t].phase.Received?
      requires sys.agents[t].id == id && sys.agents[t].payload == message
      modifies this`sys, server
      ensures Valid()
      ensures message.Undecodable? ==>
        SetAside(old(sys).db, sys.db, id, "undecodable payload", message) && sys.db.leases == old(sys).db.leases
      ensures message.Delivery? && id in old(sys).db.leases ==> sys.db == old(sys).db
      ensures message.Delivery? && id !in old(sys).db.leases && message.key !in old(sys).db.jobs ==>
        SetAside(old(sys).db, sys.db, id, "job metadata missing for " + message.key.id, message) && id !in sys.db.leases
      ensures message.Delivery? && id !in old(sys).db.leases && message.key in old(sys).db.jobs ==>
        && message.key in sys.db.jobs
        && RunLeaves(old(sys).db.jobs[message.key].value, ReportAt(old(sys).db, message.key), attempt, at,
                     sys.db.jobs[message.key].value, ReportAt(sys.db, message.key))
        && id !in sys.db.leases
        && if Attempted(old(sys).db.jobs[message.key].value) && attempt.Retried() then
             sys.db.stream == old(sys).db.stream && sys.db.group == old(sys).db.group
           else
             id !in sys.db.stream && (id in old(sys).db.stream ==> id in sys.h.retired)
    {
      if message.Undecodable? {
        Took(SendIsolate(t));
        QuarantineDelivery(t, id, "undecodable payload", message);
        return;
      }
      ghost var before := sys;
      var owned := SetNX(t, id);
      assert sys == DoTakeLease(before, t, true);
      if !owned {
        return;
      }
      var state := Get(t, message.key, id);
      if state.None? {
        QuarantineDelivery(t, id, "job metadata missing for " + message.key.id, message);
      } else {
        ProcessRecord(t, message.key, id, state.value, attempt, at);
      }
      Close(t, id);
    }

    /** Waits until the delivery may be reclaimed, which also outlasts every lease on it, and takes it over. */
    method Reclaimed(key: ScanJobKey, id: EntryId) returns (t: Token)
      requires Valid() && PendingDelivery(sys.db, key, id)
      modifies this, server
      ensures Valid() && Decoded(sys, t) && sys.agents[t].phase.Received?
      ensures sys.agents[t].id == id && sys.agents[t].payload == old(sys).db.stream[id]
      ensures sys.db.stream == old(sys).db.stream && id !in sys.db.leases
      ensures sys.db.group.Some? && id in sys.db.group.value.pending
      ensures key in sys.db.jobs && sys.db.jobs[key] == old(sys).db.jobs[key]
      ensures ReportAt(sys.db, key) == ReportAt(old(sys).db, key)
    {
      WaitFreesTheDelivery(sys, key, id);
      server.db := Tick(server.db, LEASE_MILLIS);
      Took(TimePasses(LEASE_MILLIS));
      t := nextToken;
      nextToken := nextToken + 1;
      server.db := AutoClaim(server.db, id, consumer);
      Took(Reclaim(t, consumer, id));
    }

    /** The loop before it gets to this delivery: it creates the group if it is lost, and reads on until the
        delivery is pending. The messages of other deliveries it reads on the way are left for later. */
    method ReadUpTo(key: ScanJobKey, id: EntryId)
      requires Valid() && QueuedDelivery(sys.db, key, id)
      modifies this, server
      ensures Valid() && PendingDelivery(sys.db, key, id)
      ensures sys.db.jobs == old(sys).db.jobs && sys.db.reports == old(sys).db.reports
    {
      if server.db.group.None? {
        server.db := CreateGroup(server.db);
        Took(EnsureGroup);
      }
      while id !in server.db.group.value.pending
        invariant Valid() && QueuedDelivery(sys.db, key, id) && sys.db.group.Some?
        invariant sys.db.jobs == old(sys).db.jobs && sys.db.reports == old(sys).db.reports
        decreases if sys.db.group.Some? && sys.db.group.value.lastDelivered < id then id - sys.db.group.value.lastDelivered else 0
      {
        AheadOrPending(sys, id);
        var t := nextToken;
        nextToken := nextToken + 1;
        var first := server.XReadGroup(consumer, id);
        Took(Read(t, consumer, first));
      }
    }

    /** Waits for a pending delivery and runs `process` on it. */
    method ProcessAgain(key: ScanJobKey, id: EntryId, attempt: Attempt, at: nat)
      requires Valid() && PendingDelivery(sys.db, key, id)
      modifies this, server
      ensures Valid() && key in sys.db.jobs
      ensures RunLeaves(old(sys).db.jobs[key].value, ReportAt(old(sys).db, key), attempt, at,
                        sys.db.jobs[key].value, ReportAt(sys.db, key))
      ensures if Attempted(old(sys).db.jobs[key].value) && attempt.Retried() then PendingDelivery(sys.db, key, id)
        else id !in sys.db.stream && id in sys.h.retired
    {
      var t := Reclaimed(key, id);
      Process(t, id, server.db.stream[id], attempt, at);
    }

    method RetirePending(key: ScanJobKey, id: EntryId, attempts: nat -> Attempt, at: nat) returns (runs: nat)
      requires Valid() && PendingDelivery(sys.db, key, id)
      modifies this, server
      ensures Valid() && key in sys.db.jobs && runs > 0
      ensures id !in sys.db.stream && id in sys.h.retired
      ensures Retired(old(sys).db.jobs[key].value, ReportAt(old(sys).db, key), attempts, at, runs,
                      sys.db.jobs[key].value, ReportAt(sys.db, key))
    {
      runs := 0;
      ghost var first, stored := sys.db.jobs[key].value, ReportAt(sys.db, key);
      AttemptsBounded(sys, key);
      while id in server.db.stream
        invariant Valid() && key in sys.db.jobs
        invariant id in sys.db.stream ==>
          && PendingDelivery(sys.db, key, id)
          && Retrying(first, stored, attempts, at, runs, sys.db.jobs[key].value, ReportAt(sys.db, key))
        invariant id !in sys.db.stream ==>
          && id in sys.h.retired && runs > 0
          && Retired(first, stored, attempts, at, runs, sys.db.jobs[key].value, ReportAt(sys.db, key))
        decreases id in server.db.stream, MAX_ATTEMPTS - sys.db.jobs[key].value.attempts
      {
        ghost var job, report := sys.db.jobs[key].value, ReportAt(sys.db, key);
        ProcessAgain(key, id, attempts(runs), at);
        RunAfterRuns(first, stored, attempts, at, runs, job, report, sys.db.jobs[key].value, ReportAt(sys.db, key));
        runs := runs + 1;
      }
    }

    /** However its scans come out, a delivery is retired within 4 - Attempts runs, from any reachable state
        of the queue in which it is in the stream and its record exists. */
    method RetireDelivery(key: ScanJobKey, id: EntryId, attempts: nat -> Attempt, at: nat) returns (runs: nat)
      requires Valid() && QueuedDelivery(sys.db, key, id)
      modifies this, server
      ensures Valid()
      ensures 0 < runs <= 4 - old(sys).db.jobs[key].value.attempts
      ensures id !in sys.db.stream && id in sys.h.retired
      ensures key in sys.db.jobs && sys.db.jobs[key].value.status.Terminal()
      ensures Retired(old(sys).db.jobs[key].value, ReportAt(old(sys).db, key), attempts, at, runs,
                      sys.db.jobs[key].value, ReportAt(sys.db, key))
    {
      ReadUpTo(key, id);
      runs := RetirePending(key, id, attempts, at);
    }
  }

  // ----- Several runs over one delivery -----

  /** After `runs` runs whose attempts were all to be retried. */
  ghost predicate Retrying(first: ScanJob, stored: Option<ScanReport>, attempts: nat -> Attempt, at: nat, runs: nat,
                           job: ScanJob, report: Option<ScanReport>) {
    && (forall i :: 0 <= i < runs ==> attempts(i).Retried())
    && job.attempts == first.attempts + runs <= 3
    && report == stored
    && (job.status.Terminal() <==> first.status.Terminal())
    && (first.status.Terminal() ==> runs == 0 && job == first)
  }

  /** After `runs` runs, all but the last one with an outcome to be retried. The last one met the outcome of
      its own attempt and left its verdict and report, or gave up after the third attempt, or found a job
      that was terminal before and changed nothing. */
  ghost predicate Retired(first: ScanJob, stored: Option<ScanReport>, attempts: nat -> Attempt, at: nat, runs: nat,
                          job: ScanJob, report: Option<ScanReport>)
    requires runs > 0
  {
    && first.attempts + runs <= 4
    && (forall i :: 0 <= i < runs - 1 ==> attempts(i).Retried())
    && if first.status.Terminal() then
         job == first && report == stored && runs == 1
       else if first.attempts + runs <= 3 then
         && !attempts(runs - 1).Retried() && Says(job, attempts(runs - 1), at)
         && job.attempts == first.attempts + runs && report == ReportLeft(attempts(runs - 1), stored)
       else
         SaysGivenUp(job) && job.attempts == 3 && report == stored
  }

  lemma RunAfterRuns(first: ScanJob, stored: Option<ScanReport>, attempts: nat -> Attempt, at: nat, runs: nat,
                     job: ScanJob, report: Option<ScanReport>, job': ScanJob, report': Option<ScanReport>)
    requires Retrying(first, stored, attempts, at, runs, job, report)
    requires RunLeaves(job, report, attempts(runs), at, job', report')
    ensures if Attempted(job) && attempts(runs).Retried() then
        Retrying(first, stored, attempts, at, runs + 1, job', report')
      else
        Retired(first, stored, attempts, at, runs + 1, job', report')
  {
  }

  lemma AheadOrPending(s: System, id: EntryId)
    requires Reachable(s) && s.db.group.Some? && id in s.db.stream
    ensures id in s.db.group.value.pending || s.db.group.value.lastDelivered < id
  {
    ReachableInv(s);
  }

  lemma AttemptsBounded(s: System, key: ScanJobKey)
    requires Reachable(s) && key in s.db.jobs
    ensures s.db.jobs[key].value.attempts <= 3
  {
    ReachableInv(s);
    assert RecordOk(s.db, s.h, s.ttl, key);
  }

  /** After one lease period without a renewal a pending delivery is claimable, its lease is free, and its
      record is still there. */
  lemma WaitFreesTheDelivery(s: System, key: ScanJobKey, id: EntryId)
    requires Reachable(s) && PendingDelivery(s.db, key, id)
    ensures var db := Tick(s.db, LEASE_MILLIS);
      && Claimable(db, id) && id !in db.leases
      && key in db.jobs && db.jobs[key] == s.db.jobs[key]
      && ReportAt(db, key) == ReportAt(s.db, key)
  {
    ReachableInv(s);
    var states, events :| Run(states, events) && states[|events|] == s;
    RunTimely(states, events, |events|);
    assert s.h.delivery[key] == id;
    assert RecordOk(s.db, s.h, s.ttl, key);
  }
}
