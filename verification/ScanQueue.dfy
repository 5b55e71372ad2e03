/**
 The scan queue as a state machine: one Redis, any number of `process` invocations, API pods
 enqueueing, and an environment that lets time pass, drops replies, evicts keys and destroys the
 consumer group.

 An invocation of `process` is an agent, named by the lease token it draws, so that pods, crashes and
 restarts need no state of their own: an agent that never moves again has crashed. Every event is one
 Redis round trip or one local decision, and events of different agents interleave freely.
 */
module ScanQueue {
  import opened Wrappers
  import opened ScanJobs
  import opened Redis

  const MAX_ATTEMPTS: nat := 3

  const RETRY_LIMIT_MESSAGE := "scan retry limit reached after interrupted or failed attempts"

  /** Why a status is written: which caller of `UpdateStatus` is waiting. */
  datatype Goal = Begin | GiveUp | Finish | Fail(message: string)

  /** A script handed to Redis. `applied` records whether some execution of it has taken effect. */
  datatype Request =
    | SetStatus(goal: Goal, read: ScanJob, at: nat, applied: bool)
    | PutReport(report: ScanReport, applied: bool)
    | Retire
    | Isolate(reason: string)

  datatype Phase =
    | Received                 // holds the message, has not tried the lease
    | Leased                   // about to read the job record
    | Fetched(state: ScanJob)  // has read the job record, about to read the report
    | Updating(goal: Goal)     // inside UpdateStatus, about to read the record
    | Waiting                  // a script is with Redis
    | Ready                    // Pending is stored, the wrapper has not been called
    | Scanning                 // inside wrapper.Scan
    | Scanned                  // has a report that is not stored
    | Retiring                 // inside Acknowledge, about to read the record
    | Closing                  // on the way out, the lease may still be its own
    | Done

  datatype Agent = Agent(
    consumer: Consumer,
    id: EntryId,
    payload: Payload,
    phase: Phase,
    sent: Option<Request>,      // also after giving up on the reply
    answer: Option<int>,        // reply of the last execution
    began: bool,                // its Pending write has taken effect
    invoked: bool,              // it has called wrapper.Scan
    report: Option<ScanReport>) // what its scan produced

  /** What wrapper.Scan and the transformer came to. A panic is a rejection. */
  datatype Outcome = Reported(report: ScanReport) | Retry | Rejected(message: string)

  /** What has happened so far; no step ever reads it. */
  datatype History = History(
    added: map<EntryId, Payload>,          // entries an XADD left behind
    delivery: map<ScanJobKey, EntryId>,    // the entry each accepted job was queued with
    retired: set<EntryId>,                 // entries an acknowledgement removed
    began: map<ScanJobKey, set<Token>>,    // agents whose Pending write took effect
    scans: map<ScanJobKey, nat>,           // calls of wrapper.Scan
    scanners: map<ScanJobKey, set<Token>>, // agents that made them
    finisher: map<ScanJobKey, Token>,      // agent whose Finished write took effect
    lostJobs: set<ScanJobKey>,             // evicted job keys
    lostReports: set<ScanJobKey>)          // evicted report keys

  /** `ttl` is the configured retention, in the milliseconds `ttlMillis` hands to Redis. */
  datatype System = System(db: Database, agents: map<Token, Agent>, h: History, ttl: int)

  datatype Event =
    | TimePasses(d: nat)
    | EnqueueJob(key: ScanJobKey, request: string, fault: bool)
    | AddForeign(raw: string)
    | LoseGroup
    | EnsureGroup
    | CleanUp(self: Option<Consumer>, maxIdle: nat)
    | EvictJob(key: ScanJobKey)
    | EvictReport(key: ScanJobKey)
    | Read(t: Token, consumer: Consumer, id: EntryId)
    | Reclaim(t: Token, consumer: Consumer, id: EntryId)
    | TakeLease(t: Token, heard: bool)
    | SendIsolate(t: Token)
    | FetchJob(t: Token)
    | FetchReport(t: Token)
    | ReadStatus(t: Token, at: nat)
    | Execute(t: Token, fault: bool)
    | Proceed(t: Token)
    | Invoke(t: Token)
    | Return(t: Token, outcome: Outcome)
    | Reject(t: Token, message: string)
    | SendReport(t: Token)
    | CheckRetire(t: Token)
    | Renew(t: Token)
    | Release(t: Token)
    | Abort(t: Token)

  // ----- Pieces of steps -----

  function GoalStatus(goal: Goal): Status {
    match goal
    case Begin => Pending
    case Finish => Finished
    case GiveUp => Failed
    case Fail(_) => Failed
  }

  function GoalMessage(goal: Goal): Option<string> {
    match goal
    case GiveUp => Some(RETRY_LIMIT_MESSAGE)
    case Fail(message) => Some(message)
    case _ => None
  }

  function Updated(job: ScanJob, goal: Goal, at: nat): ScanJob {
    WithStatus(job, GoalStatus(goal), GoalMessage(goal), at)
  }

  /** Where the caller of `UpdateStatus` continues once the write is confirmed. */
  function AfterUpdate(goal: Goal): Phase {
    if goal.Begin? then Ready else Retiring
  }

  function NewAgent(consumer: Consumer, id: EntryId, payload: Payload): Agent {
    Agent(consumer, id, payload, Received, None, None, false, false, None)
  }

  function At(s: System, t: Token, a: Agent): System {
    s.(agents := s.agents[t := a])
  }

  /** The call failed, its reply was lost, or the context was cancelled. A message that never got a
      lease, or was never decoded, leaves none to release. */
  function GivenUp(a: Agent): Agent {
    a.(phase := if a.phase.Received? || a.phase.Done? || a.payload.Undecodable? then Done else Closing)
  }

  // ----- Enabled -----

  /** The agent holds a message it could decode; every phase but the first and the last implies it. */
  predicate Decoded(s: System, t: Token) {
    t in s.agents && s.agents[t].payload.Delivery?
  }

  ghost predicate Enabled(s: System, e: Event) {
    match e
    case TimePasses(_) => true
    // Request ids are fresh: a key is only offered again while its record is still there, by a retry.
    case EnqueueJob(key, _, _) => key in s.h.delivery ==> key in s.db.jobs
    case AddForeign(_) => true
    case LoseGroup => true
    case EnsureGroup => true
    case CleanUp(_, _) => true
    case EvictJob(key) => key in s.db.jobs
    case EvictReport(key) => key in s.db.reports
    case Read(t, _, id) => t !in s.agents && NextUndelivered(s.db, id)
    case Reclaim(t, _, id) => t !in s.agents && Claimable(s.db, id)
    case TakeLease(t, _) => Decoded(s, t) && s.agents[t].phase.Received?
    case SendIsolate(t) => t in s.agents && s.agents[t].phase.Received? && s.agents[t].payload.Undecodable?
    case FetchJob(t) => Decoded(s, t) && s.agents[t].phase.Leased?
    case FetchReport(t) => Decoded(s, t) && s.agents[t].phase.Fetched?
    case ReadStatus(t, _) => Decoded(s, t) && s.agents[t].phase.Updating?
    case Execute(t, _) => t in s.agents && s.agents[t].sent.Some? && (s.agents[t].sent.value.Isolate? || Decoded(s, t))
    case Proceed(t) => t in s.agents && s.agents[t].phase.Waiting? && Confirmed(s.agents[t])
    case Invoke(t) => Decoded(s, t) && s.agents[t].phase.Ready?
    case Return(t, _) => t in s.agents && s.agents[t].phase.Scanning?
    case Reject(t, _) => t in s.agents && (s.agents[t].phase.Ready? || s.agents[t].phase.Scanned?)
    case SendReport(t) => t in s.agents && s.agents[t].phase.Scanned? && s.agents[t].report.Some?
    case CheckRetire(t) => Decoded(s, t) && s.agents[t].phase.Retiring?
    case Renew(t) => t in s.agents && !s.agents[t].phase.Received?
    case Release(t) => t in s.agents && (s.agents[t].phase.Closing? || s.agents[t].phase.Done?)
    case Abort(t) => t in s.agents
  }

  /** A reply the caller takes for success: quarantine accepts "already gone". */
  predicate Confirmed(a: Agent) {
    && a.sent.Some?
    && (a.answer == Some(1) || (a.sent.value.Isolate? && a.answer == Some(0)))
  }

  // ----- Steps -----

  function DoEnqueue(s: System, key: ScanJobKey, request: string, fault: bool): System {
    var payload := Delivery(key, request);
    var (db, reply) := Enqueue(s.db, NewScanJob(key), payload, fault);
    if reply == Some(1) then
      s.(db := db,
         h := s.h.(added := s.h.added[db.lastId := payload],
                   delivery := s.h.delivery[key := db.lastId],
                   began := s.h.began[key := {}],
                   scans := s.h.scans[key := 0],
                   scanners := s.h.scanners[key := {}]))
    else
      s.(db := db)
  }

  function DoAddForeign(s: System, raw: string): System {
    var id := s.db.lastId + 1;
    s.(db := s.db.(lastId := id, stream := s.db.stream[id := Undecodable(raw)]),
       h := s.h.(added := s.h.added[id := Undecodable(raw)]))
  }

  function DoTakeLease(s: System, t: Token, heard: bool): System
    requires t in s.agents
  {
    var a := s.agents[t];
    var owned := a.id !in s.db.leases;
    At(s.(db := SetLease(s.db, a.id, t)), t, a.(phase := if owned && heard then Leased else Done))
  }

  function DoFetchJob(s: System, t: Token): System
    requires t in s.agents && s.agents[t].payload.Delivery?
  {
    var a := s.agents[t];
    match JobAt(s.db, a.payload.key)
    case None =>
      At(s, t, a.(phase := Waiting, sent := Some(Isolate("job metadata missing for " + a.payload.key.id)), answer := None))
    case Some(job) => At(s, t, a.(phase := Fetched(job)))
  }

  /** The choice `process` makes on the record it has read. */
  function Decision(job: ScanJob): Phase {
    if job.status.Terminal() then Retiring
    else if job.attempts >= MAX_ATTEMPTS then Updating(GiveUp)
    else Updating(Begin)
  }

  function DoReadStatus(s: System, t: Token, at: nat): System
    requires t in s.agents && s.agents[t].payload.Delivery? && s.agents[t].phase.Updating?
  {
    var a := s.agents[t];
    match JobAt(s.db, a.payload.key)
    case None => At(s, t, GivenUp(a))
    case Some(job) =>
      var request := SetStatus(a.phase.goal, job, at, false);
      At(s, t, a.(phase := Waiting, sent := Some(request), answer := None))
  }

  function DoSetStatus(s: System, t: Token): System
    requires t in s.agents && s.agents[t].payload.Delivery?
    requires s.agents[t].sent.Some? && s.agents[t].sent.value.SetStatus?
  {
    var a := s.agents[t];
    var key, request := a.payload.key, a.sent.value;
    var job := Updated(request.read, request.goal, request.at);
    var (db, reply) := UpdateJob(s.db, job.key, a.id, job, t);
    if reply == 1 then
      var begins := request.goal.Begin?;
      At(s.(db := db,
            h := s.h.(began := if begins && key in s.h.began then s.h.began[key := s.h.began[key] + {t}] else s.h.began,
                      finisher := if request.goal.Finish? then s.h.finisher[key := t] else s.h.finisher)),
         t, a.(sent := Some(SetStatus(request.goal, request.read, request.at, true)), answer := Some(1), began := a.began || begins))
    else
      At(s, t, a.(answer := Some(reply)))
  }

  function DoPutReport(s: System, t: Token): System
    requires t in s.agents && s.agents[t].payload.Delivery?
    requires s.agents[t].sent.Some? && s.agents[t].sent.value.PutReport?
  {
    var a := s.agents[t];
    var (db, reply) := UpdateReport(s.db, a.payload.key, a.id, a.sent.value.report, t);
    var sent := if reply == 1 then Some(PutReport(a.sent.value.report, true)) else a.sent;
    At(s.(db := db), t, a.(sent := sent, answer := Some(reply)))
  }

  function DoRetire(s: System, t: Token): System
    requires t in s.agents && s.agents[t].payload.Delivery?
  {
    var a := s.agents[t];
    var (db, reply) := Acknowledge(s.db, a.payload.key, a.id, t, s.ttl);
    var gone := reply == 1 && a.id in s.db.stream;
    At(s.(db := db, h := if gone then s.h.(retired := s.h.retired + {a.id}) else s.h), t, a.(answer := Some(reply)))
  }

  function DoIsolate(s: System, t: Token, fault: bool): System
    requires t in s.agents && s.agents[t].sent.Some? && s.agents[t].sent.value.Isolate?
  {
    var a := s.agents[t];
    var (db, reply) := QuarantineEntry(s.db, a.id, Quarantined(a.sent.value.reason, a.payload), fault);
    At(s.(db := db), t, a.(answer := reply))
  }

  function DoExecute(s: System, t: Token, fault: bool): System
    requires t in s.agents && s.agents[t].sent.Some?
    requires s.agents[t].sent.value.Isolate? || s.agents[t].payload.Delivery?
  {
    match s.agents[t].sent.value
    case SetStatus(_, _, _, _) => DoSetStatus(s, t)
    case PutReport(_, _) => DoPutReport(s, t)
    case Retire => DoRetire(s, t)
    case Isolate(_) => DoIsolate(s, t, fault)
  }

  function DoProceed(s: System, t: Token): System
    requires t in s.agents && s.agents[t].sent.Some?
  {
    var a := s.agents[t];
    var next := match a.sent.value
      case SetStatus(goal, _, _, _) => AfterUpdate(goal)
      case PutReport(_, _) => Updating(Finish)
      case Retire => Closing
      case Isolate(_) => if a.payload.Undecodable? then Done else Closing;
    At(s, t, a.(phase := next, sent := None, answer := None))
  }

  function DoInvoke(s: System, t: Token): System
    requires t in s.agents && s.agents[t].payload.Delivery?
  {
    var a := s.agents[t];
    var key := a.payload.key;
    var h := if key in s.h.scans && key in s.h.scanners
      then s.h.(scans := s.h.scans[key := s.h.scans[key] + 1], scanners := s.h.scanners[key := s.h.scanners[key] + {t}])
      else s.h;
    At(s.(h := h), t, a.(phase := Scanning, invoked := true))
  }

  function DoReturn(s: System, t: Token, outcome: Outcome): System
    requires t in s.agents
  {
    var a := s.agents[t];
    match outcome
    case Reported(report) => At(s, t, a.(phase := Scanned, report := Some(report)))
    case Retry => At(s, t, GivenUp(a))
    case Rejected(message) => At(s, t, a.(phase := Updating(Fail(message))))
  }

  function DoSendIsolate(s: System, t: Token): System
    requires t in s.agents
  {
    At(s, t, s.agents[t].(phase := Waiting, sent := Some(Isolate("undecodable payload"))))
  }

  function DoFetchReport(s: System, t: Token): System
    requires t in s.agents && s.agents[t].phase.Fetched?
  {
    At(s, t, s.agents[t].(phase := Decision(s.agents[t].phase.state)))
  }

  function DoReject(s: System, t: Token, message: string): System
    requires t in s.agents
  {
    At(s, t, s.agents[t].(phase := Updating(Fail(message))))
  }

  function DoSendReport(s: System, t: Token): System
    requires t in s.agents && s.agents[t].report.Some?
  {
    At(s, t, s.agents[t].(phase := Waiting, sent := Some(PutReport(s.agents[t].report.value, false)), answer := None))
  }

  function DoAbort(s: System, t: Token): System
    requires t in s.agents
  {
    At(s, t, GivenUp(s.agents[t]))
  }

  /** `Acknowledge` refuses a record that is missing or not terminal. */
  function DoCheckRetire(s: System, t: Token): System
    requires t in s.agents && s.agents[t].payload.Delivery?
  {
    var a := s.agents[t];
    var state := JobAt(s.db, a.payload.key);
    if state.Some? && state.value.status.Terminal() then
      At(s, t, a.(phase := Waiting, sent := Some(Retire), answer := None))
    else
      At(s, t, GivenUp(a))
  }

  ghost function Next(s: System, e: Event): System
    requires Enabled(s, e)
  {
    match e
    case TimePasses(d) => s.(db := Tick(s.db, d))
    case EnqueueJob(key, request, fault) => DoEnqueue(s, key, request, fault)
    case AddForeign(raw) => DoAddForeign(s, raw)
    case LoseGroup => s.(db := s.db.(group := None))
    case EnsureGroup => s.(db := CreateGroup(s.db))
    case CleanUp(self, maxIdle) => s.(db := CleanConsumers(s.db, self, maxIdle))
    case EvictJob(key) => s.(db := s.db.(jobs := s.db.jobs - {key}), h := s.h.(lostJobs := s.h.lostJobs + {key}))
    case EvictReport(key) => s.(db := s.db.(reports := s.db.reports - {key}), h := s.h.(lostReports := s.h.lostReports + {key}))
    case Read(t, consumer, id) =>
      At(s.(db := ReadGroup(s.db, id, consumer)), t, NewAgent(consumer, id, s.db.stream[id]))
    case Reclaim(t, consumer, id) =>
      At(s.(db := AutoClaim(s.db, id, consumer)), t, NewAgent(consumer, id, s.db.stream[id]))
    case TakeLease(t, heard) => DoTakeLease(s, t, heard)
    case SendIsolate(t) => DoSendIsolate(s, t)
    case FetchJob(t) => DoFetchJob(s, t)
    case FetchReport(t) => DoFetchReport(s, t)
    case ReadStatus(t, at) => DoReadStatus(s, t, at)
    case Execute(t, fault) => DoExecute(s, t, fault)
    case Proceed(t) => DoProceed(s, t)
    case Invoke(t) => DoInvoke(s, t)
    case Return(t, outcome) => DoReturn(s, t, outcome)
    case Reject(t, message) => DoReject(s, t, message)
    case SendReport(t) => DoSendReport(s, t)
    case CheckRetire(t) => DoCheckRetire(s, t)
    case Renew(t) => s.(db := RenewLease(s.db, s.agents[t].id, t, s.agents[t].consumer).0)
    case Release(t) => At(s.(db := ReleaseLease(s.db, s.agents[t].id, t)), t, s.agents[t].(phase := Done))
    case Abort(t) => DoAbort(s, t)
  }

  // ----- Runs -----

  ghost predicate Init(s: System) {
    && s.db == EMPTY
    && s.agents == map[]
    && s.h == History(map[], map[], {}, map[], map[], map[], map[], {}, {})
  }

  /** One step: the event may happen, and its result is the one and only. */
  ghost predicate Step(s: System, e: Event, s': System) {
    && Enabled(s, e)
    && s' == Next(s, e)
  }

  /** A stretch of a run: it visits one state more than it has events. */
  ghost predicate Path(states: seq<System>, events: seq<Event>) {
    && |states| == |events| + 1
    && forall i {:trigger events[i]} :: 0 <= i < |events| ==> Step(states[i], events[i], states[i + 1])
  }

  ghost predicate Run(states: seq<System>, events: seq<Event>) {
    Path(states, events) && Init(states[0])
  }
}
