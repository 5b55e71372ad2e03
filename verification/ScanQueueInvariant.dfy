/** What every reachable state of the scan queue satisfies, and the proof that every event keeps it. */
module ScanQueueInvariant {
  import opened Wrappers
  import opened ScanJobs
  import opened Redis
  import opened ScanQueue

  // ----- Entries and the consumer group -----

  /** Every entry ever added is in exactly one of: the stream, the acknowledged ones, quarantine. */
  ghost predicate Conserved(db: Database, h: History) {
    && db.stream.Keys <= h.added.Keys
    && h.retired <= h.added.Keys
    && db.quarantine.Keys <= h.added.Keys
    && (forall i :: i in h.added ==> i in db.stream || i in h.retired || i in db.quarantine)
    && (forall i :: i in db.stream ==> i !in h.retired && i !in db.quarantine)
    && (forall i :: i in h.retired ==> i !in db.quarantine)
  }

  ghost predicate EntriesOk(db: Database, h: History) {
    && (forall i :: i in h.added ==> 0 < i <= db.lastId)
    && (forall i :: i in db.stream ==> i in h.added && db.stream[i] == h.added[i])
    && (forall i :: i in h.added && h.added[i].Delivery? ==>
          h.added[i].key in h.delivery && h.delivery[h.added[i].key] == i)
    && (forall k :: k in h.delivery ==>
          h.delivery[k] in h.added && h.added[h.delivery[k]].Delivery? && h.added[h.delivery[k]].key == k)
  }

  /** While the group exists, an entry in the stream is pending or still to be delivered. */
  ghost predicate GroupOk(db: Database) {
    db.group.Some? ==>
      var g := db.group.value;
      && g.lastDelivered <= db.lastId
      && (forall i :: i in g.pending ==> i in db.stream && g.pending[i].consumer in g.consumers)
      && (forall i :: i in db.stream ==> i in g.pending || g.lastDelivered < i)
  }

  // ----- Records -----

  ghost predicate RecordOk(db: Database, h: History, ttl: int, k: ScanJobKey)
    requires k in h.delivery
  {
    var i := h.delivery[k];
    && k in h.began && k in h.scans && k in h.scanners
    && |h.began[k]| <= MAX_ATTEMPTS
    && h.scanners[k] <= h.began[k]
    && h.scans[k] == |h.scanners[k]|
    && (k in h.lostJobs ==> k !in db.jobs)
    && (i in db.stream ==>
          && (k in db.jobs || k in h.lostJobs)
          && (k in db.jobs ==> db.jobs[k].expiry.None?)
          && (k in db.reports ==> db.reports[k].expiry.None?))
    && (i in db.quarantine ==> k in h.lostJobs)
    && (k in db.reports ==> k in db.jobs || k in h.lostJobs)
    && (k in db.jobs ==>
          && db.jobs[k].value.key == k
          && db.jobs[k].value.attempts == |h.began[k]|
          && db.jobs[k].value.report == NO_REPORT
          && (db.jobs[k].expiry.Some? ==> db.jobs[k].expiry.value <= db.now + ttl)
          && (i in db.stream || i in h.retired)
          && (!db.jobs[k].value.status.Terminal() ==> i in db.stream)
          && (i in h.retired ==> (db.jobs[k].expiry.Some? <==> ttl > 0))
          && (i in h.retired && k in db.reports ==> db.reports[k].expiry == db.jobs[k].expiry))
  }

  ghost predicate RecordsOk(db: Database, h: History, ttl: int) {
    && db.jobs.Keys <= h.delivery.Keys
    && db.reports.Keys <= h.delivery.Keys
    && h.began.Keys <= h.delivery.Keys
    && h.lostJobs <= h.delivery.Keys
    && (forall k :: k in h.delivery ==> RecordOk(db, h, ttl, k))
  }

  /** The report stored beside a Finished record is what the agent that stored Finished scanned. */
  ghost predicate FinishedOk(s: System, k: ScanJobKey)
    requires k in s.db.jobs
  {
    s.db.jobs[k].value.status.Finished? ==>
      && k in s.h.finisher
      && s.h.finisher[k] in s.agents
      && var a := s.agents[s.h.finisher[k]];
      && a.report.Some?
      && ReportKept(s.db, s.h, k, a.report)
  }

  ghost predicate FinishesOk(s: System) {
    forall k :: k in s.db.jobs ==> FinishedOk(s, k)
  }

  ghost predicate ReportKept(db: Database, h: History, k: ScanJobKey, report: Option<ScanReport>) {
    k in h.lostReports || (k in db.reports && report == Some(db.reports[k].value))
  }

  // ----- Agents -----

  /** What an agent's own fields say about each other. */
  predicate Shape(a: Agent) {
    && (a.invoked ==> a.began)
    && (match a.phase
        case Received => !a.began && a.sent.None? && a.report.None?
        case Leased => !a.began && a.sent.None? && a.report.None? && a.payload.Delivery?
        case Fetched(_) => !a.began && a.sent.None? && a.report.None? && a.payload.Delivery?
        case Updating(goal) =>
          && a.sent.None? && a.payload.Delivery?
          && (goal.Begin? ==> !a.began && a.report.None?)
          && (goal.Finish? ==> a.report.Some?)
        case Waiting => a.sent.Some?
        case Ready => a.began && !a.invoked && a.sent.None? && a.report.None? && a.payload.Delivery?
        case Scanning => a.invoked && a.sent.None? && a.report.None? && a.payload.Delivery?
        case Scanned => a.sent.None? && a.report.Some? && a.payload.Delivery?
        case Retiring => a.sent.None? && a.payload.Delivery?
        case Closing => a.payload.Delivery?
        case Done => true)
    && (match a.sent
        case None => true
        case Some(SetStatus(goal, read, _, applied)) =>
          && a.payload.Delivery? && read.key == a.payload.key
          && (goal.Begin? ==> applied == a.began && !a.invoked && a.report.None?)
          && (goal.Finish? ==> a.report.Some?)
          && (a.answer == Some(1) ==> applied)
        case Some(PutReport(report, applied)) =>
          a.payload.Delivery? && a.report == Some(report) && (a.answer == Some(1) ==> applied)
        case Some(Retire) => a.payload.Delivery?
        case Some(Isolate(_)) => true)
  }

  /** What the holder of a lease may conclude about the stored record while it exists. */
  ghost predicate Knows(db: Database, h: History, a: Agent)
    requires a.payload.Delivery?
  {
    var k := a.payload.key;
    k in db.jobs ==>
      var job := db.jobs[k].value;
      && (match a.phase
          case Fetched(state) => job == state
          case Updating(goal) =>
            && !job.status.Terminal()
            && (goal.Begin? ==> job.attempts < MAX_ATTEMPTS)
            && (goal.Finish? ==> ReportKept(db, h, k, a.report))
          case Ready => !job.status.Terminal()
          case Scanning => !job.status.Terminal()
          case Scanned => !job.status.Terminal()
          case Retiring => job.status.Terminal()
          case _ => true)
      && (match a.sent
          case Some(SetStatus(goal, read, at, applied)) =>
            && job == (if applied then Updated(read, goal, at) else read)
            && !read.status.Terminal()
            && a.id in db.stream
            && (goal.Begin? ==> read.attempts < MAX_ATTEMPTS)
            && (goal.Finish? ==> ReportKept(db, h, k, a.report))
          case Some(PutReport(_, applied)) =>
            !job.status.Terminal() && (applied ==> ReportKept(db, h, k, a.report))
          case Some(Retire) => job.status.Terminal()
          case _ => true)
  }

  ghost predicate AgentOk(db: Database, h: History, t: Token, a: Agent) {
    && a.id in h.added
    && a.payload == h.added[a.id]
    && Shape(a)
    && (a.payload.Delivery? ==>
          && (Fenced(db, a.id, t) ==> Knows(db, h, a))
          && (a.sent.Some? && a.sent.value.Isolate? ==> a.payload.key !in db.jobs))
  }

  ghost predicate AgentsOk(s: System) {
    && (forall t :: t in s.agents ==> AgentOk(s.db, s.h, t, s.agents[t]))
    && (forall i :: i in s.db.leases ==>
          s.db.leases[i].token in s.agents && s.agents[s.db.leases[i].token].id == i)
  }

  /** The history of attempts agrees with the flags the agents carry. */
  ghost predicate AttemptsOk(
    agents: map<Token, Agent>, began: map<ScanJobKey, set<Token>>, scanners: map<ScanJobKey, set<Token>>)
  {
    && (forall k, t :: k in began && t in began[k] ==>
          t in agents && agents[t].began && agents[t].payload.Delivery? && agents[t].payload.key == k)
    && (forall k, t :: k in scanners && t in scanners[k] ==> t in agents && agents[t].invoked)
    && (forall t :: t in agents && agents[t].began && agents[t].payload.Delivery? ==>
          agents[t].payload.key in began && t in began[agents[t].payload.key])
  }

  ghost predicate Inv(s: System) {
    && Conserved(s.db, s.h)
    && EntriesOk(s.db, s.h)
    && GroupOk(s.db)
    && RecordsOk(s.db, s.h, s.ttl)
    && FinishesOk(s)
    && AgentsOk(s)
    && AttemptsOk(s.agents, s.h.began, s.h.scanners)
  }

  // ----- Events that only move one agent -----

  /** A new value for agent `t` that the invariant allows without any other change. */
  ghost predicate Successor(s: System, t: Token, b: Agent)
    requires t in s.agents
  {
    var a := s.agents[t];
    && b.began == a.began && b.invoked == a.invoked
    && (a.report.Some? ==> b.report == a.report)
    && AgentOk(s.db, s.h, t, b)
    && b.id == a.id
  }

  lemma FinishesMove(s: System, t: Token, b: Agent)
    requires FinishesOk(s) && t in s.agents && (s.agents[t].report.Some? ==> b.report == s.agents[t].report)
    ensures FinishesOk(At(s, t, b))
  {
    var s' := At(s, t, b);
    forall k | k in s'.db.jobs ensures FinishedOk(s', k) {
      assert FinishedOk(s, k);
    }
  }

  lemma AgentsMove(s: System, t: Token, b: Agent)
    requires AgentsOk(s) && t in s.agents && AgentOk(s.db, s.h, t, b) && b.id == s.agents[t].id
    ensures AgentsOk(At(s, t, b))
  {
  }

  lemma AgentMoves(s: System, t: Token, b: Agent)
    requires Inv(s) && t in s.agents && Successor(s, t, b)
    ensures Inv(At(s, t, b))
  {
    FinishesMove(s, t, b);
    AttemptsMove(s.agents, t, b, s.h.began, s.h.scanners);
    AgentsMove(s, t, b);
  }

  /** Events that change nothing but the phase of one agent. */
  predicate Local(e: Event) {
    e.SendIsolate? || e.FetchJob? || e.FetchReport? || e.ReadStatus? || e.Proceed? || e.Return?
    || e.Reject? || e.SendReport? || e.CheckRetire? || e.Abort?
  }

  ghost predicate OwnRecord(db: Database, a: Agent) {
    a.payload.Delivery? && a.payload.key in db.jobs ==>
      && db.jobs[a.payload.key].value.key == a.payload.key
      && (!db.jobs[a.payload.key].value.status.Terminal() ==> a.id in db.stream)
  }

  lemma OwnRecordOf(s: System, t: Token)
    requires EntriesOk(s.db, s.h) && RecordsOk(s.db, s.h, s.ttl) && t in s.agents && AgentOk(s.db, s.h, t, s.agents[t])
    ensures OwnRecord(s.db, s.agents[t])
  {
    if s.agents[t].payload.Delivery? {
      assert RecordOk(s.db, s.h, s.ttl, s.agents[t].payload.key);
    }
  }

  lemma ProceedAgent(s: System, t: Token)
    requires Enabled(s, Proceed(t)) && AgentOk(s.db, s.h, t, s.agents[t])
    ensures Successor(s, t, DoProceed(s, t).agents[t])
  {
    var a, b := s.agents[t], DoProceed(s, t).agents[t];
    match a.sent.value
    case SetStatus(goal, _, _, _) => assert b.phase == AfterUpdate(goal);
    case PutReport(_, _) => assert b.phase == Updating(Finish);
    case Retire =>
    case Isolate(_) =>
  }

  lemma ReadStatusAgent(s: System, t: Token, at: nat)
    requires Enabled(s, ReadStatus(t, at)) && AgentOk(s.db, s.h, t, s.agents[t])
    requires OwnRecord(s.db, s.agents[t])
    ensures Successor(s, t, DoReadStatus(s, t, at).agents[t])
  {
  }

  lemma CheckRetireAgent(s: System, t: Token)
    requires Enabled(s, CheckRetire(t)) && AgentOk(s.db, s.h, t, s.agents[t])
    ensures Successor(s, t, DoCheckRetire(s, t).agents[t])
  {
  }

  lemma SendIsolateAgent(s: System, t: Token)
    requires Enabled(s, SendIsolate(t)) && AgentOk(s.db, s.h, t, s.agents[t])
    ensures Successor(s, t, DoSendIsolate(s, t).agents[t])
  {
  }

  lemma FetchJobAgent(s: System, t: Token)
    requires Enabled(s, FetchJob(t)) && AgentOk(s.db, s.h, t, s.agents[t])
    ensures Successor(s, t, DoFetchJob(s, t).agents[t])
  {
  }

  lemma FetchReportAgent(s: System, t: Token)
    requires Enabled(s, FetchReport(t)) && AgentOk(s.db, s.h, t, s.agents[t])
    ensures Successor(s, t, DoFetchReport(s, t).agents[t])
  {
  }

  lemma ReturnAgent(s: System, t: Token, outcome: Outcome)
    requires Enabled(s, Return(t, outcome)) && AgentOk(s.db, s.h, t, s.agents[t])
    ensures Successor(s, t, DoReturn(s, t, outcome).agents[t])
  {
  }

  lemma RejectAgent(s: System, t: Token, message: string)
    requires Enabled(s, Reject(t, message)) && AgentOk(s.db, s.h, t, s.agents[t])
    ensures Successor(s, t, DoReject(s, t, message).agents[t])
  {
  }

  lemma SendReportAgent(s: System, t: Token)
    requires Enabled(s, SendReport(t)) && AgentOk(s.db, s.h, t, s.agents[t])
    ensures Successor(s, t, DoSendReport(s, t).agents[t])
  {
  }

  lemma AbortAgent(s: System, t: Token)
    requires Enabled(s, Abort(t)) && AgentOk(s.db, s.h, t, s.agents[t])
    ensures Successor(s, t, DoAbort(s, t).agents[t])
  {
  }

  lemma ProceedKeeps(s: System, t: Token)
    requires Inv(s) && Enabled(s, Proceed(t))
    ensures Inv(DoProceed(s, t))
  {
    assert AgentOk(s.db, s.h, t, s.agents[t]);
    ProceedAgent(s, t);
    AgentMoves(s, t, DoProceed(s, t).agents[t]);
  }

  lemma ReadStatusKeeps(s: System, t: Token, at: nat)
    requires Inv(s) && Enabled(s, ReadStatus(t, at))
    ensures Inv(DoReadStatus(s, t, at))
  {
    assert AgentOk(s.db, s.h, t, s.agents[t]);
    OwnRecordOf(s, t);
    ReadStatusAgent(s, t, at);
    AgentMoves(s, t, DoReadStatus(s, t, at).agents[t]);
  }

  lemma CheckRetireKeeps(s: System, t: Token)
    requires Inv(s) && Enabled(s, CheckRetire(t))
    ensures Inv(DoCheckRetire(s, t))
  {
    assert AgentOk(s.db, s.h, t, s.agents[t]);
    CheckRetireAgent(s, t);
    AgentMoves(s, t, DoCheckRetire(s, t).agents[t]);
  }

  lemma SendIsolateKeeps(s: System, t: Token)
    requires Inv(s) && Enabled(s, SendIsolate(t))
    ensures Inv(DoSendIsolate(s, t))
  {
    assert AgentOk(s.db, s.h, t, s.agents[t]);
    SendIsolateAgent(s, t);
    AgentMoves(s, t, DoSendIsolate(s, t).agents[t]);
  }

  lemma FetchJobKeeps(s: System, t: Token)
    requires Inv(s) && Enabled(s, FetchJob(t))
    ensures Inv(DoFetchJob(s, t))
  {
    assert AgentOk(s.db, s.h, t, s.agents[t]);
    FetchJobAgent(s, t);
    AgentMoves(s, t, DoFetchJob(s, t).agents[t]);
  }

  lemma FetchReportKeeps(s: System, t: Token)
    requires Inv(s) && Enabled(s, FetchReport(t))
    ensures Inv(DoFetchReport(s, t))
  {
    assert AgentOk(s.db, s.h, t, s.agents[t]);
    FetchReportAgent(s, t);
    AgentMoves(s, t, DoFetchReport(s, t).agents[t]);
  }

  lemma ReturnKeeps(s: System, t: Token, outcome: Outcome)
    requires Inv(s) && Enabled(s, Return(t, outcome))
    ensures Inv(DoReturn(s, t, outcome))
  {
    assert AgentOk(s.db, s.h, t, s.agents[t]);
    ReturnAgent(s, t, outcome);
    AgentMoves(s, t, DoReturn(s, t, outcome).agents[t]);
  }

  lemma RejectKeeps(s: System, t: Token, message: string)
    requires Inv(s) && Enabled(s, Reject(t, message))
    ensures Inv(DoReject(s, t, message))
  {
    assert AgentOk(s.db, s.h, t, s.agents[t]);
    RejectAgent(s, t, message);
    AgentMoves(s, t, DoReject(s, t, message).agents[t]);
  }

  lemma SendReportKeeps(s: System, t: Token)
    requires Inv(s) && Enabled(s, SendReport(t))
    ensures Inv(DoSendReport(s, t))
  {
    assert AgentOk(s.db, s.h, t, s.agents[t]);
    SendReportAgent(s, t);
    AgentMoves(s, t, DoSendReport(s, t).agents[t]);
  }

  lemma AbortKeeps(s: System, t: Token)
    requires Inv(s) && Enabled(s, Abort(t))
    ensures Inv(DoAbort(s, t))
  {
    assert AgentOk(s.db, s.h, t, s.agents[t]);
    AbortAgent(s, t);
    AgentMoves(s, t, DoAbort(s, t).agents[t]);
  }

  /** Events that only read. */
  predicate Reading(e: Event) {
    e.FetchJob? || e.FetchReport? || e.ReadStatus? || e.CheckRetire?
  }

  lemma ReadingKeeps(s: System, e: Event)
    requires Inv(s) && Enabled(s, e) && Reading(e)
    ensures Inv(Next(s, e))
  {
    match e
    case FetchJob(t) => FetchJobKeeps(s, t);
    case FetchReport(t) => FetchReportKeeps(s, t);
    case ReadStatus(t, at) => ReadStatusKeeps(s, t, at);
    case CheckRetire(t) => CheckRetireKeeps(s, t);
  }

  lemma LocalKeeps(s: System, e: Event)
    requires Inv(s) && Enabled(s, e) && Local(e) && !Reading(e)
    ensures Inv(Next(s, e))
  {
    match e
    case Proceed(t) => ProceedKeeps(s, t);
    case SendIsolate(t) => SendIsolateKeeps(s, t);
    case Return(t, outcome) => ReturnKeeps(s, t, outcome);
    case Reject(t, message) => RejectKeeps(s, t, message);
    case SendReport(t) => SendReportKeeps(s, t);
    case Abort(t) => AbortKeeps(s, t);
  }

  // ----- Events that move the database under the agents -----

  /** Nothing an agent may rely on has changed for it. */
  ghost predicate Undisturbed(db: Database, h: History, db': Database, h': History, t: Token, a: Agent) {
    && a.id in h.added && a.id in h'.added && h'.added[a.id] == h.added[a.id]
    && (Fenced(db', a.id, t) ==> Fenced(db, a.id, t))
    && (a.payload.Delivery? ==>
          var k := a.payload.key;
          && (k in db'.jobs ==> k in db.jobs)
          && (k in h.lostReports ==> k in h'.lostReports)
          && (Fenced(db', a.id, t) && k in db'.jobs ==>
                && db'.jobs[k].value == db.jobs[k].value
                && (k in db.reports ==>
                      k in h'.lostReports || (k in db'.reports && db'.reports[k].value == db.reports[k].value))
                && (a.id in db.stream ==> a.id in db'.stream)))
  }

  lemma UndisturbedAgent(db: Database, h: History, db': Database, h': History, t: Token, a: Agent)
    requires AgentOk(db, h, t, a) && Undisturbed(db, h, db', h', t, a)
    ensures AgentOk(db', h', t, a)
  {
  }

  /** A record, with what was counted for it, that no event touched. */
  ghost predicate SameRecord(db: Database, h: History, db': Database, h': History, k: ScanJobKey)
    requires k in h.delivery
  {
    && k in h'.delivery && h'.delivery[k] == h.delivery[k]
    && (k in db.jobs <==> k in db'.jobs) && (k in db.jobs ==> db'.jobs[k] == db.jobs[k])
    && (k in db.reports <==> k in db'.reports) && (k in db.reports ==> db'.reports[k] == db.reports[k])
    && (k in h.began <==> k in h'.began) && (k in h.began ==> h'.began[k] == h.began[k])
    && (k in h.scans <==> k in h'.scans) && (k in h.scans ==> h'.scans[k] == h.scans[k])
    && (k in h.scanners <==> k in h'.scanners) && (k in h.scanners ==> h'.scanners[k] == h.scanners[k])
    && (k in h.lostJobs <==> k in h'.lostJobs)
    && (h.delivery[k] in db.stream <==> h.delivery[k] in db'.stream)
    && (h.delivery[k] in h.retired <==> h.delivery[k] in h'.retired)
    && (h.delivery[k] in db.quarantine <==> h.delivery[k] in db'.quarantine)
  }

  /** Reports of agents stay, and so does what is stored of the records that stay. */
  lemma FinishesStay(s: System, s': System)
    requires FinishesOk(s)
    requires forall k :: k in s'.db.jobs ==>
      && k in s.db.jobs && s'.db.jobs[k].value == s.db.jobs[k].value
      && (k in s.db.reports ==>
            k in s'.h.lostReports || (k in s'.db.reports && s'.db.reports[k].value == s.db.reports[k].value))
    requires s'.h.finisher == s.h.finisher && s.h.lostReports <= s'.h.lostReports
    requires forall t :: t in s.agents ==>
      t in s'.agents && (s.agents[t].report.Some? ==> s'.agents[t].report == s.agents[t].report)
    ensures FinishesOk(s')
  {
    forall k | k in s'.db.jobs ensures FinishedOk(s', k) {
      assert FinishedOk(s, k);
    }
  }

  lemma AttemptsStay(agents: map<Token, Agent>, agents': map<Token, Agent>,
    began: map<ScanJobKey, set<Token>>, scanners: map<ScanJobKey, set<Token>>)
    requires AttemptsOk(agents, began, scanners) && agents.Keys <= agents'.Keys
    requires forall t :: t in agents' ==>
      if t in agents
      then agents'[t].began == agents[t].began && agents'[t].invoked == agents[t].invoked && agents'[t].payload == agents[t].payload
      else !agents'[t].began
    ensures AttemptsOk(agents', began, scanners)
  {
  }

  lemma AttemptsMove(agents: map<Token, Agent>, t: Token, b: Agent,
    began: map<ScanJobKey, set<Token>>, scanners: map<ScanJobKey, set<Token>>)
    requires AttemptsOk(agents, began, scanners) && t in agents
    requires b.began == agents[t].began && b.invoked == agents[t].invoked && b.payload == agents[t].payload
    ensures AttemptsOk(agents[t := b], began, scanners)
  {
  }

  lemma RecordStays(db: Database, h: History, db': Database, h': History, ttl: int, k: ScanJobKey)
    requires k in h.delivery && RecordOk(db, h, ttl, k) && SameRecord(db, h, db', h', k) && db.now <= db'.now
    ensures RecordOk(db', h', ttl, k)
  {
  }

  /** Agents that do not move, while the database moves under them. */
  lemma AgentsStay(s: System, s': System)
    requires AgentsOk(s) && s'.agents == s.agents
    requires forall u :: u in s.agents ==> Undisturbed(s.db, s.h, s'.db, s'.h, u, s.agents[u])
    requires forall i :: i in s'.db.leases ==> i in s.db.leases && s'.db.leases[i].token == s.db.leases[i].token
    ensures AgentsOk(s')
  {
    forall u | u in s'.agents ensures AgentOk(s'.db, s'.h, u, s'.agents[u]) {
      UndisturbedAgent(s.db, s.h, s'.db, s'.h, u, s.agents[u]);
    }
  }

  lemma InvokeRecords(s: System, t: Token)
    requires RecordsOk(s.db, s.h, s.ttl) && AttemptsOk(s.agents, s.h.began, s.h.scanners) && Enabled(s, Invoke(t))
    requires s.agents[t].began && !s.agents[t].invoked && s.agents[t].payload.key in s.h.delivery
    ensures var s' := DoInvoke(s, t); RecordsOk(s'.db, s'.h, s'.ttl)
  {
    var s', k := DoInvoke(s, t), s.agents[t].payload.key;
    assert RecordOk(s.db, s.h, s.ttl, k);
    assert t !in s.h.scanners[k] && t in s.h.began[k];
    forall k' | k' in s'.h.delivery ensures RecordOk(s'.db, s'.h, s'.ttl, k') {
      if k' != k {
        RecordStays(s.db, s.h, s'.db, s'.h, s.ttl, k');
      }
    }
  }

  lemma InvokeAttempts(s: System, t: Token)
    requires AttemptsOk(s.agents, s.h.began, s.h.scanners) && Enabled(s, Invoke(t)) && s.agents[t].began
    ensures var s' := DoInvoke(s, t); AttemptsOk(s'.agents, s'.h.began, s'.h.scanners)
  {
  }

  lemma InvokeAgents(s: System, t: Token)
    requires AgentsOk(s) && Enabled(s, Invoke(t))
    ensures AgentsOk(DoInvoke(s, t))
  {
    var s' := DoInvoke(s, t);
    forall u | u in s'.agents ensures AgentOk(s'.db, s'.h, u, s'.agents[u]) {
      assert AgentOk(s.db, s.h, u, s.agents[u]);
    }
  }

  lemma InvokeKeeps(s: System, t: Token)
    requires Inv(s) && Enabled(s, Invoke(t))
    ensures Inv(DoInvoke(s, t))
  {
    var s' := DoInvoke(s, t);
    assert AgentOk(s.db, s.h, t, s.agents[t]);
    InvokeRecords(s, t);
    InvokeAttempts(s, t);
    InvokeAgents(s, t);
    FinishesStay(s, s');
  }

  function WithLeases(s: System, leases: map<EntryId, Lease>, group: Option<Group>): System {
    s.(db := s.db.(leases := leases, group := group))
  }

  lemma LeaseChangeRecords(s: System, leases: map<EntryId, Lease>, group: Option<Group>)
    requires RecordsOk(s.db, s.h, s.ttl)
    ensures RecordsOk(WithLeases(s, leases, group).db, s.h, s.ttl)
  {
    var s' := WithLeases(s, leases, group);
    forall k | k in s'.h.delivery ensures RecordOk(s'.db, s'.h, s'.ttl, k) {
      RecordStays(s.db, s.h, s'.db, s'.h, s.ttl, k);
    }
  }

  lemma LeaseChangeFinishes(s: System, leases: map<EntryId, Lease>, group: Option<Group>)
    requires FinishesOk(s)
    ensures FinishesOk(WithLeases(s, leases, group))
  {
    FinishesStay(s, WithLeases(s, leases, group));
  }

  lemma LeaseChangeAgents(s: System, leases: map<EntryId, Lease>, group: Option<Group>)
    requires AgentsOk(s)
    requires forall i :: i in leases ==> i in s.db.leases && leases[i].token == s.db.leases[i].token
    ensures AgentsOk(WithLeases(s, leases, group))
  {
    AgentsStay(s, WithLeases(s, leases, group));
  }

  /** Leases and the group may change freely as long as no agent gains a lease it did not hold. */
  lemma LeaseChangeKeeps(s: System, leases: map<EntryId, Lease>, group: Option<Group>)
    requires Inv(s)
    requires GroupOk(s.db.(group := group))
    requires forall i :: i in leases ==> i in s.db.leases && leases[i].token == s.db.leases[i].token
    ensures Inv(WithLeases(s, leases, group))
  {
    LeaseChangeRecords(s, leases, group);
    LeaseChangeAgents(s, leases, group);
    LeaseChangeFinishes(s, leases, group);
  }

  /** A renewal keeps every entry where it was, and every lease with the token it had. */
  lemma RenewEffect(db: Database, id: EntryId, t: Token, consumer: Consumer)
    requires GroupOk(db)
    ensures var db' := RenewLease(db, id, t, consumer).0;
      && db' == db.(leases := db'.leases, group := db'.group)
      && GroupOk(db.(group := db'.group))
      && (forall i :: i in db'.leases ==> i in db.leases && db'.leases[i].token == db.leases[i].token)
  {
  }

  lemma RenewKeeps(s: System, t: Token)
    requires Inv(s) && Enabled(s, Renew(t))
    ensures Inv(Next(s, Renew(t)))
  {
    var a, s' := s.agents[t], Next(s, Renew(t));
    RenewEffect(s.db, a.id, t, a.consumer);
    LeaseChangeKeeps(s, s'.db.leases, s'.db.group);
  }

  lemma GroupEventsKeep(s: System, e: Event)
    requires Inv(s) && Enabled(s, e)
    requires e.LoseGroup? || e.EnsureGroup? || e.CleanUp?
    ensures Inv(Next(s, e))
  {
    var s' := Next(s, e);
    LeaseChangeKeeps(s, s'.db.leases, s'.db.group);
  }

  lemma ReleaseKeeps(s: System, t: Token)
    requires Inv(s) && Enabled(s, Release(t))
    ensures Inv(Next(s, Release(t)))
  {
    var a := s.agents[t];
    var released := s.(db := ReleaseLease(s.db, a.id, t));
    LeaseChangeKeeps(s, released.db.leases, released.db.group);
    assert AgentOk(released.db, released.h, t, a);
    DoneAgent(released, t);
    AgentMoves(released, t, a.(phase := Done));
  }

  lemma DoneAgent(s: System, t: Token)
    requires t in s.agents && (s.agents[t].phase.Closing? || s.agents[t].phase.Done?) && AgentOk(s.db, s.h, t, s.agents[t])
    ensures Successor(s, t, s.agents[t].(phase := Done))
  {
  }

  // ----- Leases and deliveries -----

  lemma TakeLeaseAgents(s: System, t: Token, heard: bool)
    requires AgentsOk(s) && Enabled(s, TakeLease(t, heard))
    ensures AgentsOk(DoTakeLease(s, t, heard))
  {
    var s' := DoTakeLease(s, t, heard);
    forall u | u in s'.agents ensures AgentOk(s'.db, s'.h, u, s'.agents[u]) {
      assert AgentOk(s.db, s.h, u, s.agents[u]);
      if u != t {
        UndisturbedAgent(s.db, s.h, s'.db, s'.h, u, s.agents[u]);
      }
    }
  }

  lemma TakeLeaseKeeps(s: System, t: Token, heard: bool)
    requires Inv(s) && Enabled(s, TakeLease(t, heard))
    ensures Inv(DoTakeLease(s, t, heard))
  {
    var s', b := DoTakeLease(s, t, heard), DoTakeLease(s, t, heard).agents[t];
    assert s' == At(WithLeases(s, s'.db.leases, s.db.group), t, b);
    TakeLeaseAgents(s, t, heard);
    LeaseChangeRecords(s, s'.db.leases, s.db.group);
    LeaseChangeFinishes(s, s'.db.leases, s.db.group);
    FinishesMove(WithLeases(s, s'.db.leases, s.db.group), t, b);
    AttemptsMove(s.agents, t, b, s.h.began, s.h.scanners);
  }

  /** A delivery: the group hands entry `id` to a new agent. */
  function Handed(s: System, t: Token, consumer: Consumer, id: EntryId, group: Option<Group>): System
    requires id in s.db.stream
  {
    At(s.(db := s.db.(group := group)), t, NewAgent(consumer, id, s.db.stream[id]))
  }

  lemma HandedAgents(s: System, t: Token, consumer: Consumer, id: EntryId, group: Option<Group>)
    requires AgentsOk(s) && EntriesOk(s.db, s.h) && id in s.db.stream && t !in s.agents
    ensures AgentsOk(Handed(s, t, consumer, id, group))
  {
    var s' := Handed(s, t, consumer, id, group);
    forall u | u in s'.agents ensures AgentOk(s'.db, s'.h, u, s'.agents[u]) {
      if u != t {
        UndisturbedAgent(s.db, s.h, s'.db, s'.h, u, s.agents[u]);
      }
    }
  }

  lemma HandedKeeps(s: System, t: Token, consumer: Consumer, id: EntryId, group: Option<Group>)
    requires Inv(s) && id in s.db.stream && t !in s.agents
    requires GroupOk(s.db.(group := group))
    ensures Inv(Handed(s, t, consumer, id, group))
  {
    var s' := Handed(s, t, consumer, id, group);
    HandedAgents(s, t, consumer, id, group);
    AttemptsStay(s.agents, s'.agents, s.h.began, s.h.scanners);
    LeaseChangeRecords(s, s.db.leases, group);
    FinishesStay(s, s');
  }

  lemma ReadKeeps(s: System, t: Token, consumer: Consumer, id: EntryId)
    requires Inv(s) && Enabled(s, Read(t, consumer, id))
    ensures Inv(Next(s, Read(t, consumer, id)))
  {
    HandedKeeps(s, t, consumer, id, ReadGroup(s.db, id, consumer).group);
  }

  lemma ReclaimKeeps(s: System, t: Token, consumer: Consumer, id: EntryId)
    requires Inv(s) && Enabled(s, Reclaim(t, consumer, id))
    ensures Inv(Next(s, Reclaim(t, consumer, id)))
  {
    HandedKeeps(s, t, consumer, id, AutoClaim(s.db, id, consumer).group);
  }

  // ----- The environment -----

  lemma TickRecords(db: Database, h: History, ttl: int, d: nat)
    requires RecordsOk(db, h, ttl)
    ensures RecordsOk(Tick(db, d), h, ttl)
  {
    var db' := Tick(db, d);
    forall k | k in h.delivery ensures RecordOk(db', h, ttl, k) {
      assert RecordOk(db, h, ttl, k);
    }
  }

  /** A record and its report leave together, so what is left of a record still has its report. */
  lemma TickKeepsReport(db: Database, h: History, ttl: int, d: nat, k: ScanJobKey)
    requires RecordsOk(db, h, ttl)
    ensures var db' := Tick(db, d); k in db'.jobs ==>
      && k in db.jobs && db'.jobs[k] == db.jobs[k]
      && (k in db.reports ==> k in db'.reports && db'.reports[k] == db.reports[k])
  {
    if k in Tick(db, d).jobs {
      assert RecordOk(db, h, ttl, k);
    }
  }

  lemma TickAgents(s: System, d: nat)
    requires AgentsOk(s) && RecordsOk(s.db, s.h, s.ttl)
    ensures AgentsOk(s.(db := Tick(s.db, d)))
  {
    var s' := s.(db := Tick(s.db, d));
    forall u | u in s.agents ensures Undisturbed(s.db, s.h, s'.db, s'.h, u, s.agents[u]) {
      assert AgentOk(s.db, s.h, u, s.agents[u]);
      if s.agents[u].payload.Delivery? {
        TickKeepsReport(s.db, s.h, s.ttl, d, s.agents[u].payload.key);
      }
    }
    AgentsStay(s, s');
  }

  lemma TickKeeps(s: System, d: nat)
    requires Inv(s)
    ensures Inv(s.(db := Tick(s.db, d)))
  {
    var s' := s.(db := Tick(s.db, d));
    TickRecords(s.db, s.h, s.ttl, d);
    TickAgents(s, d);
    forall k ensures k in s'.db.jobs ==>
      && k in s.db.jobs && s'.db.jobs[k] == s.db.jobs[k]
      && (k in s.db.reports ==> k in s'.db.reports && s'.db.reports[k] == s.db.reports[k])
    {
      TickKeepsReport(s.db, s.h, s.ttl, d, k);
    }
    FinishesStay(s, s');
  }

  /** XADD of an entry that no agent holds yet. */
  lemma AddedGroup(db: Database, payload: Payload)
    requires GroupOk(db)
    ensures GroupOk(db.(lastId := db.lastId + 1, stream := db.stream[db.lastId + 1 := payload]))
  {
  }

  lemma EnqueueEntries(s: System, key: ScanJobKey, request: string, fault: bool)
    requires EntriesOk(s.db, s.h) && Conserved(s.db, s.h) && Enabled(s, EnqueueJob(key, request, fault))
    ensures var s' := DoEnqueue(s, key, request, fault); EntriesOk(s'.db, s'.h) && Conserved(s'.db, s'.h)
  {
  }

  lemma EnqueueRecords(s: System, key: ScanJobKey, request: string, fault: bool)
    requires EntriesOk(s.db, s.h) && RecordsOk(s.db, s.h, s.ttl) && Enabled(s, EnqueueJob(key, request, fault))
    requires Conserved(s.db, s.h)
    ensures var s' := DoEnqueue(s, key, request, fault); RecordsOk(s'.db, s'.h, s'.ttl)
  {
    var s' := DoEnqueue(s, key, request, fault);
    forall k | k in s'.h.delivery ensures RecordOk(s'.db, s'.h, s'.ttl, k) {
      if k in s.h.delivery {
        assert s.h.delivery[k] in s.h.added;
        RecordStays(s.db, s.h, s'.db, s'.h, s.ttl, k);
      }
    }
  }

  lemma EnqueueAgents(s: System, key: ScanJobKey, request: string, fault: bool)
    requires EntriesOk(s.db, s.h) && AgentsOk(s) && Enabled(s, EnqueueJob(key, request, fault))
    ensures AgentsOk(DoEnqueue(s, key, request, fault))
  {
    assert forall u :: u in s.agents ==> AgentOk(s.db, s.h, u, s.agents[u]);
    AgentsStay(s, DoEnqueue(s, key, request, fault));
  }

  lemma AttemptsEnqueue(agents: map<Token, Agent>, key: ScanJobKey,
    began: map<ScanJobKey, set<Token>>, scanners: map<ScanJobKey, set<Token>>)
    requires AttemptsOk(agents, began, scanners) && key !in began
    ensures AttemptsOk(agents, began[key := {}], scanners[key := {}])
  {
  }

  lemma EnqueueFinishes(s: System, key: ScanJobKey, request: string, fault: bool)
    requires FinishesOk(s) && Enabled(s, EnqueueJob(key, request, fault))
    ensures FinishesOk(DoEnqueue(s, key, request, fault))
  {
    var s' := DoEnqueue(s, key, request, fault);
    forall k | k in s'.db.jobs ensures FinishedOk(s', k) {
      assert k in s.db.jobs ==> FinishedOk(s, k);
    }
  }

  lemma EnqueueKeeps(s: System, key: ScanJobKey, request: string, fault: bool)
    requires Inv(s) && Enabled(s, EnqueueJob(key, request, fault))
    ensures Inv(DoEnqueue(s, key, request, fault))
  {
    EnqueueEntries(s, key, request, fault);
    EnqueueRecords(s, key, request, fault);
    EnqueueAgents(s, key, request, fault);
    EnqueueFinishes(s, key, request, fault);
    if key !in s.h.delivery {
      AttemptsEnqueue(s.agents, key, s.h.began, s.h.scanners);
    }
    AddedGroup(s.db, Delivery(key, request));
  }

  lemma AddForeignAgents(s: System, raw: string)
    requires EntriesOk(s.db, s.h) && AgentsOk(s)
    ensures AgentsOk(DoAddForeign(s, raw))
  {
    assert forall u :: u in s.agents ==> AgentOk(s.db, s.h, u, s.agents[u]);
    AgentsStay(s, DoAddForeign(s, raw));
  }

  lemma AddForeignRecords(s: System, raw: string)
    requires EntriesOk(s.db, s.h) && RecordsOk(s.db, s.h, s.ttl)
    ensures var s' := DoAddForeign(s, raw); RecordsOk(s'.db, s'.h, s'.ttl)
  {
    var s' := DoAddForeign(s, raw);
    forall k | k in s'.h.delivery ensures RecordOk(s'.db, s'.h, s'.ttl, k) {
      assert s.h.delivery[k] in s.h.added;
      RecordStays(s.db, s.h, s'.db, s'.h, s.ttl, k);
    }
  }

  lemma AddForeignEntries(s: System, raw: string)
    requires EntriesOk(s.db, s.h) && Conserved(s.db, s.h)
    ensures var s' := DoAddForeign(s, raw); EntriesOk(s'.db, s'.h) && Conserved(s'.db, s'.h)
  {
  }

  lemma AddForeignKeeps(s: System, raw: string)
    requires Inv(s)
    ensures Inv(DoAddForeign(s, raw))
  {
    var s' := DoAddForeign(s, raw);
    AddForeignEntries(s, raw);
    AddForeignRecords(s, raw);
    AddForeignAgents(s, raw);
    AddedGroup(s.db, Undecodable(raw));
    FinishesStay(s, s');
  }

  lemma EvictionAgents(s: System, e: Event)
    requires AgentsOk(s) && Enabled(s, e) && (e.EvictJob? || e.EvictReport?)
    ensures AgentsOk(Next(s, e))
  {
    assert forall u :: u in s.agents ==> AgentOk(s.db, s.h, u, s.agents[u]);
    AgentsStay(s, Next(s, e));
  }

  lemma EvictionRecords(s: System, e: Event)
    requires RecordsOk(s.db, s.h, s.ttl) && Enabled(s, e) && (e.EvictJob? || e.EvictReport?)
    ensures RecordsOk(Next(s, e).db, Next(s, e).h, s.ttl)
  {
    var s' := Next(s, e);
    forall k | k in s'.h.delivery ensures RecordOk(s'.db, s'.h, s'.ttl, k) {
      assert RecordOk(s.db, s.h, s.ttl, k);
    }
  }

  lemma EvictionKeeps(s: System, e: Event)
    requires Inv(s) && Enabled(s, e) && (e.EvictJob? || e.EvictReport?)
    ensures Inv(Next(s, e))
  {
    var s' := Next(s, e);
    EvictionRecords(s, e);
    EvictionAgents(s, e);
    FinishesStay(s, s');
  }

  // ----- Scripts -----

  /** Whoever holds a message for the same job holds the same entry, so it does not hold the lease as well. */
  lemma OneEntryPerJob(s: System, t: Token, u: Token)
    requires EntriesOk(s.db, s.h) && AgentsOk(s)
    requires t in s.agents && u in s.agents && s.agents[t].payload.Delivery? && s.agents[u].payload.Delivery?
    requires s.agents[t].payload.key == s.agents[u].payload.key
    ensures s.agents[t].id == s.agents[u].id
    ensures Fenced(s.db, s.agents[t].id, t) && t != u ==> !Fenced(s.db, s.agents[u].id, u)
  {
    assert AgentOk(s.db, s.h, t, s.agents[t]) && AgentOk(s.db, s.h, u, s.agents[u]);
  }

  /** The agent whose script takes effect. */
  ghost predicate Writing(s: System, t: Token) {
    && Decoded(s, t)
    && s.agents[t].sent.Some?
    && Fenced(s.db, s.agents[t].id, t)
    && s.agents[t].payload.key in s.db.jobs
  }

  /** A script of agent `t` that touches nothing but the record and report of its own job. */
  lemma WriteAgents(s: System, s': System, t: Token)
    requires EntriesOk(s.db, s.h) && AgentsOk(s) && Writing(s, t)
    requires s'.agents.Keys == s.agents.Keys && (forall u :: u in s.agents && u != t ==> s'.agents[u] == s.agents[u])
    requires s'.agents[t].id == s.agents[t].id
    requires AgentOk(s'.db, s'.h, t, s'.agents[t])
    requires s'.db.stream == s.db.stream && s'.h.added == s.h.added && s'.h.lostReports == s.h.lostReports
    requires s'.db.leases == s.db.leases
    requires s'.db.jobs.Keys == s.db.jobs.Keys
    requires forall k :: k in s.db.jobs && k != s.agents[t].payload.key ==> s'.db.jobs[k] == s.db.jobs[k]
    requires forall k :: k in s.db.reports && k != s.agents[t].payload.key ==>
      k in s'.db.reports && s'.db.reports[k] == s.db.reports[k]
    ensures AgentsOk(s')
  {
    forall u | u in s'.agents ensures AgentOk(s'.db, s'.h, u, s'.agents[u]) {
      if u != t {
        var b := s.agents[u];
        assert AgentOk(s.db, s.h, u, b);
        if b.payload.Delivery? && b.payload.key == s.agents[t].payload.key {
          OneEntryPerJob(s, t, u);
        }
        UndisturbedAgent(s.db, s.h, s'.db, s'.h, u, b);
      }
    }
  }

  lemma AttemptsBegin(agents: map<Token, Agent>, t: Token, b: Agent, k: ScanJobKey,
    began: map<ScanJobKey, set<Token>>, scanners: map<ScanJobKey, set<Token>>)
    requires AttemptsOk(agents, began, scanners) && t in agents && k in began
    requires b.began && b.invoked == agents[t].invoked && b.payload == agents[t].payload
    requires b.payload.Delivery? && b.payload.key == k
    ensures AttemptsOk(agents[t := b], began[k := began[k] + {t}], scanners)
  {
  }

  lemma SetStatusAttempts(s: System, t: Token)
    requires AttemptsOk(s.agents, s.h.began, s.h.scanners)
    requires Writing(s, t) && s.agents[t].sent.value.SetStatus? && s.agents[t].payload.key in s.h.began
    requires s.agents[t].sent.value.read.key == s.agents[t].payload.key
    ensures var s' := DoSetStatus(s, t); AttemptsOk(s'.agents, s'.h.began, s'.h.scanners)
  {
    var s', k := DoSetStatus(s, t), s.agents[t].payload.key;
    if s.agents[t].sent.value.goal.Begin? {
      AttemptsBegin(s.agents, t, s'.agents[t], k, s.h.began, s.h.scanners);
    } else {
      AttemptsMove(s.agents, t, s'.agents[t], s.h.began, s.h.scanners);
    }
  }

  lemma BeganBy(s: System, t: Token)
    requires AttemptsOk(s.agents, s.h.began, s.h.scanners) && Decoded(s, t) && s.agents[t].payload.key in s.h.began
    ensures t in s.h.began[s.agents[t].payload.key] <==> s.agents[t].began
  {
  }

  lemma PendingWriteRecord(s: System, t: Token)
    requires RecordsOk(s.db, s.h, s.ttl) && AttemptsOk(s.agents, s.h.began, s.h.scanners)
    requires Writing(s, t) && s.agents[t].sent.value.SetStatus? && s.agents[t].sent.value.goal.Begin?
    requires EntriesOk(s.db, s.h) && AgentOk(s.db, s.h, t, s.agents[t])
    ensures var s' := DoSetStatus(s, t); RecordOk(s'.db, s'.h, s'.ttl, s.agents[t].payload.key)
  {
    var key := s.agents[t].payload.key;
    assert RecordOk(s.db, s.h, s.ttl, key);
    BeganBy(s, t);
    if s.agents[t].began {
      assert s.h.began[key] + {t} == s.h.began[key];
    }
  }

  lemma OtherWriteRecord(s: System, t: Token)
    requires RecordsOk(s.db, s.h, s.ttl)
    requires Writing(s, t) && s.agents[t].sent.value.SetStatus? && !s.agents[t].sent.value.goal.Begin?
    requires EntriesOk(s.db, s.h) && AgentOk(s.db, s.h, t, s.agents[t])
    ensures var s' := DoSetStatus(s, t); RecordOk(s'.db, s'.h, s'.ttl, s.agents[t].payload.key)
  {
    assert RecordOk(s.db, s.h, s.ttl, s.agents[t].payload.key);
  }

  /** The one record that changes: a Pending write that takes effect for the first time adds one attempt
      and one agent, a repeated one adds neither. */
  lemma SetStatusRecord(s: System, t: Token)
    requires RecordsOk(s.db, s.h, s.ttl) && AttemptsOk(s.agents, s.h.began, s.h.scanners)
    requires Writing(s, t) && s.agents[t].sent.value.SetStatus?
    requires EntriesOk(s.db, s.h) && AgentOk(s.db, s.h, t, s.agents[t])
    ensures var s' := DoSetStatus(s, t); RecordOk(s'.db, s'.h, s'.ttl, s.agents[t].payload.key)
  {
    if s.agents[t].sent.value.goal.Begin? {
      PendingWriteRecord(s, t);
    } else {
      OtherWriteRecord(s, t);
    }
  }

  lemma SetStatusRecords(s: System, t: Token)
    requires RecordsOk(s.db, s.h, s.ttl) && AttemptsOk(s.agents, s.h.began, s.h.scanners)
    requires Writing(s, t) && s.agents[t].sent.value.SetStatus?
    requires EntriesOk(s.db, s.h) && AgentOk(s.db, s.h, t, s.agents[t])
    ensures var s' := DoSetStatus(s, t); RecordsOk(s'.db, s'.h, s'.ttl)
  {
    var s' := DoSetStatus(s, t);
    forall k | k in s'.h.delivery ensures RecordOk(s'.db, s'.h, s'.ttl, k) {
      if k == s.agents[t].payload.key {
        SetStatusRecord(s, t);
      } else {
        RecordStays(s.db, s.h, s'.db, s'.h, s.ttl, k);
      }
    }
  }

  lemma SetStatusAgents(s: System, t: Token)
    requires EntriesOk(s.db, s.h) && AgentsOk(s) && Writing(s, t) && s.agents[t].sent.value.SetStatus?
    ensures AgentsOk(DoSetStatus(s, t))
  {
    assert AgentOk(s.db, s.h, t, s.agents[t]);
    SetStatusAgent(s, t);
    WriteAgents(s, DoSetStatus(s, t), t);
  }

  lemma SetStatusAgent(s: System, t: Token)
    requires EntriesOk(s.db, s.h) && Writing(s, t) && s.agents[t].sent.value.SetStatus?
    requires AgentOk(s.db, s.h, t, s.agents[t])
    ensures var s' := DoSetStatus(s, t); AgentOk(s'.db, s'.h, t, s'.agents[t])
  {
  }

  lemma SetStatusFinishes(s: System, t: Token)
    requires FinishesOk(s) && Writing(s, t) && s.agents[t].sent.value.SetStatus?
    requires AgentOk(s.db, s.h, t, s.agents[t])
    ensures FinishesOk(DoSetStatus(s, t))
  {
    var s', a := DoSetStatus(s, t), s.agents[t];
    forall k | k in s'.db.jobs ensures FinishedOk(s', k) {
      assert FinishedOk(s, k);
    }
  }

  lemma SetStatusKeeps(s: System, t: Token)
    requires Inv(s) && Decoded(s, t) && s.agents[t].sent.Some? && s.agents[t].sent.value.SetStatus?
    ensures Inv(DoSetStatus(s, t))
  {
    var a := s.agents[t];
    assert AgentOk(s.db, s.h, t, a);
    if Writing(s, t) {
      assert RecordOk(s.db, s.h, s.ttl, a.payload.key);
      SetStatusRecords(s, t);
      SetStatusAttempts(s, t);
      SetStatusAgents(s, t);
      SetStatusFinishes(s, t);
    } else {
      AgentMoves(s, t, DoSetStatus(s, t).agents[t]);
    }
  }

  lemma PutReportRecords(s: System, t: Token)
    requires RecordsOk(s.db, s.h, s.ttl) && Writing(s, t) && s.agents[t].sent.value.PutReport?
    requires EntriesOk(s.db, s.h) && AgentOk(s.db, s.h, t, s.agents[t])
    ensures var s' := DoPutReport(s, t); RecordsOk(s'.db, s'.h, s'.ttl)
  {
    var s' := DoPutReport(s, t);
    forall k | k in s'.h.delivery ensures RecordOk(s'.db, s'.h, s'.ttl, k) {
      assert RecordOk(s.db, s.h, s.ttl, k);
    }
  }

  lemma PutReportAgents(s: System, t: Token)
    requires EntriesOk(s.db, s.h) && AgentsOk(s) && Writing(s, t) && s.agents[t].sent.value.PutReport?
    ensures AgentsOk(DoPutReport(s, t))
  {
    var s', a := DoPutReport(s, t), s.agents[t];
    assert AgentOk(s.db, s.h, t, a);
    assert AgentOk(s'.db, s'.h, t, s'.agents[t]);
    WriteAgents(s, s', t);
  }

  lemma PutReportFinishes(s: System, t: Token)
    requires FinishesOk(s) && Writing(s, t) && s.agents[t].sent.value.PutReport?
    requires AgentOk(s.db, s.h, t, s.agents[t])
    ensures FinishesOk(DoPutReport(s, t))
  {
    var s' := DoPutReport(s, t);
    forall k | k in s'.db.jobs ensures FinishedOk(s', k) {
      assert FinishedOk(s, k);
    }
  }

  lemma PutReportKeeps(s: System, t: Token)
    requires Inv(s) && Decoded(s, t) && s.agents[t].sent.Some? && s.agents[t].sent.value.PutReport?
    ensures Inv(DoPutReport(s, t))
  {
    var s' := DoPutReport(s, t);
    assert AgentOk(s.db, s.h, t, s.agents[t]);
    if Writing(s, t) {
      PutReportRecords(s, t);
      PutReportAgents(s, t);
      PutReportFinishes(s, t);
      AttemptsMove(s.agents, t, s'.agents[t], s.h.began, s.h.scanners);
    } else {
      AgentMoves(s, t, s'.agents[t]);
    }
  }

  /** Taking one entry out of the stream and the pending list. */
  lemma RemovedGroup(db: Database, id: EntryId)
    requires GroupOk(db)
    ensures GroupOk(db.(group := AckIn(db.group, id), stream := db.stream - {id}))
  {
  }

  lemma RetireRecord(s: System, t: Token)
    requires RecordsOk(s.db, s.h, s.ttl) && EntriesOk(s.db, s.h) && Conserved(s.db, s.h)
    requires Writing(s, t) && s.agents[t].sent.value.Retire? && AgentOk(s.db, s.h, t, s.agents[t])
    ensures var s' := DoRetire(s, t); RecordOk(s'.db, s'.h, s'.ttl, s.agents[t].payload.key)
  {
    assert RecordOk(s.db, s.h, s.ttl, s.agents[t].payload.key);
  }

  lemma RetireOtherRecord(s: System, t: Token, k: ScanJobKey)
    requires EntriesOk(s.db, s.h) && Writing(s, t) && s.agents[t].sent.value.Retire?
    requires AgentOk(s.db, s.h, t, s.agents[t])
    requires k in s.h.delivery && k != s.agents[t].payload.key && RecordOk(s.db, s.h, s.ttl, k)
    ensures var s' := DoRetire(s, t); k in s'.h.delivery && RecordOk(s'.db, s'.h, s'.ttl, k)
  {
    var s' := DoRetire(s, t);
    assert s.h.delivery[k] != s.agents[t].id;
    RecordStays(s.db, s.h, s'.db, s'.h, s.ttl, k);
  }

  lemma RetireRecords(s: System, t: Token)
    requires RecordsOk(s.db, s.h, s.ttl) && EntriesOk(s.db, s.h) && Conserved(s.db, s.h)
    requires Writing(s, t) && s.agents[t].sent.value.Retire? && AgentOk(s.db, s.h, t, s.agents[t])
    ensures var s' := DoRetire(s, t); RecordsOk(s'.db, s'.h, s'.ttl)
  {
    var s' := DoRetire(s, t);
    forall k | k in s'.h.delivery ensures RecordOk(s'.db, s'.h, s'.ttl, k) {
      if k == s.agents[t].payload.key {
        RetireRecord(s, t);
      } else {
        RetireOtherRecord(s, t, k);
      }
    }
  }

  lemma RetireAgents(s: System, t: Token)
    requires EntriesOk(s.db, s.h) && AgentsOk(s) && Writing(s, t) && s.agents[t].sent.value.Retire?
    ensures AgentsOk(DoRetire(s, t))
  {
    var s', a := DoRetire(s, t), s.agents[t];
    forall u | u in s'.agents ensures AgentOk(s'.db, s'.h, u, s'.agents[u]) {
      var b := s.agents[u];
      assert AgentOk(s.db, s.h, u, b);
      if u != t {
        if b.payload.Delivery? && b.payload.key == a.payload.key {
          OneEntryPerJob(s, t, u);
        }
        UndisturbedAgent(s.db, s.h, s'.db, s'.h, u, b);
      }
    }
  }

  lemma RetireEntries(s: System, t: Token)
    requires EntriesOk(s.db, s.h) && Conserved(s.db, s.h)
    requires Writing(s, t) && s.agents[t].sent.value.Retire? && s.agents[t].id in s.h.added
    ensures var s' := DoRetire(s, t); EntriesOk(s'.db, s'.h) && Conserved(s'.db, s'.h)
  {
    var s', id := DoRetire(s, t), s.agents[t].id;
    assert s'.db.stream == s.db.stream - {id} && s'.db.quarantine == s.db.quarantine;
    assert s'.h == s.h.(retired := if id in s.db.stream then s.h.retired + {id} else s.h.retired);
    assert EntriesOk(s'.db, s'.h);
  }

  lemma RetireFinishes(s: System, t: Token)
    requires FinishesOk(s) && Writing(s, t) && s.agents[t].sent.value.Retire?
    ensures FinishesOk(DoRetire(s, t))
  {
    FinishesStay(s, DoRetire(s, t));
  }

  lemma RetireKeeps(s: System, t: Token)
    requires Inv(s) && Decoded(s, t) && s.agents[t].sent == Some(Retire)
    ensures Inv(DoRetire(s, t))
  {
    var s' := DoRetire(s, t);
    assert AgentOk(s.db, s.h, t, s.agents[t]);
    if Writing(s, t) {
      RetireRecords(s, t);
      RetireAgents(s, t);
      RetireEntries(s, t);
      RetireFinishes(s, t);
      RemovedGroup(s.db, s.agents[t].id);
      AttemptsMove(s.agents, t, s'.agents[t], s.h.began, s.h.scanners);
    } else {
      AgentMoves(s, t, s'.agents[t]);
    }
  }

  lemma IsolateRecords(s: System, t: Token, fault: bool)
    requires RecordsOk(s.db, s.h, s.ttl) && EntriesOk(s.db, s.h) && Conserved(s.db, s.h)
    requires t in s.agents && AgentOk(s.db, s.h, t, s.agents[t])
    requires s.agents[t].sent.Some? && s.agents[t].sent.value.Isolate?
    ensures var s' := DoIsolate(s, t, fault); RecordsOk(s'.db, s'.h, s'.ttl)
  {
    var s', a := DoIsolate(s, t, fault), s.agents[t];
    forall k | k in s'.h.delivery ensures RecordOk(s'.db, s'.h, s'.ttl, k) {
      assert RecordOk(s.db, s.h, s.ttl, k);
      if s.h.delivery[k] != a.id {
        RecordStays(s.db, s.h, s'.db, s'.h, s.ttl, k);
      }
    }
  }

  lemma IsolateAgents(s: System, t: Token, fault: bool)
    requires EntriesOk(s.db, s.h) && AgentsOk(s) && t in s.agents
    requires s.agents[t].sent.Some? && s.agents[t].sent.value.Isolate?
    ensures AgentsOk(DoIsolate(s, t, fault))
  {
    var s', a := DoIsolate(s, t, fault), s.agents[t];
    forall u | u in s'.agents ensures AgentOk(s'.db, s'.h, u, s'.agents[u]) {
      var b := s.agents[u];
      assert AgentOk(s.db, s.h, u, b);
      if u != t {
        UndisturbedAgent(s.db, s.h, s'.db, s'.h, u, b);
      }
    }
  }

  lemma IsolateKeeps(s: System, t: Token, fault: bool)
    requires Inv(s) && t in s.agents && s.agents[t].sent.Some? && s.agents[t].sent.value.Isolate?
    ensures Inv(DoIsolate(s, t, fault))
  {
    var s', a := DoIsolate(s, t, fault), s.agents[t];
    assert AgentOk(s.db, s.h, t, a);
    IsolateRecords(s, t, fault);
    IsolateAgents(s, t, fault);
    RemovedGroup(s.db, a.id);
    FinishesStay(s, s');
    AttemptsMove(s.agents, t, s'.agents[t], s.h.began, s.h.scanners);
  }

  // ----- All events -----

  lemma InitHolds(s: System)
    requires Init(s)
    ensures Inv(s)
  {
  }

  predicate OfEnvironment(e: Event) {
    e.TimePasses? || e.EnqueueJob? || e.AddForeign? || e.LoseGroup? || e.EnsureGroup? || e.CleanUp?
    || e.EvictJob? || e.EvictReport?
  }

  lemma EnvironmentKeeps(s: System, e: Event)
    requires Inv(s) && Enabled(s, e) && OfEnvironment(e)
    ensures Inv(Next(s, e))
  {
    match e
    case TimePasses(d) => TickKeeps(s, d);
    case EnqueueJob(key, request, fault) => EnqueueKeeps(s, key, request, fault);
    case AddForeign(raw) => AddForeignKeeps(s, raw);
    case LoseGroup => GroupEventsKeep(s, e);
    case EnsureGroup => GroupEventsKeep(s, e);
    case CleanUp(_, _) => GroupEventsKeep(s, e);
    case EvictJob(_) => EvictionKeeps(s, e);
    case EvictReport(_) => EvictionKeeps(s, e);
  }

  lemma ExecuteKeeps(s: System, t: Token, fault: bool)
    requires Inv(s) && Enabled(s, Execute(t, fault))
    ensures Inv(DoExecute(s, t, fault))
  {
    match s.agents[t].sent.value
    case SetStatus(_, _, _, _) => SetStatusKeeps(s, t);
    case PutReport(_, _) => PutReportKeeps(s, t);
    case Retire => RetireKeeps(s, t);
    case Isolate(_) => IsolateKeeps(s, t, fault);
  }

  lemma AgentEventKeeps(s: System, e: Event)
    requires Inv(s) && Enabled(s, e) && !OfEnvironment(e) && !Local(e)
    ensures Inv(Next(s, e))
  {
    match e
    case Read(t, consumer, id) => ReadKeeps(s, t, consumer, id);
    case Reclaim(t, consumer, id) => ReclaimKeeps(s, t, consumer, id);
    case TakeLease(t, heard) => TakeLeaseKeeps(s, t, heard);
    case Execute(t, fault) => ExecuteKeeps(s, t, fault);
    case Invoke(t) => InvokeKeeps(s, t);
    case Renew(t) => RenewKeeps(s, t);
    case Release(t) => ReleaseKeeps(s, t);
  }

  lemma EventKeeps(s: System, e: Event)
    requires Inv(s) && Enabled(s, e)
    ensures Inv(Next(s, e))
  {
    if OfEnvironment(e) {
      EnvironmentKeeps(s, e);
    } else if Reading(e) {
      ReadingKeeps(s, e);
    } else if Local(e) {
      LocalKeeps(s, e);
    } else {
      AgentEventKeeps(s, e);
    }
  }
}
