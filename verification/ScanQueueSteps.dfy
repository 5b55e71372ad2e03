/** What a single event can and cannot change, from any state that satisfies the invariant. */
module ScanQueueSteps {
  import opened Wrappers
  import opened ScanJobs
  import opened Redis
  import opened ScanQueue
  import opened ScanQueueInvariant

  // ----- Events that leave every record alone -----

  /** Records, reports and their retirement are untouched; entries are only added or quarantined. */
  ghost predicate SameStore(s: System, s': System) {
    && s'.db.jobs == s.db.jobs && s'.db.reports == s.db.reports
    && s'.h.delivery == s.h.delivery && s'.h.retired == s.h.retired
    && s'.h.lostJobs == s.h.lostJobs && s'.h.lostReports == s.h.lostReports
    && s.h.added.Keys <= s'.h.added.Keys
    && s.db.quarantine.Keys <= s'.db.quarantine.Keys
  }

  ghost predicate Quiet(s: System, e: Event)
    requires Enabled(s, e)
  {
    match e
    case TimePasses(_) => false
    case EnqueueJob(_, _, _) => false
    case EvictJob(_) => false
    case EvictReport(_) => false
    case Execute(t, _) => s.agents[t].sent.value.Isolate?
    case _ => true
  }

  lemma QuietKeepsStore(s: System, e: Event)
    requires Enabled(s, e) && Quiet(s, e)
    ensures SameStore(s, Next(s, e))
  {
  }

  // ----- One record -----

  /** A terminal record and the report beside it either stay as they are or are gone. */
  ghost predicate Absorbed(s: System, s': System, key: ScanJobKey)
    requires key in s.db.jobs
  {
    key in s'.db.jobs ==>
      && s'.db.jobs[key].value == s.db.jobs[key].value
      && (key in s'.db.reports ==> key in s.db.reports && s'.db.reports[key].value == s.db.reports[key].value)
      && (key in s.db.reports && key !in s'.db.reports ==> key in s'.h.lostReports)
  }

  /** Once the entry is acknowledged, an expiry is never taken away or moved forward. */
  ghost predicate ExpiryKept(s: System, s': System, key: ScanJobKey)
    requires key in s.h.delivery && key in s.db.jobs
  {
    s.h.delivery[key] in s.h.retired && s.db.jobs[key].expiry.Some? && key in s'.db.jobs ==>
      && s'.db.jobs[key].expiry.Some?
      && s.db.jobs[key].expiry.value <= s'.db.jobs[key].expiry.value
  }

  /** All that can happen to the record of an accepted job in one step, or in many. */
  ghost predicate RecordChange(s: System, s': System, key: ScanJobKey)
    requires key in s.h.delivery
  {
    && key in s'.h.delivery && s'.h.delivery[key] == s.h.delivery[key]
    && (s.h.delivery[key] in s.h.retired ==> s.h.delivery[key] in s'.h.retired)
    && (key in s.h.lostReports ==> key in s'.h.lostReports)
    && (key in s.h.lostJobs ==> key in s'.h.lostJobs)
    && (key !in s.db.jobs ==> key !in s'.db.jobs && (key !in s.db.reports ==> key !in s'.db.reports))
    && (key in s.db.jobs ==>
          && ExpiryKept(s, s', key)
          && (s.db.jobs[key].value.status.Terminal() ==> Absorbed(s, s', key)))
  }

  lemma TickChange(s: System, d: nat, key: ScanJobKey)
    requires RecordsOk(s.db, s.h, s.ttl) && key in s.h.delivery
    ensures RecordChange(s, s.(db := Tick(s.db, d)), key)
  {
    TickKeepsReport(s.db, s.h, s.ttl, d, key);
  }

  lemma EnqueueChange(s: System, e: Event, key: ScanJobKey)
    requires Enabled(s, e) && e.EnqueueJob? && key in s.h.delivery
    ensures RecordChange(s, Next(s, e), key)
  {
  }

  lemma EvictionChange(s: System, e: Event, key: ScanJobKey)
    requires Enabled(s, e) && (e.EvictJob? || e.EvictReport?) && key in s.h.delivery
    ensures RecordChange(s, Next(s, e), key)
  {
  }

  lemma SetStatusChange(s: System, t: Token, key: ScanJobKey)
    requires Decoded(s, t) && s.agents[t].sent.Some? && s.agents[t].sent.value.SetStatus?
    requires AgentOk(s.db, s.h, t, s.agents[t]) && key in s.h.delivery && RecordOk(s.db, s.h, s.ttl, key)
    requires EntriesOk(s.db, s.h) && Conserved(s.db, s.h)
    ensures RecordChange(s, DoSetStatus(s, t), key)
  {
  }

  lemma PutReportChange(s: System, t: Token, key: ScanJobKey)
    requires Decoded(s, t) && s.agents[t].sent.Some? && s.agents[t].sent.value.PutReport?
    requires AgentOk(s.db, s.h, t, s.agents[t]) && key in s.h.delivery && RecordOk(s.db, s.h, s.ttl, key)
    requires EntriesOk(s.db, s.h) && Conserved(s.db, s.h)
    ensures RecordChange(s, DoPutReport(s, t), key)
  {
  }

  lemma RetireChange(s: System, t: Token, key: ScanJobKey)
    requires Decoded(s, t) && s.agents[t].sent == Some(Retire)
    requires key in s.h.delivery && RecordOk(s.db, s.h, s.ttl, key)
    ensures RecordChange(s, DoRetire(s, t), key)
  {
  }

  lemma ExecuteChange(s: System, t: Token, fault: bool, key: ScanJobKey)
    requires Inv(s) && Enabled(s, Execute(t, fault)) && !s.agents[t].sent.value.Isolate?
    requires key in s.h.delivery
    ensures RecordChange(s, DoExecute(s, t, fault), key)
  {
    assert AgentOk(s.db, s.h, t, s.agents[t]);
    assert RecordOk(s.db, s.h, s.ttl, key);
    match s.agents[t].sent.value
    case SetStatus(_, _, _, _) => SetStatusChange(s, t, key);
    case PutReport(_, _) => PutReportChange(s, t, key);
    case Retire => RetireChange(s, t, key);
  }

  lemma SameStoreChange(s: System, s': System, key: ScanJobKey)
    requires SameStore(s, s') && key in s.h.delivery
    ensures RecordChange(s, s', key)
  {
  }

  lemma OutsideChange(s: System, e: Event, key: ScanJobKey)
    requires RecordsOk(s.db, s.h, s.ttl) && Enabled(s, e) && key in s.h.delivery
    requires e.TimePasses? || e.EnqueueJob?
    ensures RecordChange(s, Next(s, e), key)
  {
    if e.TimePasses? {
      TickChange(s, e.d, key);
    } else {
      EnqueueChange(s, e, key);
    }
  }

  lemma StepChange(s: System, e: Event, key: ScanJobKey)
    requires Inv(s) && Enabled(s, e) && key in s.h.delivery
    ensures RecordChange(s, Next(s, e), key)
  {
    if Quiet(s, e) {
      QuietKeepsStore(s, e);
      SameStoreChange(s, Next(s, e), key);
    } else if e.Execute? {
      ExecuteChange(s, e.t, e.fault, key);
    } else if e.EvictJob? || e.EvictReport? {
      EvictionChange(s, e, key);
    } else {
      OutsideChange(s, e, key);
    }
  }

  // ----- Who writes -----

  /** Agent `t` would pass the fence of a script that writes the record of `key`. */
  ghost predicate CanWrite(s: System, t: Token, key: ScanJobKey) {
    Decoded(s, t) && s.agents[t].payload.key == key && Fenced(s.db, s.agents[t].id, t)
  }

  /** What is stored under `key` after the step was not stored before it. */
  ghost predicate Written(s: System, s': System, key: ScanJobKey) {
    || (key in s'.db.jobs && JobAt(s'.db, key) != JobAt(s.db, key))
    || (key in s'.db.reports && ReportAt(s'.db, key) != ReportAt(s.db, key))
  }

  lemma ExecuteWrites(s: System, t: Token, fault: bool, key: ScanJobKey)
    requires Enabled(s, Execute(t, fault)) && AgentOk(s.db, s.h, t, s.agents[t])
    requires Written(s, DoExecute(s, t, fault), key)
    ensures CanWrite(s, t, key)
  {
  }

  lemma OthersDoNotWrite(s: System, e: Event, key: ScanJobKey)
    requires Enabled(s, e) && !e.Execute? && key in s.h.delivery
    ensures !Written(s, Next(s, e), key)
  {
    if Quiet(s, e) {
      QuietKeepsStore(s, e);
    }
  }

  /** Whatever changes in the stored record or report of an accepted job is the work of its lease holder. */
  lemma OnlyTheHolderWrites(s: System, e: Event, key: ScanJobKey)
    requires Inv(s) && Enabled(s, e) && key in s.h.delivery
    requires Written(s, Next(s, e), key)
    ensures e.Execute? && CanWrite(s, e.t, key)
  {
    if e.Execute? {
      assert AgentOk(s.db, s.h, e.t, s.agents[e.t]);
      ExecuteWrites(s, e.t, e.fault, key);
    } else {
      OthersDoNotWrite(s, e, key);
    }
  }

  /** Agent `t` has tried for the lease and does not hold it. */
  ghost predicate Excluded(s: System, t: Token) {
    t in s.agents && !s.agents[t].phase.Received? && !Fenced(s.db, s.agents[t].id, t)
  }

  lemma ExecuteExcludes(s: System, u: Token, fault: bool, t: Token)
    requires Enabled(s, Execute(u, fault)) && Excluded(s, t)
    ensures Excluded(DoExecute(s, u, fault), t)
  {
  }

  lemma OthersExclude(s: System, e: Event, t: Token)
    requires Enabled(s, e) && !e.Execute? && Excluded(s, t)
    ensures Excluded(Next(s, e), t)
  {
  }

  lemma ExclusionStays(s: System, e: Event, t: Token)
    requires Enabled(s, e) && Excluded(s, t)
    ensures Excluded(Next(s, e), t)
  {
    match e
    case Execute(u, fault) => ExecuteExcludes(s, u, fault, t);
    case _ => OthersExclude(s, e, t);
  }

  /** One step under a held lease that its owner does not give away, and that does not end in time. */
  lemma LeaseStep(s: System, e: Event, t: Token)
    requires Enabled(s, e) && Timely(s.db) && t in s.agents && Fenced(s.db, s.agents[t].id, t)
    requires e != Release(t) && !(e.Execute? && e.t == t && s.agents[t].sent == Some(Retire))
    requires e.TimePasses? ==> s.db.now + e.d < s.db.leases[s.agents[t].id].until
    ensures var s', id := Next(s, e), s.agents[t].id;
      && t in s'.agents && s'.agents[t].id == id && Fenced(s'.db, id, t)
      && s.db.leases[id].until <= s'.db.leases[id].until
      && (e == Renew(t) ==> s'.db.leases[id].until == s'.db.now + 60000)
  {
    if e.Execute? {
      ExecuteKeepsLease(s, e.t, e.fault, t);
    } else {
      OthersKeepLease(s, e, t);
    }
  }

  lemma ExecuteKeepsLease(s: System, u: Token, fault: bool, t: Token)
    requires Enabled(s, Execute(u, fault)) && t in s.agents && Fenced(s.db, s.agents[t].id, t)
    requires !(u == t && s.agents[t].sent == Some(Retire))
    ensures var s', id := DoExecute(s, u, fault), s.agents[t].id;
      && t in s'.agents && s'.agents[t].id == id
      && id in s'.db.leases && s'.db.leases[id] == s.db.leases[id]
  {
  }

  lemma OthersKeepLease(s: System, e: Event, t: Token)
    requires Enabled(s, e) && !e.Execute? && Timely(s.db) && t in s.agents && Fenced(s.db, s.agents[t].id, t)
    requires e != Release(t)
    requires e.TimePasses? ==> s.db.now + e.d < s.db.leases[s.agents[t].id].until
    ensures var s', id := Next(s, e), s.agents[t].id;
      && t in s'.agents && s'.agents[t].id == id && Fenced(s'.db, id, t)
      && s.db.leases[id].until <= s'.db.leases[id].until
      && (e == Renew(t) ==> s'.db.leases[id].until == s'.db.now + 60000)
  {
  }

  // ----- Retention -----

  lemma StepGoesForward(s: System, e: Event)
    requires Enabled(s, e)
    ensures s.db.now <= Next(s, e).db.now
    ensures s.h.lostJobs <= Next(s, e).h.lostJobs
  {
  }

  /** Only time and eviction end a record. */
  lemma StepKeepsRecord(s: System, e: Event, key: ScanJobKey)
    requires Enabled(s, e) && key in s.db.jobs && key !in Next(s, e).h.lostJobs
    requires s.db.jobs[key].expiry.Some? ==> Next(s, e).db.now < s.db.jobs[key].expiry.value
    ensures key in Next(s, e).db.jobs
  {
    if Quiet(s, e) {
      QuietKeepsStore(s, e);
    }
  }

  /** An acknowledgement that passes the fence with a positive TTL, and would set another expiry. */
  ghost predicate MovesExpiry(s: System, e: Event, key: ScanJobKey)
    requires key in s.db.jobs
  {
    && e.Execute? && CanWrite(s, e.t, key) && s.agents[e.t].sent == Some(Retire)
    && s.ttl > 0 && s.db.jobs[key].expiry != Some(s.db.now + s.ttl)
  }

  ghost predicate ExpiryMoved(s: System, s': System, key: ScanJobKey) {
    key in s.db.jobs && key in s'.db.jobs && s'.db.jobs[key].expiry != s.db.jobs[key].expiry
  }

  lemma WriteKeepsExpiry(s: System, t: Token, fault: bool, key: ScanJobKey)
    requires EntriesOk(s.db, s.h) && Conserved(s.db, s.h)
    requires Enabled(s, Execute(t, fault)) && AgentOk(s.db, s.h, t, s.agents[t]) && s.agents[t].sent != Some(Retire)
    requires key in s.h.delivery && RecordOk(s.db, s.h, s.ttl, key)
    requires s.h.delivery[key] in s.h.retired && key in s.db.jobs
    ensures !ExpiryMoved(s, DoExecute(s, t, fault), key)
  {
  }

  lemma RetireMovesExpiry(s: System, t: Token, key: ScanJobKey)
    requires Decoded(s, t) && s.agents[t].sent == Some(Retire) && key in s.db.jobs
    ensures ExpiryMoved(s, DoRetire(s, t), key) <==> MovesExpiry(s, Execute(t, false), key)
  {
  }

  lemma OthersKeepExpiry(s: System, e: Event, key: ScanJobKey)
    requires Enabled(s, e) && !e.Execute?
    ensures !ExpiryMoved(s, Next(s, e), key)
  {
    if Quiet(s, e) {
      QuietKeepsStore(s, e);
    }
  }

  lemma ExecuteMovesExpiry(s: System, t: Token, fault: bool, key: ScanJobKey)
    requires EntriesOk(s.db, s.h) && Conserved(s.db, s.h)
    requires Enabled(s, Execute(t, fault)) && AgentOk(s.db, s.h, t, s.agents[t])
    requires key in s.h.delivery && RecordOk(s.db, s.h, s.ttl, key)
    requires s.h.delivery[key] in s.h.retired && key in s.db.jobs
    ensures ExpiryMoved(s, DoExecute(s, t, fault), key) <==> MovesExpiry(s, Execute(t, fault), key)
  {
    if s.agents[t].sent == Some(Retire) {
      RetireMovesExpiry(s, t, key);
    } else {
      WriteKeepsExpiry(s, t, fault, key);
    }
  }

  lemma ScriptMovesExpiry(s: System, t: Token, fault: bool, key: ScanJobKey)
    requires Inv(s) && Enabled(s, Execute(t, fault)) && key in s.h.delivery
    requires s.h.delivery[key] in s.h.retired && key in s.db.jobs
    ensures ExpiryMoved(s, DoExecute(s, t, fault), key) <==> MovesExpiry(s, Execute(t, fault), key)
  {
    assert AgentOk(s.db, s.h, t, s.agents[t]) && RecordOk(s.db, s.h, s.ttl, key);
    ExecuteMovesExpiry(s, t, fault, key);
  }

  /** Once an entry is acknowledged, the expiry of its record changes in exactly those steps in which
      somebody acknowledges it again, at another time than the one the expiry was last set at. */
  lemma ExpiryMovesExactly(s: System, e: Event, key: ScanJobKey)
    requires Inv(s) && Enabled(s, e) && key in s.h.delivery
    requires s.h.delivery[key] in s.h.retired && key in s.db.jobs
    ensures ExpiryMoved(s, Next(s, e), key) <==> MovesExpiry(s, e, key)
  {
    if e.Execute? {
      ScriptMovesExpiry(s, e.t, e.fault, key);
    } else {
      OthersKeepExpiry(s, e, key);
    }
  }

  // ----- Entries -----

  lemma StepConserves(s: System, e: Event)
    requires Enabled(s, e)
    ensures var s' := Next(s, e);
      && s.h.added.Keys <= s'.h.added.Keys
      && s.h.retired <= s'.h.retired
      && s.db.quarantine.Keys <= s'.db.quarantine.Keys
      && s.h.lostReports <= s'.h.lostReports
      && s'.ttl == s.ttl
  {
    if Quiet(s, e) {
      QuietKeepsStore(s, e);
    }
  }

  /** Quarantine: a failed copy changes nothing, and an entry that has left the stream is not copied again. */
  lemma QuarantineOnce(s: System, t: Token, fault: bool)
    requires Inv(s) && t in s.agents && s.agents[t].sent.Some? && s.agents[t].sent.value.Isolate?
    requires fault || s.agents[t].id in s.db.quarantine || s.agents[t].id in s.h.retired
    ensures DoIsolate(s, t, fault).db == s.db
  {
  }

  // ----- The finisher of a job -----

  /** Agent `t` has a Finished write with Redis that would pass the fence. */
  ghost predicate Finishing(s: System, t: Token, key: ScanJobKey) {
    && CanWrite(s, t, key)
    && s.agents[t].sent.Some? && s.agents[t].sent.value.SetStatus? && s.agents[t].sent.value.goal.Finish?
  }

  lemma ExecuteFinisher(s: System, t: Token, fault: bool, key: ScanJobKey)
    requires Enabled(s, Execute(t, fault)) && AgentOk(s.db, s.h, t, s.agents[t])
    ensures var s' := DoExecute(s, t, fault); key in s'.h.finisher ==>
      || (key in s.h.finisher && s'.h.finisher[key] == s.h.finisher[key])
      || (Finishing(s, t, key) && s'.h.finisher[key] == t
          && key in s'.db.jobs && s'.db.jobs[key].value.status.Finished?)
  {
  }

  lemma OthersKeepFinisher(s: System, e: Event)
    requires Enabled(s, e) && !e.Execute?
    ensures Next(s, e).h.finisher == s.h.finisher
  {
  }

  // ----- Scans -----

  function ScansOf(h: History, key: ScanJobKey): nat {
    if key in h.delivery && key in h.scans then h.scans[key] else 0
  }

  lemma InvokeCounts(s: System, t: Token, key: ScanJobKey)
    requires Inv(s) && Enabled(s, Invoke(t))
    ensures ScansOf(DoInvoke(s, t).h, key) == ScansOf(s.h, key) + (if s.agents[t].payload.key == key then 1 else 0)
  {
    assert AgentOk(s.db, s.h, t, s.agents[t]);
    assert RecordOk(s.db, s.h, s.ttl, s.agents[t].payload.key);
  }

  lemma OthersDoNotCount(s: System, e: Event, key: ScanJobKey)
    requires Enabled(s, e) && !e.Invoke?
    ensures ScansOf(Next(s, e).h, key) == ScansOf(s.h, key)
  {
  }

  // ----- Trying for a lease -----

  /** An agent goes on exactly if it took the lease and got to know; otherwise it is done with the message,
      though the lease may have been taken in its name. */
  lemma LeaseTriedExactly(s: System, t: Token, heard: bool)
    requires Enabled(s, TakeLease(t, heard))
    ensures var s', id := Next(s, TakeLease(t, heard)), s.agents[t].id;
      && (s'.agents[t].phase == Leased <==> id !in s.db.leases && heard)
      && (s'.agents[t].phase == Leased || s'.agents[t].phase == Done)
      && (Fenced(s'.db, id, t) <==> id !in s.db.leases || Fenced(s.db, id, t))
      && s'.db == s.db.(leases := s'.db.leases)
  {
  }

  // ----- What is never ruled out -----

  /** In every state time may pass, entries nobody can decode may arrive, the group may be lost or recreated,
      consumers may be cleaned up, and any record or report may be evicted; every agent may give up, at any
      point and again, a script it has sent may be executed, with or without success, and one that tried for
      its lease may renew it. */
  lemma AlwaysPossible(s: System, d: nat, raw: string, self: Option<Consumer>, maxIdle: nat, key: ScanJobKey, t: Token, fault: bool)
    ensures Enabled(s, TimePasses(d)) && Enabled(s, AddForeign(raw)) && Enabled(s, LoseGroup) && Enabled(s, EnsureGroup)
    ensures Enabled(s, CleanUp(self, maxIdle))
    ensures key in s.db.jobs ==> Enabled(s, EvictJob(key))
    ensures key in s.db.reports ==> Enabled(s, EvictReport(key))
    ensures key in s.db.jobs || key !in s.h.delivery ==> Enabled(s, EnqueueJob(key, raw, fault))
    ensures t in s.agents ==> Enabled(s, Abort(t))
    ensures t in s.agents && !s.agents[t].phase.Received? ==> Enabled(s, Renew(t))
    ensures t in s.agents && s.agents[t].sent.Some? && s.agents[t].payload.Delivery? ==> Enabled(s, Execute(t, fault))
  {
  }

  /** An agent that gives up keeps the script it has sent, which may therefore still take effect. */
  lemma GivingUpKeepsScript(s: System, t: Token)
    requires t in s.agents
    ensures Next(s, Abort(t)).db == s.db && Next(s, Abort(t)).agents[t].sent == s.agents[t].sent
    ensures Next(s, Abort(t)).agents[t].phase in {Closing, Done}
  {
  }

  // ----- Time -----

  /** No lease outlives a lease period that starts now, and nothing was delivered in the future. */
  ghost predicate Timely(db: Database) {
    && (forall i :: i in db.leases ==> db.leases[i].until <= db.now + LEASE_MILLIS)
    && (db.group.Some? ==> forall i :: i in db.group.value.pending ==> db.group.value.pending[i].since <= db.now)
  }

  lemma ExecuteTimely(s: System, t: Token, fault: bool)
    requires Timely(s.db) && Enabled(s, Execute(t, fault))
    ensures Timely(DoExecute(s, t, fault).db)
  {
  }

  lemma StepTimely(s: System, e: Event)
    requires Timely(s.db) && Enabled(s, e)
    ensures Timely(Next(s, e).db)
  {
    match e
    case Execute(t, fault) => ExecuteTimely(s, t, fault);
    case _ =>
  }
}
