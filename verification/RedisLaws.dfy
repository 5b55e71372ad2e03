/** What the transitions of module Redis mean to those who come later: what is there after any wait. */
module RedisLaws {
  import opened Wrappers
  import opened ScanJobs
  import opened Redis

  // ----- Time -----

  /** A key is there until its expiry and not any longer; waiting changes nothing else. */
  lemma KeptUntilExpiry(db: Database, key: ScanJobKey, d: nat)
    ensures var later := Tick(db, d);
      && (key in later.jobs <==> key in db.jobs && (db.jobs[key].expiry.Some? ==> db.now + d < db.jobs[key].expiry.value))
      && (key in later.reports <==> key in db.reports && (db.reports[key].expiry.Some? ==> db.now + d < db.reports[key].expiry.value))
      && (key in later.jobs ==> later.jobs[key] == db.jobs[key])
      && (key in later.reports ==> later.reports[key] == db.reports[key])
      && later == db.(now := db.now + d, leases := later.leases, jobs := later.jobs, reports := later.reports)
  {
  }

  // ----- Leases -----

  /** Every other lease runs on as it would have. */
  ghost predicate OtherLeases(db: Database, db': Database, id: EntryId) {
    forall other :: other != id ==>
      && (other in db'.leases <==> other in db.leases)
      && (other in db.leases ==> db'.leases[other] == db.leases[other])
  }

  /** A free lease that is taken is held for exactly one minute, and a taken one is left alone. */
  lemma LeaseTaken(db: Database, id: EntryId, token: Token, d: nat)
    ensures id in db.leases ==> SetLease(db, id, token) == db
    ensures id !in db.leases ==>
      && (Fenced(Tick(SetLease(db, id, token), d), id, token) <==> d < 60000)
      && OtherLeases(db, SetLease(db, id, token), id)
  {
  }

  /** A renewal by the owner renews: from now on the lease is held for exactly one minute, whether or not the
      group is there, and a pending entry cannot be reclaimed in that time. */
  lemma LeaseRenewed(db: Database, id: EntryId, token: Token, consumer: Consumer, d: nat)
    requires Fenced(db, id, token)
    ensures var (renewed, reply) := RenewLease(db, id, token, consumer);
      && (Fenced(Tick(renewed, d), id, token) <==> d < 60000)
      && OtherLeases(db, renewed, id)
      && reply == (if db.group.Some? then Some(1) else None)
      && renewed == db.(leases := renewed.leases, group := renewed.group)
      && (db.group.Some? && id in db.group.value.pending ==>
            && renewed.group.Some? && id in renewed.group.value.pending
            && renewed.group.value.pending[id].consumer == consumer
            && (Claimable(Tick(renewed, d), id) <==> id in db.stream && d >= 60000))
      && (db.group.None? || id !in db.group.value.pending ==> renewed.group == db.group)
  {
  }

  /** A release by the owner lets anybody take the lease at once, and nothing else changes. */
  lemma LeaseReleased(db: Database, id: EntryId, token: Token, other: Token)
    requires Fenced(db, id, token)
    ensures var released := ReleaseLease(db, id, token);
      && Fenced(SetLease(released, id, other), id, other)
      && OtherLeases(db, released, id)
      && released == db.(leases := released.leases)
  {
  }

  // ----- Deliveries -----

  /** An entry that is handed out, for the first time or again, belongs to the consumer who got it, and can be
      taken over from there exactly after one minute without renewal. */
  ghost predicate HandedOut(db: Database, db': Database, id: EntryId, consumer: Consumer) {
    && db'.group.Some? && id in db'.group.value.pending && db'.group.value.pending[id].consumer == consumer
    && consumer in db'.group.value.consumers
    && (forall d: nat :: Claimable(Tick(db', d), id) <==> d >= 60000)
    && (forall other :: other != id ==> (other in db'.group.value.pending <==> db.group.Some? && other in db.group.value.pending))
    && db' == db.(group := db'.group)
  }

  lemma ReadHandsOut(db: Database, id: EntryId, consumer: Consumer)
    requires NextUndelivered(db, id)
    ensures HandedOut(db, ReadGroup(db, id, consumer), id, consumer)
    ensures !NextUndelivered(ReadGroup(db, id, consumer), id)
  {
    var db' := ReadGroup(db, id, consumer);
    forall d: nat ensures Claimable(Tick(db', d), id) <==> d >= 60000 {
      assert Tick(db', d).group == db'.group && Tick(db', d).stream == db.stream;
    }
  }

  lemma ReclaimHandsOut(db: Database, id: EntryId, consumer: Consumer)
    requires Claimable(db, id)
    ensures HandedOut(db, AutoClaim(db, id, consumer), id, consumer)
    ensures AutoClaim(db, id, consumer).group.value.lastDelivered == db.group.value.lastDelivered
  {
    var db' := AutoClaim(db, id, consumer);
    forall d: nat ensures Claimable(Tick(db', d), id) <==> d >= 60000 {
      assert Tick(db', d).group == db'.group && Tick(db', d).stream == db.stream;
    }
  }

  /** The next entry to read is the first one after all that were delivered. */
  lemma NextIsFirst(db: Database, id: EntryId, other: EntryId)
    requires NextUndelivered(db, id) && other in db.stream && other < id
    ensures db.group.Some? && other <= db.group.value.lastDelivered
  {
  }

  /** A lost group is recreated so that every entry of the stream is to be delivered again; an existing one stays. */
  lemma GroupRecreated(db: Database)
    ensures db.group.Some? ==> CreateGroup(db) == db
    ensures db.group.None? ==>
      && CreateGroup(db).group.Some? && CreateGroup(db) == db.(group := CreateGroup(db).group)
      && CreateGroup(db).group.value.pending.Keys == {}
      && forall id :: id in db.stream && id > 0 ==> CreateGroup(db).group.value.lastDelivered < id
  {
  }

  /** Cleaning removes exactly the consumers without a pending entry that are named, or have been idle for
      longer than allowed; pending entries stay. */
  lemma CleanedExactly(db: Database, self: Option<Consumer>, maxIdle: nat, name: Consumer)
    requires db.group.Some?
    ensures var g, cleaned := db.group.value, CleanConsumers(db, self, maxIdle);
      && cleaned.group.Some? && cleaned == db.(group := cleaned.group)
      && cleaned.group.value.pending == g.pending && cleaned.group.value.lastDelivered == g.lastDelivered
      && (name in cleaned.group.value.consumers <==>
            && name in g.consumers
            && ((exists id :: id in g.pending && g.pending[id].consumer == name)
                || (self != Some(name) && db.now - g.consumers[name] <= maxIdle)))
  {
  }

  // ----- Scripts -----

  /** Only the record and the report of this job may differ. */
  ghost predicate OnlyThisJob(db: Database, db': Database, key: ScanJobKey) {
    && db' == db.(jobs := db'.jobs, reports := db'.reports)
    && db'.jobs - {key} == db.jobs - {key} && db'.reports - {key} == db.reports - {key}
  }

  /** An effective status write stores the record for as long as anybody waits, and keeps the report as long. */
  lemma StatusWritten(db: Database, key: ScanJobKey, id: EntryId, job: ScanJob, token: Token, d: nat)
    ensures var (written, reply) := UpdateJob(db, key, id, job, token);
      && (reply == -1 <==> !Fenced(db, id, token))
      && (reply == 0 <==> Fenced(db, id, token) && key !in db.jobs)
      && (reply == 1 || (reply in {0, -1} && written == db))
      && OnlyThisJob(db, written, key)
      && (reply == 1 ==>
            JobAt(Tick(written, d), key) == Some(job) && ReportAt(Tick(written, d), key) == ReportAt(db, key))
  {
  }

  /** An effective report write stores the report for as long as anybody waits, and keeps the record as long. */
  lemma ReportWritten(db: Database, key: ScanJobKey, id: EntryId, report: ScanReport, token: Token, d: nat)
    ensures var (written, reply) := UpdateReport(db, key, id, report, token);
      && (reply == -1 <==> !Fenced(db, id, token))
      && (reply == 0 <==> Fenced(db, id, token) && key !in db.jobs)
      && (reply == 1 || (reply in {0, -1} && written == db))
      && OnlyThisJob(db, written, key)
      && (reply == 1 ==>
            JobAt(Tick(written, d), key) == JobAt(db, key) && ReportAt(Tick(written, d), key) == Some(report))
  {
  }

  /** An effective acknowledgement takes the entry out of stream, pending list and leases. With a positive TTL
      record and report are there for exactly that long, otherwise nothing changes for them. */
  lemma Acknowledged(db: Database, key: ScanJobKey, id: EntryId, token: Token, ttl: int, d: nat)
    ensures var (acked, reply) := Acknowledge(db, key, id, token, ttl);
      && (reply == 1 <==> Fenced(db, id, token) && key in db.jobs)
      && (reply == 1 || (reply == 0 && acked == db))
      && (reply == 1 ==>
            && acked.stream == db.stream - {id} && acked.leases == db.leases - {id}
            && acked.group.Some? == db.group.Some?
            && (db.group.Some? ==> acked.group.value.pending == db.group.value.pending - {id})
            && acked.jobs.Keys == db.jobs.Keys && acked.reports.Keys == db.reports.Keys
            && acked.jobs - {key} == db.jobs - {key} && acked.reports - {key} == db.reports - {key}
            && JobAt(acked, key) == JobAt(db, key) && ReportAt(acked, key) == ReportAt(db, key)
            && (ttl > 0 ==>
                  && (key in Tick(acked, d).jobs <==> d < ttl)
                  && (key in Tick(acked, d).reports <==> key in db.reports && d < ttl))
            && (ttl <= 0 ==> acked.jobs == db.jobs && acked.reports == db.reports))
  {
  }

  /** A new job is stored for as long as anybody waits, together with its entry, which is the last in the
      stream; a job that is there, or cannot be stored, leaves stream and records as they are. */
  lemma Enqueued(db: Database, job: ScanJob, payload: Payload, fails: bool, d: nat)
    requires forall i :: i in db.stream ==> i <= db.lastId
    ensures var (added, reply) := Enqueue(db, job, payload, fails);
      && (reply == Some(0) <==> job.key in db.jobs)
      && (reply == None <==> job.key !in db.jobs && fails)
      && (reply in {None, Some(0), Some(1)})
      && (reply != Some(1) ==> added.stream == db.stream && added.jobs == db.jobs)
      && added == db.(lastId := added.lastId, stream := added.stream, jobs := added.jobs)
      && (reply == Some(1) ==>
            && JobAt(Tick(added, d), job.key) == Some(job) && added.jobs - {job.key} == db.jobs - {job.key}
            && added.lastId !in db.stream && added.stream == db.stream[added.lastId := payload]
            && forall i :: i in db.stream ==> i < added.lastId)
  {
  }

  /** An entry is moved to quarantine with its copy, or is not there to be moved, or cannot be copied and stays. */
  lemma Isolated(db: Database, id: EntryId, copy: Quarantined, fails: bool)
    ensures var (moved, reply) := QuarantineEntry(db, id, copy, fails);
      && (reply == Some(0) <==> id !in db.stream)
      && (reply == None <==> id in db.stream && fails)
      && (reply == Some(1) || (reply in {None, Some(0)} && moved == db))
      && (reply == Some(1) ==>
            && id in moved.quarantine && moved.quarantine[id] == copy && moved.quarantine - {id} == db.quarantine - {id}
            && moved.stream == db.stream - {id}
            && (db.group.Some? ==> moved.group.Some? && moved.group.value.pending == db.group.value.pending - {id})
            && moved == db.(quarantine := moved.quarantine, stream := moved.stream, group := moved.group))
  {
  }

  // ----- The configured retention -----

  /** ttlMillis: a duration in nanoseconds as the scripts get it, where Go truncates toward zero. */
  function TtlMillis(nanos: int): int {
    var millis := if nanos >= 0 then nanos / 1000000 else -(-nanos / 1000000);
    if millis == 0 && nanos > 0 then 1 else millis
  }

  /** A retention is configured exactly if the scripts see one, and it is off by less than a millisecond. */
  lemma TtlMillisExact(nanos: int)
    ensures TtlMillis(nanos) > 0 <==> nanos > 0
    ensures -1000000 < TtlMillis(nanos) * 1000000 - nanos < 1000000
  {
  }
}
