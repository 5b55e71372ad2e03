/**
 The part of a Redis server the scan queue uses, as a value, and each command sequence the adapter
 runs on it as one transition of that value.

 A key whose expiry has passed cannot be observed, so `Tick` removes it in the step that passes it.
 */
module Redis {
  import opened Wrappers
  import opened ScanJobs

  /** Stream entry ids, in the order XADD generates them; 0 precedes every entry. */
  type EntryId = nat

  /** Lease tokens: what `makeIdentifier` returns, which is never the same twice. */
  type Token = nat

  type Consumer = nat

  const LEASE_MILLIS: nat := 60000

  /** A stream entry: either nothing a worker can execute, or one queued job. */
  datatype Payload = Undecodable(raw: string) | Delivery(key: ScanJobKey, request: string)

  datatype Quarantined = Quarantined(reason: string, payload: Payload)

  datatype Stored<+V> = Stored(value: V, expiry: Option<nat>)

  datatype Lease = Lease(token: Token, until: nat)

  /** A delivered, unacknowledged entry: who has it and since when. */
  datatype PendingEntry = PendingEntry(consumer: Consumer, since: nat)

  datatype Group = Group(
    lastDelivered: EntryId,
    pending: map<EntryId, PendingEntry>,
    consumers: map<Consumer, nat>)

  datatype Database = Database(
    now: nat,
    lastId: EntryId,
    stream: map<EntryId, Payload>,
    group: Option<Group>,
    leases: map<EntryId, Lease>,
    jobs: map<ScanJobKey, Stored<ScanJob>>,
    reports: map<ScanJobKey, Stored<ScanReport>>,
    quarantine: map<EntryId, Quarantined>)

  const EMPTY: Database := Database(0, 0, map[], None, map[], map[], map[], map[])

  // ----- Commands on one key -----

  function PersistIn<V>(m: map<ScanJobKey, Stored<V>>, key: ScanJobKey): map<ScanJobKey, Stored<V>> {
    if key in m then m[key := m[key].(expiry := None)] else m
  }

  function ExpireIn<V>(m: map<ScanJobKey, Stored<V>>, key: ScanJobKey, at: nat): map<ScanJobKey, Stored<V>> {
    if key in m then m[key := m[key].(expiry := Some(at))] else m
  }

  /** XACK, which does nothing on a group that does not exist. */
  function AckIn(group: Option<Group>, id: EntryId): Option<Group> {
    if group.Some? then Some(group.value.(pending := group.value.pending - {id})) else None
  }

  predicate Unexpired<V>(stored: Stored<V>, now: nat) {
    stored.expiry.None? || now < stored.expiry.value
  }

  // ----- Leases -----

  /** The fence of every script that writes: the lease of this entry carries this token. */
  predicate Fenced(db: Database, id: EntryId, token: Token) {
    id in db.leases && db.leases[id].token == token
  }

  function SetLease(db: Database, id: EntryId, token: Token): Database {
    if id in db.leases then db
    else db.(leases := db.leases[id := Lease(token, db.now + LEASE_MILLIS)])
  }

  function ReleaseLease(db: Database, id: EntryId, token: Token): Database {
    if Fenced(db, id, token) then db.(leases := db.leases - {id}) else db
  }

  /** The reply is an error, after the lease was already extended, when the group is missing. */
  function RenewLease(db: Database, id: EntryId, token: Token, consumer: Consumer): (Database, Option<int>) {
    if !Fenced(db, id, token) then
      (db, Some(0))
    else
      var extended := db.(leases := db.leases[id := Lease(token, db.now + LEASE_MILLIS)]);
      if db.group.None? then
        (extended, None)
      else if id !in db.group.value.pending then
        (extended, Some(1))
      else
        (extended.(group := Some(Deliver(db.group.value, id, consumer, db.now))), Some(1))
  }

  // ----- Consumer group -----

  function Deliver(group: Group, id: EntryId, consumer: Consumer, now: nat): Group {
    group.(pending := group.pending[id := PendingEntry(consumer, now)],
           consumers := group.consumers[consumer := now])
  }

  /** XREADGROUP with ">" and COUNT 1 can only deliver the first entry after the last delivered one. */
  ghost predicate NextUndelivered(db: Database, id: EntryId) {
    && db.group.Some?
    && id in db.stream
    && db.group.value.lastDelivered < id
    && forall j :: j in db.stream && db.group.value.lastDelivered < j ==> id <= j
  }

  function ReadGroup(db: Database, id: EntryId, consumer: Consumer): Database
    requires db.group.Some?
  {
    db.(group := Some(Deliver(db.group.value, id, consumer, db.now).(lastDelivered := id)))
  }

  /** XAUTOCLAIM may take over an entry that has been idle for a whole lease. */
  predicate Claimable(db: Database, id: EntryId) {
    && db.group.Some?
    && id in db.group.value.pending
    && id in db.stream
    && db.group.value.pending[id].since + LEASE_MILLIS <= db.now
  }

  function AutoClaim(db: Database, id: EntryId, consumer: Consumer): Database
    requires db.group.Some?
  {
    db.(group := Some(Deliver(db.group.value, id, consumer, db.now)))
  }

  /** XGROUP CREATE MKSTREAM from "0"; an existing group is left alone. */
  function CreateGroup(db: Database): Database {
    if db.group.Some? then db else db.(group := Some(Group(0, map[], map[])))
  }

  /** A consumer `cleanConsumers` removes: it has nothing pending, and it is the one named or has been idle too long. */
  predicate Removable(group: Group, name: Consumer, self: Option<Consumer>, maxIdle: nat, now: nat) {
    && name in group.consumers
    && (forall id :: id in group.pending ==> group.pending[id].consumer != name)
    && (self == Some(name) || group.consumers[name] + maxIdle < now)
  }

  function CleanConsumers(db: Database, self: Option<Consumer>, maxIdle: nat): Database {
    if db.group.None? then db
    else
      var g := db.group.value;
      var removed := set name | name in g.consumers && Removable(g, name, self, maxIdle, db.now);
      db.(group := Some(g.(consumers := g.consumers - removed)))
  }

  // ----- Scripts of the store -----

  /** Replies 1 when applied and 0 when the job already exists; a failed SET takes the entry back. */
  function Enqueue(db: Database, job: ScanJob, payload: Payload, setFails: bool): (Database, Option<int>) {
    if job.key in db.jobs then
      (db, Some(0))
    else if setFails then
      (db.(lastId := db.lastId + 1), None)
    else
      (db.(lastId := db.lastId + 1,
           stream := db.stream[db.lastId + 1 := payload],
           jobs := db.jobs[job.key := Stored(job, None)]), Some(1))
  }

  function UpdateJob(db: Database, key: ScanJobKey, id: EntryId, job: ScanJob, token: Token): (Database, int) {
    if !Fenced(db, id, token) then (db, -1)
    else if key !in db.jobs then (db, 0)
    else (db.(jobs := db.jobs[key := Stored(job, None)], reports := PersistIn(db.reports, key)), 1)
  }

  function UpdateReport(db: Database, key: ScanJobKey, id: EntryId, report: ScanReport, token: Token): (Database, int) {
    if !Fenced(db, id, token) then (db, -1)
    else if key !in db.jobs then (db, 0)
    else (db.(jobs := PersistIn(db.jobs, key), reports := db.reports[key := Stored(report, None)]), 1)
  }

  /** Retires the entry whether or not it is still in the stream; retention starts only with a positive TTL. */
  function Acknowledge(db: Database, key: ScanJobKey, id: EntryId, token: Token, ttl: int): (Database, int) {
    if !Fenced(db, id, token) then (db, 0)
    else if key !in db.jobs then (db, 0)
    else
      (db.(group := AckIn(db.group, id),
           stream := db.stream - {id},
           jobs := if ttl > 0 then ExpireIn(db.jobs, key, db.now + ttl) else db.jobs,
           reports := if ttl > 0 then ExpireIn(db.reports, key, db.now + ttl) else db.reports,
           leases := db.leases - {id}), 1)
  }

  /** Not fenced by the lease; a failed HSET changes nothing and is an error reply. */
  function QuarantineEntry(db: Database, id: EntryId, copy: Quarantined, writeFails: bool): (Database, Option<int>) {
    if id !in db.stream then
      (db, Some(0))
    else if writeFails then
      (db, None)
    else
      (db.(quarantine := db.quarantine[id := copy],
           group := AckIn(db.group, id),
           stream := db.stream - {id}), Some(1))
  }

  // ----- Time -----

  function Tick(db: Database, d: nat): Database {
    var now := db.now + d;
    db.(now := now,
        leases := map id | id in db.leases && now < db.leases[id].until :: db.leases[id],
        jobs := map k | k in db.jobs && Unexpired(db.jobs[k], now) :: db.jobs[k],
        reports := map k | k in db.reports && Unexpired(db.reports[k], now) :: db.reports[k])
  }

  function JobAt(db: Database, key: ScanJobKey): Option<ScanJob> {
    if key in db.jobs then Some(db.jobs[key].value) else None
  }

  function ReportAt(db: Database, key: ScanJobKey): Option<ScanReport> {
    if key in db.reports then Some(db.reports[key].value) else None
  }
}
