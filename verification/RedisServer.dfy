/**
 The Lua scripts of the adapter, command by command, on a server that changes in place. Each is proved
 to make the one transition that module Redis gives for it, which is what the state machine uses.
 */
module RedisServer {
  import opened Wrappers
  import opened ScanJobs
  import opened Redis

  datatype ConsumerInfo = ConsumerInfo(name: Consumer, pending: nat, idle: int)

  function PendingOf(g: Group, name: Consumer): set<EntryId> {
    set id | id in g.pending && g.pending[id].consumer == name
  }

  /** What XGROUP DELCONSUMER leaves of a group. */
  function WithoutConsumer(g: Group, name: Consumer): Group {
    g.(pending := map id | id in g.pending && g.pending[id].consumer != name :: g.pending[id],
       consumers := g.consumers - {name})
  }

  lemma IdleConsumerLosesNothing(g: Group, name: Consumer, removed: set<Consumer>)
    requires |PendingOf(g, name)| == 0
    ensures WithoutConsumer(g.(consumers := g.consumers - removed), name)
         == g.(consumers := g.consumers - (removed + {name}))
  {
    assert forall id :: id in g.pending ==> id !in PendingOf(g, name);
    assert WithoutConsumer(g, name).pending == g.pending;
    assert g.consumers - removed - {name} == g.consumers - (removed + {name});
  }

  lemma RemovableHasNothing(g: Group, name: Consumer, self: Option<Consumer>, maxIdle: nat, now: nat)
    requires name in g.consumers
    ensures Removable(g, name, self, maxIdle, now) <==>
      |PendingOf(g, name)| == 0 && (self == Some(name) || now - g.consumers[name] > maxIdle)
  {
    if |PendingOf(g, name)| == 0 {
      assert forall id :: id in g.pending ==> id !in PendingOf(g, name);
    } else {
      var id :| id in PendingOf(g, name);
    }
  }

  class Server {
    var db: Database

    /** XADD never reuses an id. */
    ghost predicate Valid()
      reads this
    {
      forall id :: id in db.stream ==> id <= db.lastId
    }

    constructor ()
      ensures Valid() && db == EMPTY
    {
      db := EMPTY;
    }

    /** GET on a lease key. */
    function LeaseToken(id: EntryId): Option<Token>
      reads this
    {
      if id in db.leases then Some(db.leases[id].token) else None
    }

    // ----- Reading -----

    /** XREADGROUP with ">" and COUNT 1, when there is something to read. */
    method XReadGroup(consumer: Consumer, ghost some: EntryId) returns (id: EntryId)
      requires Valid() && db.group.Some? && some in db.stream && db.group.value.lastDelivered < some
      modifies this
      ensures Valid() && NextUndelivered(old(db), id) && id <= some
      ensures db == ReadGroup(old(db), id, consumer)
    {
      id := db.group.value.lastDelivered + 1;
      while id !in db.stream
        invariant db == old(db) && id <= some
        invariant forall j :: db.group.value.lastDelivered < j < id ==> j !in db.stream
        decreases some - id
      {
        id := id + 1;
      }
      db := ReadGroup(db, id, consumer);
    }

    // ----- Scripts of the store -----

    /** `setFails` is an out-of-memory reply to SET: the entry that was added before is taken back. */
    method RunEnqueue(job: ScanJob, payload: Payload, setFails: bool) returns (reply: Option<int>)
      requires Valid()
      modifies this
      ensures Valid()
      ensures (db, reply) == Enqueue(old(db), job, payload, setFails)
    {
      if job.key in db.jobs { // EXISTS
        return Some(0);
      }
      var delivery := db.lastId + 1;
      db := db.(lastId := delivery, stream := db.stream[delivery := payload]); // XADD
      if setFails {
        db := db.(stream := db.stream - {delivery}); // XDEL
        assert db.stream == old(db).stream;
        return None;
      }
      db := db.(jobs := db.jobs[job.key := Stored(job, None)]); // SET
      return Some(1);
    }

    method RunUpdateJob(key: ScanJobKey, id: EntryId, job: ScanJob, token: Token) returns (reply: int)
      requires Valid()
      modifies this
      ensures Valid()
      ensures (db, reply) == UpdateJob(old(db), key, id, job, token)
    {
      if LeaseToken(id) != Some(token) { // GET
        return -1;
      }
      if key !in db.jobs { // EXISTS
        return 0;
      }
      db := db.(jobs := db.jobs[key := Stored(job, None)]); // SET
      db := db.(reports := PersistIn(db.reports, key)); // PERSIST
      return 1;
    }

    method RunUpdateReport(key: ScanJobKey, id: EntryId, report: ScanReport, token: Token) returns (reply: int)
      requires Valid()
      modifies this
      ensures Valid()
      ensures (db, reply) == UpdateReport(old(db), key, id, report, token)
    {
      if LeaseToken(id) != Some(token) { // GET
        return -1;
      }
      if key !in db.jobs { // EXISTS
        return 0;
      }
      db := db.(reports := db.reports[key := Stored(report, None)]); // SET
      db := db.(jobs := PersistIn(db.jobs, key)); // PERSIST
      return 1;
    }

    method RunAcknowledge(key: ScanJobKey, id: EntryId, token: Token, ttl: int) returns (reply: int)
      requires Valid()
      modifies this
      ensures Valid()
      ensures (db, reply) == Acknowledge(old(db), key, id, token, ttl)
    {
      if LeaseToken(id) != Some(token) { // GET
        return 0;
      }
      if key !in db.jobs { // EXISTS
        return 0;
      }
      db := db.(group := AckIn(db.group, id)); // XACK
      db := db.(stream := db.stream - {id}); // XDEL
      if ttl > 0 {
        db := db.(jobs := ExpireIn(db.jobs, key, db.now + ttl)); // PEXPIRE
        db := db.(reports := ExpireIn(db.reports, key, db.now + ttl)); // PEXPIRE
      }
      db := db.(leases := db.leases - {id}); // DEL
      return 1;
    }

    // ----- Scripts of the worker -----

    method RunRenewLease(id: EntryId, token: Token, consumer: Consumer) returns (reply: Option<int>)
      requires Valid()
      modifies this
      ensures Valid()
      ensures (db, reply) == RenewLease(old(db), id, token, consumer)
    {
      if LeaseToken(id) != Some(token) { // GET
        return Some(0);
      }
      db := db.(leases := db.leases[id := db.leases[id].(until := db.now + LEASE_MILLIS)]); // PEXPIRE
      if db.group.None? {
        return None; // XCLAIM: NOGROUP
      }
      if id in db.group.value.pending {
        db := db.(group := Some(Deliver(db.group.value, id, consumer, db.now))); // XCLAIM
      }
      return Some(1);
    }

    method RunReleaseLease(id: EntryId, token: Token)
      requires Valid()
      modifies this
      ensures Valid()
      ensures db == ReleaseLease(old(db), id, token)
    {
      if LeaseToken(id) == Some(token) { // GET
        db := db.(leases := db.leases - {id}); // DEL
      }
    }

    method RunQuarantine(id: EntryId, copy: Quarantined, writeFails: bool) returns (reply: Option<int>)
      requires Valid()
      modifies this
      ensures Valid()
      ensures (db, reply) == QuarantineEntry(old(db), id, copy, writeFails)
    {
      if |db.stream| == 0 { // XLEN
        return Some(0);
      }
      if id !in db.stream { // XRANGE
        return Some(0);
      }
      if writeFails {
        return None;
      }
      db := db.(quarantine := db.quarantine[id := copy]); // HSET
      db := db.(group := AckIn(db.group, id)); // XACK
      db := db.(stream := db.stream - {id}); // XDEL
      return Some(1);
    }

    // ----- Consumers -----

    /** XINFO CONSUMERS: one line per consumer, in no particular order. */
    method XInfoConsumers() returns (infos: seq<ConsumerInfo>)
      requires db.group.Some?
      ensures forall i :: 0 <= i < |infos| ==> infos[i].name in db.group.value.consumers && Describes(infos[i])
      ensures forall name :: name in db.group.value.consumers ==> exists i :: 0 <= i < |infos| && infos[i].name == name
    {
      var g := db.group.value;
      infos := [];
      var todo := g.consumers.Keys;
      while todo != {}
        invariant todo <= g.consumers.Keys
        invariant forall i :: 0 <= i < |infos| ==> infos[i].name in g.consumers && Describes(infos[i])
        invariant forall name :: name in g.consumers && name !in todo ==>
          exists i :: 0 <= i < |infos| && infos[i].name == name
        decreases |todo|
      {
        var name :| name in todo;
        var before := infos;
        infos := infos + [ConsumerInfo(name, |PendingOf(g, name)|, db.now - g.consumers[name])];
        todo := todo - {name};
        assert infos[|before|].name == name;
        assert forall i :: 0 <= i < |before| ==> infos[i] == before[i];
      }
    }

    ghost predicate Describes(info: ConsumerInfo)
      requires db.group.Some? && info.name in db.group.value.consumers
      reads this
    {
      && info.pending == |PendingOf(db.group.value, info.name)|
      && info.idle == db.now - db.group.value.consumers[info.name]
    }

    /** Deleting consumers one by one loses no pending entry, because only those with none are deleted. */
    method RunCleanConsumers(self: Option<Consumer>, maxIdle: nat)
      requires Valid()
      modifies this
      ensures Valid()
      ensures db == CleanConsumers(old(db), self, maxIdle)
      ensures old(db).group.Some? ==> db.group.Some? && db.group.value.pending == old(db).group.value.pending
    {
      if db.group.None? {
        return; // XINFO CONSUMERS: NOGROUP
      }
      ghost var g := db.group.value;
      ghost var now: int := db.now;
      var infos := XInfoConsumers();
      ghost var removed: set<Consumer> := {};
      assert g.consumers - removed == g.consumers;
      for i := 0 to |infos|
        invariant forall j :: 0 <= j < |infos| ==>
          && infos[j].name in g.consumers
          && infos[j].pending == |PendingOf(g, infos[j].name)|
          && infos[j].idle == now - g.consumers[infos[j].name]
        invariant forall name :: name in removed ==> Removable(g, name, self, maxIdle, now)
        invariant forall j :: 0 <= j < i && Removable(g, infos[j].name, self, maxIdle, now) ==> infos[j].name in removed
        invariant db == old(db).(group := Some(g.(consumers := g.consumers - removed)))
      {
        var info := infos[i];
        RemovableHasNothing(g, info.name, self, maxIdle, now);
        if info.pending == 0 && (self == Some(info.name) || info.idle > maxIdle) {
          IdleConsumerLosesNothing(g, info.name, removed);
          db := db.(group := Some(WithoutConsumer(db.group.value, info.name))); // XGROUP DELCONSUMER
          removed := removed + {info.name};
        }
      }
      assert removed == set name | name in g.consumers && Removable(g, name, self, maxIdle, now);
    }
  }
}
