/**
 Accepting a scan request: validation, the default capability, and the fan-out of one request into one
 queued job for every report it asks for.
 */
module Enqueuer {
  import opened Wrappers
  import opened ScanJobs
  import opened ScanJobKeys
  import opened Separators
  import opened Redis
  import opened RedisServer
  import opened ScanQueue
  import opened ScanQueueInvariant
  import opened ScanQueueTheorems

  datatype Capability = Capability(typ: string, mimeTypes: seq<MimeType>, sbomMediaTypes: Option<seq<string>>)

  const VULNERABILITY := "vulnerability"
  const SBOM := "sbom"

  const SPDX := "application/spdx+json"
  const CYCLONE_DX := "application/vnd.cyclonedx+json"

  datatype ScanRequest = ScanRequest(capabilities: seq<Capability>, registryUrl: string, repository: string, digest: string)

  datatype Rejection = Rejection(code: nat, message: string)

  // ----- Validation -----

  /** The parameters a capability carries, where a missing object counts as an empty one. */
  function Requested(c: Capability): seq<string> {
    if c.sbomMediaTypes.Some? then c.sbomMediaTypes.value else []
  }

  predicate SupportedMedia(mediaType: string) {
    mediaType == "application/spdx+json" || mediaType == "application/vnd.cyclonedx+json"
  }

  predicate Acceptable(c: Capability) {
    && c.mimeTypes != []
    && (c.typ == "vulnerability" || c.typ == "sbom")
    && (c.typ == "sbom" ==>
          && c.sbomMediaTypes.Some? && c.sbomMediaTypes.value != []
          && forall m :: m in c.sbomMediaTypes.value ==> SupportedMedia(m))
  }

  /** Why one capability is refused: the first check that fails decides, and the first media type that is
      not supported is named. `quote` is how fmt renders %q. */
  ghost predicate RefusedWith(c: Capability, r: Rejection, quote: string -> string) {
    if c.mimeTypes == [] then r == Rejection(400, "\"enabled_capabilities.produces_mime_types\" is missing\"")
    else if c.typ != "vulnerability" && c.typ != "sbom" then r == Rejection(422, "invalid scan type")
    else if Requested(c) == [] then r == Rejection(422, "missing SBOM media type")
    else
      exists i: nat :: FirstUnsupported(Requested(c), i)
        && r == Rejection(422, "unsupported SBOM media type: " + quote(Requested(c)[i]))
  }

  predicate FirstUnsupported(media: seq<string>, i: nat) {
    && i < |media| && !SupportedMedia(media[i])
    && forall j :: 0 <= j < i ==> SupportedMedia(media[j])
  }

  predicate FirstUnacceptable(caps: seq<Capability>, i: nat) {
    && i < |caps| && !Acceptable(caps[i])
    && forall j :: 0 <= j < i ==> Acceptable(caps[j])
  }

  /** Accepts exactly the lists of acceptable capabilities; otherwise the first one that is not decides. */
  method ValidateCapabilities(caps: seq<Capability>, quote: string -> string) returns (error: Option<Rejection>)
    ensures error == None <==> forall c :: c in caps ==> Acceptable(c)
    ensures error.Some? ==> exists i: nat :: FirstUnacceptable(caps, i) && RefusedWith(caps[i], error.value, quote)
  {
    for i := 0 to |caps|
      invariant forall j :: 0 <= j < i ==> Acceptable(caps[j])
    {
      var c := caps[i];
      assert c in caps;
      if |c.mimeTypes| == 0 {
        assert FirstUnacceptable(caps, i);
        return Some(Rejection(400, "\"enabled_capabilities.produces_mime_types\" is missing\""));
      }
      if c.typ != VULNERABILITY && c.typ != SBOM {
        assert FirstUnacceptable(caps, i);
        return Some(Rejection(422, "invalid scan type"));
      }
      if c.typ == SBOM {
        var params := Requested(c);
        if |params| == 0 {
          assert FirstUnacceptable(caps, i);
          return Some(Rejection(422, "missing SBOM media type"));
        }
        for j := 0 to |params|
          invariant forall l :: 0 <= l < j ==> SupportedMedia(params[l])
        {
          if params[j] != SPDX && params[j] != CYCLONE_DX {
            assert FirstUnsupported(params, j) && params[j] in params;
            assert FirstUnacceptable(caps, i);
            return Some(Rejection(422, "unsupported SBOM media type: " + quote(params[j])));
          }
        }
      }
    }
    return None;
  }

  /** What else a request must name: a registry with a URL that parses, a repository and a digest. */
  predicate Addressed(request: ScanRequest, parses: string -> bool) {
    request.registryUrl != "" && parses(request.registryUrl) && request.repository != "" && request.digest != ""
  }

  /** The first missing part decides the message. */
  function AddressError(request: ScanRequest, parses: string -> bool): Rejection
    requires !Addressed(request, parses)
  {
    Rejection(422,
      if request.registryUrl == "" then "missing registry.url"
      else if !parses(request.registryUrl) then "invalid registry.url"
      else if request.repository == "" then "missing artifact.repository"
      else "missing artifact.digest")
  }

  predicate Proper(request: ScanRequest, parses: string -> bool) {
    (forall c :: c in request.capabilities ==> Acceptable(c)) && Addressed(request, parses)
  }

  /** Accepts exactly the valid requests. The capabilities are checked before the rest. */
  method ValidateScanRequest(request: ScanRequest, parses: string -> bool, quote: string -> string)
    returns (error: Option<Rejection>)
    ensures error == None <==> Proper(request, parses)
    ensures error.Some? ==>
      if exists c :: c in request.capabilities && !Acceptable(c) then
        exists i: nat :: FirstUnacceptable(request.capabilities, i) && RefusedWith(request.capabilities[i], error.value, quote)
      else
        !Addressed(request, parses) && error.value == AddressError(request, parses)
  {
    error := ValidateCapabilities(request.capabilities, quote);
    if error.Some? {
      return;
    }
    if request.registryUrl == "" {
      return Some(Rejection(422, "missing registry.url"));
    }
    if !parses(request.registryUrl) {
      return Some(Rejection(422, "invalid registry.url"));
    }
    if request.repository == "" {
      return Some(Rejection(422, "missing artifact.repository"));
    }
    if request.digest == "" {
      return Some(Rejection(422, "missing artifact.digest"));
    }
  }

  /** A request that names no capability asks for the vulnerability report. */
  function WithDefault(caps: seq<Capability>): seq<Capability> {
    if caps == [] then [Capability(VULNERABILITY, [VULNERABILITY_REPORT], None)] else caps
  }

  // ----- What a request asks for -----

  /** A vulnerability scan has one report per MIME type, whatever parameters came with it. */
  function MediaTypes(c: Capability): seq<string> {
    if c.typ == VULNERABILITY then [""] else Requested(c)
  }

  /** The product of request id, MIME types and media types. */
  ghost function Wanted(id: string, caps: seq<Capability>): set<ScanJobKey> {
    set c, media, mime | c in caps && media in MediaTypes(c) && mime in c.mimeTypes :: ScanJobKey(id, mime, media)
  }

  ghost function WantedBy(id: string, c: Capability, media: seq<string>): set<ScanJobKey> {
    set m, mime | m in media && mime in c.mimeTypes :: ScanJobKey(id, mime, m)
  }

  ghost function WantedAs(id: string, media: string, mimes: seq<MimeType>): set<ScanJobKey> {
    set mime | mime in mimes :: ScanJobKey(id, mime, media)
  }

  lemma WantedStep(id: string, caps: seq<Capability>, i: nat)
    requires i < |caps|
    ensures Wanted(id, caps[..i + 1]) == Wanted(id, caps[..i]) + WantedBy(id, caps[i], MediaTypes(caps[i]))
    ensures Wanted(id, caps[..i + 1]) <= Wanted(id, caps)
  {
    assert caps[..i + 1] == caps[..i] + [caps[i]];
  }

  lemma WantedByStep(id: string, c: Capability, media: seq<string>, i: nat)
    requires i < |media|
    ensures WantedBy(id, c, media[..i + 1]) == WantedBy(id, c, media[..i]) + WantedAs(id, media[i], c.mimeTypes)
    ensures WantedBy(id, c, media[..i + 1]) <= WantedBy(id, c, media)
  {
    assert media[..i + 1] == media[..i] + [media[i]];
  }

  lemma WantedAsStep(id: string, media: string, mimes: seq<MimeType>, i: nat)
    requires i < |mimes|
    ensures WantedAs(id, media, mimes[..i + 1]) == WantedAs(id, media, mimes[..i]) + {ScanJobKey(id, mimes[i], media)}
    ensures WantedAs(id, media, mimes[..i + 1]) <= WantedAs(id, media, mimes)
  {
    assert mimes[..i + 1] == mimes[..i] + [mimes[i]];
  }

  /** Nothing was ever accepted, and nothing is stored, under this request id. */
  ghost predicate Fresh(s: System, id: string) {
    (forall k :: k in s.h.delivery ==> k.id != id) && (forall k :: k in s.db.jobs ==> k.id != id)
  }

  lemma WantedByGrows(id: string, c: Capability, media: seq<string>, i: nat,
                      done: set<ScanJobKey>, last: set<ScanJobKey>, done': set<ScanJobKey>)
    requires i < |media| && last == done + WantedBy(id, c, media[..i])
    requires last <= done' <= last + WantedAs(id, media[i], c.mimeTypes)
    ensures done <= done' <= done + WantedBy(id, c, media)
    ensures done' == last + WantedAs(id, media[i], c.mimeTypes) ==> done' == done + WantedBy(id, c, media[..i + 1])
  {
    WantedByStep(id, c, media, i);
  }

  lemma FreshKey(s: System, key: ScanJobKey)
    requires Fresh(s, key.id)
    ensures key !in s.db.jobs && key !in s.h.delivery
  {
  }

  /** A capability asks for this report: in one of its MIME types, and for a vulnerability scan without a media
      type, for any other in one of the media types it lists. */
  predicate AsksFor(c: Capability, key: ScanJobKey) {
    && key.mimeType in c.mimeTypes
    && if c.typ == "vulnerability" then key.mediaType == ""
       else c.sbomMediaTypes.Some? && key.mediaType in c.sbomMediaTypes.value
  }

  /** The list of a request asks for this report under this id; an empty list asks for the vulnerability report. */
  ghost predicate Asked(caps: seq<Capability>, id: string, key: ScanJobKey) {
    && key.id == id
    && if caps == [] then
         && key.mediaType == ""
         && key.mimeType == MimeType("application", "vnd.security.vulnerability.report", map["version" := "1.1"])
       else
         exists c :: c in caps && AsksFor(c, key)
  }

  /** The wanted jobs are exactly what the capabilities ask for. */
  lemma WantedExactly(id: string, caps: seq<Capability>, key: ScanJobKey)
    ensures key in Wanted(id, caps) <==> key.id == id && exists c :: c in caps && AsksFor(c, key)
  {
    if c :| key.id == id && c in caps && AsksFor(c, key) {
      assert key.mediaType in MediaTypes(c);
      assert key == ScanJobKey(id, key.mimeType, key.mediaType);
    }
    if key in Wanted(id, caps) {
      var c, media, mime :| c in caps && media in MediaTypes(c) && mime in c.mimeTypes && key == ScanJobKey(id, mime, media);
      assert AsksFor(c, key);
    }
  }

  lemma AskedExactly(id: string, caps: seq<Capability>, key: ScanJobKey)
    ensures key in Wanted(id, WithDefault(caps)) <==> Asked(caps, id, key)
  {
    WantedExactly(id, WithDefault(caps), key);
    if caps == [] {
      var c := WithDefault(caps)[0];
      assert c in WithDefault(caps);
      assert forall d :: d in WithDefault(caps) ==> d == c;
    }
  }

  /** Every acceptable request asks for something. */
  lemma SomethingWanted(id: string, caps: seq<Capability>)
    requires forall c :: c in caps ==> Acceptable(c)
    ensures Wanted(id, WithDefault(caps)) != {}
  {
    var c := WithDefault(caps)[0];
    assert Acceptable(c);
    assert c.mimeTypes[0] in c.mimeTypes && MediaTypes(c)[0] in MediaTypes(c);
    assert ScanJobKey(id, c.mimeTypes[0], MediaTypes(c)[0]) in Wanted(id, WithDefault(caps));
  }

  // ----- The state of a fan-out -----

  ghost predicate Entry(before: Database, db: Database, i: EntryId, key: ScanJobKey, request: string) {
    i in db.stream && i !in before.stream && db.stream[i] == Delivery(key, request)
  }

  /** The jobs in `done` are stored as Queued without expiry, each with one delivery of its own; nothing
      else was added, and nothing that was there has changed. */
  ghost predicate FannedOut(before: Database, db: Database, done: set<ScanJobKey>, request: string) {
    && db == before.(jobs := db.jobs, stream := db.stream, lastId := db.lastId)
    && JobsFannedOut(before, db, done)
    && EntriesFannedOut(before, db, done, request)
  }

  ghost predicate JobsFannedOut(before: Database, db: Database, done: set<ScanJobKey>) {
    && db.jobs.Keys == before.jobs.Keys + done
    && (forall k :: k in before.jobs ==> k !in done && db.jobs[k] == before.jobs[k])
    && (forall k :: k in done ==> db.jobs[k] == Stored(ScanJob(k, Queued, 0, "", None, NO_REPORT), None))
  }

  ghost predicate EntriesFannedOut(before: Database, db: Database, done: set<ScanJobKey>, request: string) {
    && (forall i :: i in before.stream ==> i in db.stream && db.stream[i] == before.stream[i])
    && (forall i :: i in db.stream && i !in before.stream ==> db.stream[i].Delivery? && db.stream[i].key in done && db.stream[i].request == request)
    && (forall k :: k in done ==> exists i :: Entry(before, db, i, k, request))
    && (forall i, j, k :: Entry(before, db, i, k, request) && Entry(before, db, j, k, request) ==> i == j)
  }

  lemma OneMoreEntry(before: Database, db: Database, done: set<ScanJobKey>, id: EntryId, key: ScanJobKey, request: string)
    requires EntriesFannedOut(before, db, done, request) && key !in done && id !in db.stream
    ensures EntriesFannedOut(before, db.(stream := db.stream[id := Delivery(key, request)]), done + {key}, request)
  {
    var db' := db.(stream := db.stream[id := Delivery(key, request)]);
    assert Entry(before, db', id, key, request);
    forall k | k in done ensures exists i :: Entry(before, db', i, k, request) {
      var i :| Entry(before, db, i, k, request);
      assert Entry(before, db', i, k, request);
    }
    forall i, j, k | Entry(before, db', i, k, request) && Entry(before, db', j, k, request) ensures i == j {
      assert i != id ==> Entry(before, db, i, k, request);
      assert j != id ==> Entry(before, db, j, k, request);
    }
  }

  lemma SameEntries(before: Database, db: Database, db': Database, done: set<ScanJobKey>, request: string)
    requires EntriesFannedOut(before, db, done, request) && db'.stream == db.stream
    ensures EntriesFannedOut(before, db', done, request)
  {
    forall k | k in done ensures exists i :: Entry(before, db', i, k, request) {
      var i :| Entry(before, db, i, k, request);
      assert Entry(before, db', i, k, request);
    }
    forall i, j, k | Entry(before, db', i, k, request) && Entry(before, db', j, k, request) ensures i == j {
      assert Entry(before, db, i, k, request) && Entry(before, db, j, k, request);
    }
  }

  /** One execution of the enqueue script: it adds the job and its delivery, or leaves everything alone
      when the job is already there or cannot be stored. */
  lemma OneMore(before: Database, db: Database, done: set<ScanJobKey>, key: ScanJobKey, request: string, fails: bool)
    requires FannedOut(before, db, done, request) && key !in before.jobs
    requires forall i :: i in db.stream ==> i <= db.lastId
    ensures var (db', reply) := Enqueue(db, NewScanJob(key), Delivery(key, request), fails);
      && FannedOut(before, db', if reply == Some(1) then done + {key} else done, request)
      && (reply == Some(1) ==> key !in done)
      && (reply == Some(0) ==> key in done)
  {
    var (db', reply) := Enqueue(db, NewScanJob(key), Delivery(key, request), fails);
    if reply == Some(1) {
      var added := db.(stream := db.stream[db.lastId + 1 := Delivery(key, request)]);
      OneMoreEntry(before, db, done, db.lastId + 1, key, request);
      SameEntries(before, added, db', done + {key}, request);
      assert JobsFannedOut(before, db', done + {key});
    } else {
      SameEntries(before, db, db', done, request);
    }
  }

  // ----- Fan-out -----

  /** How one store write goes: the client executes the script once for every element, retrying after a
      lost reply, each time with or without room to store the job; `heard` says whether it ever got the
      last reply. */
  datatype Call = Call(executions: seq<bool>, heard: bool)

  /** Since `start` exactly the jobs in `done` were accepted, and they are stored with their deliveries. */
  ghost predicate Grown(start: System, s: System, done: set<ScanJobKey>, request: string) {
    && FannedOut(start.db, s.db, done, request)
    && s.h.delivery.Keys == start.h.delivery.Keys + done
    && s.agents == start.agents && s.ttl == start.ttl
  }

  lemma EnqueueAccepts(s: System, key: ScanJobKey, request: string, fails: bool)
    requires key in s.h.delivery ==> key in s.db.jobs
    ensures var s' := DoEnqueue(s, key, request, fails);
      var (db, reply) := Redis.Enqueue(s.db, NewScanJob(key), Delivery(key, request), fails);
      && s'.db == db && s'.agents == s.agents && s'.ttl == s.ttl
      && s'.h.delivery.Keys == s.h.delivery.Keys + (if reply == Some(1) then {key} else {})
  {
  }

  /** One execution of the script, as a step of the queue. */
  lemma GrowsByOne(start: System, s: System, done: set<ScanJobKey>, key: ScanJobKey, request: string, fails: bool)
    requires Grown(start, s, done, request) && key !in start.db.jobs && key !in start.h.delivery
    requires forall i :: i in s.db.stream ==> i <= s.db.lastId
    ensures key in s.h.delivery ==> key in s.db.jobs
    ensures var (db, reply) := Redis.Enqueue(s.db, NewScanJob(key), Delivery(key, request), fails);
      && Grown(start, DoEnqueue(s, key, request, fails), if reply == Some(1) then done + {key} else done, request)
      && (reply == Some(0) ==> key in done)
  {
    OneMore(start.db, s.db, done, key, request, fails);
    EnqueueAccepts(s, key, request, fails);
  }

  class Enqueuer {
    const server: Server
    ghost var sys: System   // the scan queue; every script is one of its events

    ghost predicate Valid()
      reads this, server
    {
      server.Valid() && sys.db == server.db && Reachable(sys)
    }

    constructor (server: Server, ghost sys: System)
      requires server.Valid() && sys.db == server.db && Reachable(sys)
      ensures Valid() && this.server == server && this.sys == sys
    {
      this.server, this.sys := server, sys;
    }

    /** One execution of the enqueue script. Any reply but an error means that the job is stored. */
    method Execute(key: ScanJobKey, request: string, fails: bool, ghost start: System, ghost done: set<ScanJobKey>)
      returns (ok: bool, ghost done': set<ScanJobKey>)
      requires Valid() && Grown(start, sys, done, request) && key !in start.db.jobs && key !in start.h.delivery
      modifies this`sys, server
      ensures Valid() && Grown(start, sys, done', request)
      ensures done <= done' <= done + {key}
      ensures ok ==> key in done'
    {
      GrowsByOne(start, sys, done, key, request, fails);
      ReachableNext(sys, EnqueueJob(key, request, fails));
      var reply := server.RunEnqueue(NewScanJob(key), Delivery(key, request), fails);
      sys := DoEnqueue(sys, key, request, fails);
      ok := reply.Some?;
      done' := if reply == Some(1) then done + {key} else done;
    }

    /** Writes one job and its delivery. Success means they are stored; failure leaves it open. */
    method EnqueueOne(key: ScanJobKey, request: string, call: Call, ghost start: System, ghost done: set<ScanJobKey>)
      returns (ok: bool, ghost done': set<ScanJobKey>)
      requires Valid() && Grown(start, sys, done, request) && key !in start.db.jobs && key !in start.h.delivery
      modifies this`sys, server
      ensures Valid() && Grown(start, sys, done', request)
      ensures done <= done' <= done + {key}
      ensures ok ==> done' == done + {key}
    {
      ok, done' := false, done;
      for i := 0 to |call.executions|
        invariant Valid() && Grown(start, sys, done', request)
        invariant done <= done' <= done + {key}
        invariant ok ==> key in done'
      {
        ok, done' := Execute(key, request, call.executions[i], start, done');
      }
      ok := ok && call.heard;
    }

    method EnqueueMimeTypes(id: string, c: Capability, media: string, request: string, calls: nat -> Call, from: nat,
                            ghost start: System, ghost done: set<ScanJobKey>)
      returns (ok: bool, next: nat, ghost done': set<ScanJobKey>)
      requires Valid() && Grown(start, sys, done, request) && Fresh(start, id)
      modifies this`sys, server
      ensures Valid() && Grown(start, sys, done', request)
      ensures done <= done' <= done + WantedAs(id, media, c.mimeTypes)
      ensures ok ==> done' == done + WantedAs(id, media, c.mimeTypes)
    {
      ok, next, done' := true, from, done;
      for i := 0 to |c.mimeTypes|
        invariant ok && Valid() && Grown(start, sys, done', request)
        invariant done' == done + WantedAs(id, media, c.mimeTypes[..i])
      {
        var key := ScanJobKey(id, c.mimeTypes[i], media);
        FreshKey(start, key);
        WantedAsStep(id, media, c.mimeTypes, i);
        ok, done' := EnqueueOne(key, request, calls(next), start, done');
        next := next + 1;
        if !ok {
          return;
        }
      }
      assert c.mimeTypes[..|c.mimeTypes|] == c.mimeTypes;
    }

    method EnqueueCapability(id: string, c: Capability, request: string, calls: nat -> Call, from: nat,
                             ghost start: System, ghost done: set<ScanJobKey>)
      returns (ok: bool, next: nat, ghost done': set<ScanJobKey>)
      requires Valid() && Grown(start, sys, done, request) && Fresh(start, id)
      modifies this`sys, server
      ensures Valid() && Grown(start, sys, done', request)
      ensures done <= done' <= done + WantedBy(id, c, MediaTypes(c))
      ensures ok ==> done' == done + WantedBy(id, c, MediaTypes(c))
    {
      var media := MediaTypes(c);
      ok, next, done' := true, from, done;
      for i := 0 to |media|
        invariant ok && Valid() && Grown(start, sys, done', request)
        invariant done' == done + WantedBy(id, c, media[..i])
      {
        ghost var last := done';
        ok, next, done' := EnqueueMimeTypes(id, c, media[i], request, calls, next, start, done');
        WantedByGrows(id, c, media, i, done, last, done');
        if !ok {
          return;
        }
      }
      assert media[..|media|] == media;
    }

    /** A request under a fresh id. Success leaves exactly the wanted jobs queued and accepted, each with one
        delivery; failure leaves some of them, again each with its delivery. */
    method Enqueue(id: string, caps: seq<Capability>, request: string, calls: nat -> Call) returns (ok: bool)
      requires Valid() && Fresh(sys, id)
      modifies this`sys, server
      ensures Valid()
      ensures caps == [] ==> !ok && server.db == old(server.db)
      ensures ok ==> Grown(old(sys), sys, Wanted(id, caps), request)
      ensures ok ==> forall key :: key in sys.h.delivery && key !in old(sys).h.delivery <==>
        key.id == id && exists c :: c in caps && AsksFor(c, key)
      ensures !ok ==> exists done :: done <= Wanted(id, caps) && Grown(old(sys), sys, done, request)
    {
      ghost var start := sys;
      ghost var done: set<ScanJobKey> := {};
      assert Grown(start, sys, done, request);
      if |caps| == 0 {
        return false;
      }
      ok := true;
      var next := 0;
      for i := 0 to |caps|
        invariant ok && Valid() && Grown(start, sys, done, request)
        invariant done == Wanted(id, caps[..i])
      {
        WantedStep(id, caps, i);
        ok, next, done := EnqueueCapability(id, caps[i], request, calls, next, start, done);
        if !ok {
          return;
        }
      }
      assert caps[..|caps|] == caps;
      forall key ensures key in sys.h.delivery && key !in start.h.delivery <==>
        key.id == id && exists c :: c in caps && AsksFor(c, key)
      {
        WantedExactly(id, caps, key);
      }
    }

    /** A request from Harbor: refused without any effect, or accepted, and then it leaves exactly the jobs it
        asks for, and at least one. */
    method AcceptScanRequest(id: string, request: ScanRequest, payload: string, calls: nat -> Call,
                             parses: string -> bool, quote: string -> string)
      returns (error: Option<Rejection>)
      requires Valid() && Fresh(sys, id)
      modifies this`sys, server
      ensures Valid()
      ensures !Proper(request, parses) ==>
        error.Some? && (error.value.code == 400 || error.value.code == 422) && server.db == old(server.db)
      ensures error.None? ==>
        && (exists key :: Asked(request.capabilities, id, key))
        && (forall key: ScanJobKey :: key.id == id ==> (key in server.db.jobs <==> Asked(request.capabilities, id, key)))
        && (forall key: ScanJobKey :: key.id == id ==> (key in sys.h.delivery <==> Asked(request.capabilities, id, key)))
        && Grown(old(sys), sys, Wanted(id, WithDefault(request.capabilities)), payload)
    {
      error := ValidateScanRequest(request, parses, quote);
      if error.Some? {
        return;
      }
      SomethingWanted(id, request.capabilities);
      ghost var wanted :| wanted in Wanted(id, WithDefault(request.capabilities));
      AskedExactly(id, request.capabilities, wanted);
      var ok := Enqueue(id, WithDefault(request.capabilities), payload, calls);
      forall key ensures key in Wanted(id, WithDefault(request.capabilities)) <==> Asked(request.capabilities, id, key) {
        AskedExactly(id, request.capabilities, key);
      }
      error := if ok then None else Some(Rejection(500, "enqueuing scan job"));
    }
  }

  /** Under an id without a colon, the wanted jobs have names of their own in Redis. */
  lemma WantedNamesApart(id: string, caps: seq<Capability>, a: ScanJobKey, b: ScanJobKey)
    requires Free(id, ':') && forall c, m :: c in caps && m in c.mimeTypes ==> Supported(m)
    requires a in Wanted(id, caps) && b in Wanted(id, caps) && a != b
    ensures KeyText(a, SupportedMimeText(a.mimeType)) != KeyText(b, SupportedMimeText(b.mimeType))
  {
    if Collide(a, b) {
      KeyTextInjective(a, b);
    }
  }

  // ----- Fan-out among everything else -----

  /** Event `n` of the run enqueues this job; with room for it the job is stored, or found stored. */
  predicate Offers(events: seq<Event>, n: nat, key: ScanJobKey, request: string) {
    n < |events| && events[n].EnqueueJob? && events[n].key == key && events[n].request == request
  }

  /** Between `i` and `j` only jobs the capabilities ask for are enqueued under this id, always with this
      request, and each of them gets through. */
  ghost predicate FansOut(events: seq<Event>, i: nat, j: nat, id: string, caps: seq<Capability>, request: string)
    requires i <= j <= |events|
  {
    && (forall n {:trigger events[n]} :: i <= n < j && events[n].EnqueueJob? && events[n].key.id == id ==>
          events[n].request == request && exists c :: c in caps && AsksFor(c, events[n].key))
    && (forall k: ScanJobKey, c :: k.id == id && c in caps && AsksFor(c, k) ==>
          exists n :: i <= n < j && Offers(events, n, k, request) && !events[n].fault)
  }

  /** The entry this job was accepted with carries this request. */
  ghost predicate EntryIs(h: History, key: ScanJobKey, request: string) {
    key in h.delivery && h.delivery[key] in h.added && h.added[h.delivery[key]] == Delivery(key, request)
  }

  /** An accepted job keeps its entry, and only its own script gets a job accepted. */
  ghost predicate AcceptStep(s: System, e: Event, s': System, key: ScanJobKey, request: string) {
    && (key in s.h.delivery ==> key in s'.h.delivery && (EntryIs(s.h, key, request) ==> EntryIs(s'.h, key, request)))
    && (key !in s.h.delivery && key in s'.h.delivery ==> e.EnqueueJob? && e.key == key && EntryIs(s'.h, key, e.request))
    && (e.EnqueueJob? && e.key == key && !e.fault ==> key in s'.h.delivery)
  }

  lemma EnqueueStepAccepts(s: System, e: Event, key: ScanJobKey, request: string)
    requires s.db.jobs.Keys <= s.h.delivery.Keys && EntriesOk(s.db, s.h) && Enabled(s, e) && e.EnqueueJob?
    ensures AcceptStep(s, e, DoEnqueue(s, e.key, e.request, e.fault), key, request)
  {
  }

  lemma ForeignStepAccepts(s: System, e: Event, key: ScanJobKey, request: string)
    requires EntriesOk(s.db, s.h) && Enabled(s, e) && e.AddForeign?
    ensures AcceptStep(s, e, DoAddForeign(s, e.raw), key, request)
  {
  }

  ghost predicate SameEntryHistory(s: System, s': System) {
    s'.h.delivery == s.h.delivery && s'.h.added == s.h.added
  }

  lemma ExecuteAddsNothing(s: System, t: Token, fault: bool)
    requires Enabled(s, Execute(t, fault))
    ensures SameEntryHistory(s, DoExecute(s, t, fault))
  {
  }

  lemma OtherStepAddsNothing(s: System, e: Event)
    requires Enabled(s, e) && !e.EnqueueJob? && !e.AddForeign? && !e.Execute?
    ensures SameEntryHistory(s, Next(s, e))
  {
  }

  lemma RunStepAccepts(states: seq<System>, events: seq<Event>, i: nat, key: ScanJobKey, request: string)
    requires Run(states, events) && i < |events|
    ensures AcceptStep(states[i], events[i], states[i + 1], key, request)
  {
    RunInv(states, events, i);
    assert Step(states[i], events[i], states[i + 1]);
    if events[i].EnqueueJob? {
      EnqueueStepAccepts(states[i], events[i], key, request);
    } else if events[i].AddForeign? {
      ForeignStepAccepts(states[i], events[i], key, request);
    } else if events[i].Execute? {
      ExecuteAddsNothing(states[i], events[i].t, events[i].fault);
    } else {
      OtherStepAddsNothing(states[i], events[i]);
    }
  }

  lemma {:induction false} AcceptedOverRun(states: seq<System>, events: seq<Event>, i: nat, j: nat, key: ScanJobKey, request: string)
    requires Run(states, events) && i <= j <= |events| && key !in states[i].h.delivery
    requires forall n {:trigger events[n]} :: i <= n < j && events[n].EnqueueJob? && events[n].key == key ==>
      events[n].request == request
    ensures key in states[j].h.delivery ==>
      EntryIs(states[j].h, key, request) && exists n :: i <= n < j && Offers(events, n, key, request)
    ensures (exists n :: i <= n < j && Offers(events, n, key, request) && !events[n].fault) ==> key in states[j].h.delivery
    decreases j
  {
    if i == j {
      assert states[i] == states[j];
    } else {
      AcceptedOverRun(states, events, i, j - 1, key, request);
      RunStepAccepts(states, events, j - 1, key, request);
      if key !in states[j - 1].h.delivery && key in states[j].h.delivery {
        assert Offers(events, j - 1, key, request);
      }
    }
  }

  /** Job `k` was accepted with an entry of its own that carries the request, and is waiting, acknowledged or
      quarantined. */
  ghost predicate HasEntry(s: System, k: ScanJobKey, request: string) {
    && EntryIs(s.h, k, request)
    && (s.h.delivery[k] in s.db.stream || s.h.delivery[k] in s.h.retired || s.h.delivery[k] in s.db.quarantine)
    && (s.h.delivery[k] in s.db.stream ==> s.db.stream[s.h.delivery[k]] == Delivery(k, request))
    && (k in s.db.jobs && !s.db.jobs[k].value.status.Terminal() ==> s.h.delivery[k] in s.db.stream)
  }

  /** The scripts of one request, interleaved in any way with workers, other requests and the environment:
      afterwards exactly the jobs its capabilities ask for are accepted under its id, each with an entry of its
      own, and one that is not finished is still in the stream. */
  lemma FanOutOverRun(states: seq<System>, events: seq<Event>, i: nat, j: nat, id: string, caps: seq<Capability>, request: string)
    requires Run(states, events) && i <= j <= |events|
    requires Fresh(states[i], id) && FansOut(events, i, j, id, caps, request)
    ensures forall k: ScanJobKey :: k.id == id ==>
      (k in states[j].h.delivery <==> exists c :: c in caps && AsksFor(c, k))
    ensures forall k: ScanJobKey, c :: k.id == id && c in caps && AsksFor(c, k) ==> HasEntry(states[j], k, request)
  {
    RunInv(states, events, j);
    forall k: ScanJobKey | k.id == id ensures k in states[j].h.delivery <==> exists c :: c in caps && AsksFor(c, k) {
      AcceptedOverRun(states, events, i, j, k, request);
    }
    forall k: ScanJobKey, c | k.id == id && c in caps && AsksFor(c, k) ensures HasEntry(states[j], k, request) {
      AcceptedOverRun(states, events, i, j, k, request);
      assert RecordOk(states[j].db, states[j].h, states[j].ttl, k);
    }
  }
}
