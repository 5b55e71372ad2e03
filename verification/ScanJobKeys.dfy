/**
 How a scan job is named in Redis: the text of a MIME type, of a job key, and of the two Redis keys made
 from it. The queue keeps records and reports in two maps keyed by `ScanJobKey`; this is why it may.
 */
module ScanJobKeys {
  import opened Wrappers
  import opened ScanJobs
  import opened Separators

  const VULNERABILITY_REPORT: MimeType :=
    MimeType("application", "vnd.security.vulnerability.report", map["version" := "1.1"])

  const SBOM_REPORT: MimeType :=
    MimeType("application", "vnd.security.sbom.report+json", map["version" := "1.0"])

  const VULNERABILITY_TEXT := "application" + "/" + "vnd.security.vulnerability.report" + "; " + "version=1.1"
  const SBOM_TEXT := "application" + "/" + "vnd.security.sbom.report+json" + "; " + "version=1.0"

  /** The two report types the adapter produces. */
  predicate Supported(mt: MimeType) {
    mt == VULNERABILITY_REPORT || mt == SBOM_REPORT
  }

  // ----- MIME types -----

  /** One of the orders in which Go may range over the parameters. */
  predicate Lists(order: seq<string>, params: map<string, string>) {
    && |order| == |params|
    && (forall i :: 0 <= i < |order| ==> order[i] in params)
    && (forall i, j :: 0 <= i < j < |order| ==> order[i] != order[j])
  }

  function ParamsText(order: seq<string>, params: map<string, string>): string
    requires forall i :: 0 <= i < |order| ==> order[i] in params
  {
    if order == [] then ""
    else if |order| == 1 then order[0] + "=" + params[order[0]]
    else order[0] + "=" + params[order[0]] + ";" + ParamsText(order[1..], params)
  }

  function MimeText(mt: MimeType, order: seq<string>): string
    requires Lists(order, mt.params)
  {
    if mt.typ == "" || mt.subtype == "" then ""
    else if |mt.params| == 0 then mt.typ + "/" + mt.subtype
    else mt.typ + "/" + mt.subtype + "; " + ParamsText(order, mt.params)
  }

  /** Parameters are written name=value in the order of iteration, with a semicolon before every further one. */
  lemma {:induction false} ParamsTextGrows(order: seq<string>, k: string, params: map<string, string>)
    requires k in params && forall i :: 0 <= i < |order| ==> order[i] in params
    ensures ParamsText(order + [k], params)
      == (if order == [] then "" else ParamsText(order, params) + ";") + k + "=" + params[k]
  {
    var all := order + [k];
    if order == [] {
      assert all == [k];
      assert "" + k + "=" + params[k] == k + "=" + params[k];
    } else {
      assert all[1..] == order[1..] + [k] && all[0] == order[0];
      ParamsTextGrows(order[1..], k, params);
    }
  }

  /** A type without a name is empty text; otherwise both names are there, and parameters follow if there are any. */
  lemma MimeTextParts(mt: MimeType, order: seq<string>)
    requires Lists(order, mt.params)
    ensures MimeText(mt, order) == "" <==> mt.typ == "" || mt.subtype == ""
    ensures mt.typ != "" && mt.subtype != "" ==>
      MimeText(mt, order) == mt.typ + "/" + mt.subtype + (if order == [] then "" else "; " + ParamsText(order, mt.params))
  {
    if mt.typ != "" && mt.subtype != "" && order == [] {
      assert mt.typ + "/" + mt.subtype + "" == mt.typ + "/" + mt.subtype;
    }
  }

  /** Whatever the iteration order, a supported type has one text. */
  lemma SupportedText(mt: MimeType, order: seq<string>)
    requires Supported(mt) && Lists(order, mt.params)
    ensures MimeText(mt, order) == if mt == SBOM_REPORT then SBOM_TEXT else VULNERABILITY_TEXT
  {
    assert mt.params.Keys == {"version"};
    assert |order| == 1 && order[0] == "version";
    var version := mt.params["version"];
    assert ParamsText(order, mt.params) == "version" + "=" + version;
    assert "version" + "=" + "1.0" == "version=1.0";
    assert "version" + "=" + "1.1" == "version=1.1";
    if mt == SBOM_REPORT {
      assert version == "1.0";
    } else {
      assert version == "1.1";
    }
  }

  /** What `Parse` accepts; anything else is an error. */
  function ParseMime(value: string): Result<MimeType, string> {
    if value == "" || value == "*/*" || value == VULNERABILITY_TEXT then Ok(VULNERABILITY_REPORT)
    else if value == SBOM_TEXT then Ok(SBOM_REPORT)
    else Err("unsupported mime type: " + value)
  }

  /** A MIME type variable, which `Parse` assigns. */
  class MimeTypeVariable {
    var mt: MimeType

    constructor ()
      ensures mt == MimeType("", "", map[])
    {
      mt := MimeType("", "", map[]);
    }

    method Parse(value: string) returns (error: Option<string>)
      modifies this
      ensures match ParseMime(value)
        case Ok(parsed) => error == None && mt == parsed
        case Err(message) => error == Some(message) && mt == old(mt)
    {
      if value == "" || value == "*/*" || value == VULNERABILITY_TEXT {
        mt := mt.(typ := VULNERABILITY_REPORT.typ, subtype := VULNERABILITY_REPORT.subtype);
        mt := mt.(params := VULNERABILITY_REPORT.params);
        return None;
      }
      if value == SBOM_TEXT {
        mt := mt.(typ := SBOM_REPORT.typ, subtype := SBOM_REPORT.subtype);
        mt := mt.(params := SBOM_REPORT.params);
        return None;
      }
      return Some("unsupported mime type: " + value);
    }
  }

  /** `Parse` undoes `String` on the supported types, and yields nothing else; apart from the two ways to
      ask for the default, the text it accepts is the text of what it yields. */
  lemma ParseUndoesText(mt: MimeType, order: seq<string>, value: string)
    requires Lists(order, mt.params)
    ensures Supported(mt) ==> ParseMime(MimeText(mt, order)) == Ok(mt)
    ensures ParseMime(value) == Ok(mt) ==>
      Supported(mt) && (value == "" || value == "*/*" || value == MimeText(mt, order))
  {
    TextsDiffer();
    if Supported(mt) {
      SupportedText(mt, order);
    }
  }

  /** The texts that are accepted, and what each yields. */
  lemma ParsesExactly(value: string, mt: MimeType)
    ensures ParseMime(value) == Ok(mt) <==>
      || (mt == VULNERABILITY_REPORT && (value == "" || value == "*/*" || value == VULNERABILITY_TEXT))
      || (mt == SBOM_REPORT && value == SBOM_TEXT)
  {
    TextsDiffer();
  }

  lemma TextsDiffer()
    ensures |SBOM_TEXT| > 25 && |VULNERABILITY_TEXT| > 25
    ensures SBOM_TEXT[25] != VULNERABILITY_TEXT[25]
  {
    assert SBOM_TEXT[25] == "vnd.security.sbom.report+json"[13];
    assert VULNERABILITY_TEXT[25] == "vnd.security.vulnerability.report"[13];
  }

  // ----- MIME type equality -----

  /** Indexing a Go map yields the zero value for a missing key. */
  function Param(params: map<string, string>, k: string): string {
    if k in params then params[k] else ""
  }

  predicate MimeEqual(a: MimeType, b: MimeType) {
    && a.typ == b.typ && a.subtype == b.subtype && |a.params| == |b.params|
    && forall k :: k in a.params ==> Param(b.params, k) == a.params[k]
  }

  lemma SameSizeSubset<T>(a: set<T>, b: set<T>)
    requires a <= b && |a| == |b|
    ensures a == b
  {
    assert b == a + (b - a);
  }

  /** A string that no key is: longer than all of them. */
  lemma {:induction false} FreshName(keys: set<string>) returns (name: string)
    ensures name !in keys
    ensures forall k :: k in keys ==> |k| < |name|
  {
    if keys == {} {
      name := "x";
    } else {
      var k :| k in keys;
      var rest := FreshName(keys - {k});
      assert keys == keys - {k} + {k};
      name := rest + k + "x";
    }
  }

  /** `Equal` decides equality against every other type exactly for types without an empty parameter:
      an empty one is mistaken for a parameter the other type does not have. */
  lemma MimeEqualDecides(a: MimeType)
    ensures (forall k :: k in a.params ==> a.params[k] != "")
      <==> (forall b :: MimeEqual(a, b) <==> a == b)
  {
    if k :| k in a.params && a.params[k] == "" {
      var name := FreshName(a.params.Keys);
      var b := a.(params := (a.params - {k})[name := "1"]);
      assert b.params.Keys == a.params.Keys - {k} + {name};
      assert MimeEqual(a, b) && a != b;
    } else {
      forall b ensures MimeEqual(a, b) <==> a == b {
        if MimeEqual(a, b) {
          assert forall k :: k in a.params ==> k in b.params;
          SameSizeSubset(a.params.Keys, b.params.Keys);
          assert a.params == b.params;
        }
      }
    }
  }

  // ----- Job keys -----

  /** The text of a key, given the text of its MIME type. */
  function KeyText(key: ScanJobKey, mime: string): string {
    if key.mediaType != "" then key.id + ":" + mime + ":" + key.mediaType
    else key.id + ":" + mime
  }

  function SupportedMimeText(mt: MimeType): string
    requires Supported(mt)
  {
    if mt == SBOM_REPORT then SBOM_TEXT else VULNERABILITY_TEXT
  }

  function MediaSuffix(mediaType: string): string {
    if mediaType == "" then "" else ":" + mediaType
  }

  lemma KeyTextParts(key: ScanJobKey, mime: string)
    ensures KeyText(key, mime) == Joined(key.id, ':', mime + MediaSuffix(key.mediaType))
    ensures key.mediaType != "" ==> mime + MediaSuffix(key.mediaType) == Joined(mime, ':', key.mediaType)
    ensures key.mediaType == "" ==> mime + MediaSuffix(key.mediaType) == mime
  {
  }

  lemma MediaSuffixInjective(a: string, b: string)
    requires MediaSuffix(a) == MediaSuffix(b)
    ensures a == b
  {
    assert a != "" ==> MediaSuffix(a)[1..] == a;
    assert b != "" ==> MediaSuffix(b)[1..] == b;
  }

  lemma MimeTextsColonFree(mt: MimeType)
    requires Supported(mt)
    ensures Free(SupportedMimeText(mt), ':')
  {
    VulnerabilityTextColonFree();
    SbomTextColonFree();
  }

  lemma VulnerabilityTextColonFree()
    ensures Free(VULNERABILITY_TEXT, ':')
  {
    TypeTextColonFree("vnd.security.vulnerability.report", "version=1.1");
  }

  lemma SbomTextColonFree()
    ensures Free(SBOM_TEXT, ':')
  {
    TypeTextColonFree("vnd.security.sbom.report+json", "version=1.0");
  }

  lemma TypeTextColonFree(subtype: string, params: string)
    requires Free(subtype, ':') && Free(params, ':')
    ensures Free("application" + "/" + subtype + "; " + params, ':')
  {
    FreeConcat("application", "/", ':');
    FreeConcat("application" + "/", subtype, ':');
    FreeConcat("application" + "/" + subtype, "; ", ':');
    FreeConcat("application" + "/" + subtype + "; ", params, ':');
  }

  lemma SameMimeSameRest(a: MimeType, x: string, b: MimeType, y: string)
    requires Supported(a) && Supported(b) && SupportedMimeText(a) + x == SupportedMimeText(b) + y
    ensures a == b && x == y
  {
    var s, t := SupportedMimeText(a), SupportedMimeText(b);
    TextsDiffer();
    assert (s + x)[25] == s[25] && (t + y)[25] == t[25];
    assert s == t;
    assert (s + x)[|s|..] == x && (t + y)[|t|..] == y;
  }

  /** Two supported keys share their text. */
  predicate Collide(a: ScanJobKey, b: ScanJobKey) {
    && Supported(a.mimeType) && Supported(b.mimeType)
    && KeyText(a, SupportedMimeText(a.mimeType)) == KeyText(b, SupportedMimeText(b.mimeType))
  }

  /** The longer id goes on where the shorter one ends: with a MIME type, and then no further or with a colon. */
  predicate Continues(a: string, b: string, mime: string) {
    b == Joined(a, ':', mime) || Reaches(Joined(a, ':', mime), ':', b)
  }

  predicate Absorbs(a: string, b: string) {
    Continues(a, b, VULNERABILITY_TEXT) || Continues(a, b, SBOM_TEXT)
  }

  /** Keys with one id keep apart. */
  lemma SameIdSameKey(a: ScanJobKey, b: ScanJobKey)
    requires Collide(a, b) && |a.id| == |b.id|
    ensures a == b
  {
    var m, n := SupportedMimeText(a.mimeType), SupportedMimeText(b.mimeType);
    KeyTextParts(a, m);
    KeyTextParts(b, n);
    SplitSame(a.id, m + MediaSuffix(a.mediaType), b.id, n + MediaSuffix(b.mediaType), ':');
    SameMimeSameRest(a.mimeType, MediaSuffix(a.mediaType), b.mimeType, MediaSuffix(b.mediaType));
    MediaSuffixInjective(a.mediaType, b.mediaType);
  }

  /** The rest of the longer id starts the rest of the shorter key: it takes at least the MIME type. */
  lemma RestTakesMime(mime: string, media: string, rest: string, y: string)
    requires Free(mime, ':') && mime + MediaSuffix(media) == Joined(rest, ':', y)
    ensures rest == mime || Reaches(mime, ':', rest)
  {
    if media == "" {
      JoinedHasSeparator(rest, ':', y);
    } else {
      assert mime + MediaSuffix(media) == Joined(mime, ':', media);
      if |rest| < |mime| {
        SplitShorter(rest, y, mime, media, ':');
        ReachedHasSeparator(rest, ':', mime);
      } else if |rest| == |mime| {
        SplitSame(rest, y, mime, media, ':');
      } else {
        SplitShorter(mime, media, rest, y, ':');
      }
    }
  }

  lemma CollisionAbsorbs(a: ScanJobKey, b: ScanJobKey)
    requires Collide(a, b) && |a.id| < |b.id|
    ensures Absorbs(a.id, b.id)
  {
    var m, n := SupportedMimeText(a.mimeType), SupportedMimeText(b.mimeType);
    var x, y, rest := m + MediaSuffix(a.mediaType), n + MediaSuffix(b.mediaType), b.id[|a.id| + 1..];
    KeyTextParts(a, m);
    KeyTextParts(b, n);
    MimeTextsColonFree(a.mimeType);
    SplitShorter(a.id, x, b.id, y, ':');
    RestTakesMime(m, a.mediaType, rest, y);
    assert b.id == Joined(a.id, ':', rest);
    ContinuesBy(a.id, m, rest);
  }

  lemma ContinuesBy(a: string, mime: string, rest: string)
    ensures Continues(a, Joined(a, ':', rest), mime) <==> rest == mime || Reaches(mime, ':', rest)
  {
    var b, c := Joined(a, ':', rest), Joined(a, ':', mime);
    assert b[|a| + 1..] == rest && c[|a| + 1..] == mime;
    assert c + ":" == a + ":" + (mime + ":");
    if Reaches(mime, ':', rest) {
      assert b == c + ":" + rest[|mime| + 1..];
    }
    if Reaches(c, ':', b) {
      assert rest == mime + ":" + b[|c| + 1..];
    }
  }

  /** Where one id absorbs the other, the media type of the shorter key can hold the difference. */
  lemma AbsorbedCollides(a: string, b: string, mt: MimeType) returns (k: ScanJobKey, l: ScanJobKey)
    requires Supported(mt) && Continues(a, b, SupportedMimeText(mt))
    ensures k.id == a && l.id == b && k != l && Collide(k, l)
  {
    var m := SupportedMimeText(mt);
    var prefix := Joined(a, ':', m);
    l := ScanJobKey(b, mt, "");
    if b == prefix {
      k := ScanJobKey(a, mt, m);
      assert KeyText(k, m) == prefix + ":" + m;
    } else {
      Completed(prefix, b, m, ':');
      k := ScanJobKey(a, mt, Joined(b[|prefix| + 1..], ':', m));
      assert KeyText(k, m) == Joined(prefix, ':', k.mediaType);
    }
    assert KeyText(l, m) == Joined(b, ':', m);
  }

  ghost predicate IdsCollide(a: string, b: string) {
    exists k: ScanJobKey, l: ScanJobKey :: k.id == a && l.id == b && k != l && Collide(k, l)
  }

  /** Some two different keys under these ids share a text if and only if one id continues the other by a
      colon and the text of a supported MIME type, and goes on with a colon if it goes on. */
  lemma IdsCollideExactly(a: string, b: string)
    ensures IdsCollide(a, b) <==> Absorbs(a, b) || Absorbs(b, a)
  {
    if k: ScanJobKey, l: ScanJobKey :| k.id == a && l.id == b && k != l && Collide(k, l) {
      if |a| < |b| {
        CollisionAbsorbs(k, l);
      } else if |b| < |a| {
        CollisionAbsorbs(l, k);
      } else {
        SameIdSameKey(k, l);
      }
    }
    if Absorbs(a, b) {
      AbsorbedIdsCollide(a, b);
    }
    if Absorbs(b, a) {
      AbsorbedIdsCollide(b, a);
    }
  }

  lemma AbsorbedIdsCollide(a: string, b: string)
    requires Absorbs(a, b)
    ensures IdsCollide(a, b) && IdsCollide(b, a)
  {
    var k, l := AbsorbedCollides(a, b, if Continues(a, b, SBOM_TEXT) then SBOM_REPORT else VULNERABILITY_REPORT);
    assert Collide(l, k);
  }

  /** An id without a colon absorbs, but is not absorbed. */
  lemma ColonFreeNotAbsorbed(a: string, b: string)
    requires Absorbs(a, b)
    ensures !Free(b, ':')
  {
    var m := if Continues(a, b, SBOM_TEXT) then SBOM_TEXT else VULNERABILITY_TEXT;
    if b == Joined(a, ':', m) {
      assert b[|a|] == ':' && b[|a|] in b;
    } else {
      ReachedHasSeparator(Joined(a, ':', m), ':', b);
    }
  }

  /** For request ids without a colon and the supported MIME types, no two keys have the same text,
      whatever their media types are. */
  lemma KeyTextInjective(a: ScanJobKey, b: ScanJobKey)
    requires Free(a.id, ':') && Free(b.id, ':') && Collide(a, b)
    ensures a == b
  {
    if a != b {
      IdsCollideExactly(a.id, b.id);
      if Absorbs(a.id, b.id) {
        ColonFreeNotAbsorbed(a.id, b.id);
      } else {
        ColonFreeNotAbsorbed(b.id, a.id);
      }
    }
  }

  /** Every id collides with some other id, which has a colon. */
  lemma ColonInIdCollides(a: string) returns (b: string)
    ensures b != a && IdsCollide(a, b)
  {
    b := Joined(a, ':', VULNERABILITY_TEXT);
    assert |b| > |a| && Continues(a, b, VULNERABILITY_TEXT);
    IdsCollideExactly(a, b);
  }

  function JobRedisKey(namespace: string, text: string): string {
    namespace + ":scan-job:" + text
  }

  function ReportRedisKey(namespace: string, text: string): string {
    namespace + ":scan-report:" + text
  }

  lemma PrefixesDiffer(a: string, b: string)
    ensures "scan-job:" + a != "scan-report:" + b
  {
    assert ("scan-job:" + a)[5] == 'j' && ("scan-report:" + b)[5] == 'r';
  }

  /** Adapters with different namespaces share no names, as long as these have no colon. */
  lemma NamespacesApart(n: string, a: string, m: string, b: string)
    requires Free(n, ':') && Free(m, ':')
    ensures JobRedisKey(n, a) == JobRedisKey(m, b) ==> n == m && a == b
    ensures ReportRedisKey(n, a) == ReportRedisKey(m, b) ==> n == m && a == b
    ensures JobRedisKey(n, a) != ReportRedisKey(m, b)
  {
    assert JobRedisKey(n, a) == Joined(n, ':', "scan-job:" + a) && JobRedisKey(m, b) == Joined(m, ':', "scan-job:" + b);
    assert ReportRedisKey(n, a) == Joined(n, ':', "scan-report:" + a);
    assert ReportRedisKey(m, b) == Joined(m, ':', "scan-report:" + b);
    if JobRedisKey(n, a) == JobRedisKey(m, b) {
      SplitFree(n, "scan-job:" + a, m, "scan-job:" + b, ':');
      assert ("scan-job:" + a)[9..] == a && ("scan-job:" + b)[9..] == b;
    }
    if ReportRedisKey(n, a) == ReportRedisKey(m, b) {
      SplitFree(n, "scan-report:" + a, m, "scan-report:" + b, ':');
      assert ("scan-report:" + a)[12..] == a && ("scan-report:" + b)[12..] == b;
    }
    if JobRedisKey(n, a) == ReportRedisKey(m, b) {
      SplitFree(n, "scan-job:" + a, m, "scan-report:" + b, ':');
      PrefixesDiffer(a, b);
    }
  }

  /** The names in Redis keep jobs apart from jobs, reports from reports, and jobs from reports. */
  lemma RedisKeysApart(namespace: string, a: string, b: string)
    ensures JobRedisKey(namespace, a) == JobRedisKey(namespace, b) ==> a == b
    ensures ReportRedisKey(namespace, a) == ReportRedisKey(namespace, b) ==> a == b
    ensures JobRedisKey(namespace, a) != ReportRedisKey(namespace, b)
  {
    var n := |namespace|;
    assert JobRedisKey(namespace, a)[n + 10..] == a && JobRedisKey(namespace, b)[n + 10..] == b;
    assert ReportRedisKey(namespace, a)[n + 13..] == a && ReportRedisKey(namespace, b)[n + 13..] == b;
    assert JobRedisKey(namespace, a)[n + 6] == 'j' && ReportRedisKey(namespace, b)[n + 6] == 'r';
  }
}
