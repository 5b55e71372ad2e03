/** The bounded tail buffer of pkg/ext/buffer.go: it keeps the last bytes written, up to a limit. */
module LimitedBuffer {

  type Byte = bv8

  function Max0(n: int): nat {
    if n < 0 then 0 else n
  }

  function Min(a: int, b: int): int {
    if a < b then a else b
  }

  /** The last `limit` bytes of everything written, or all of it. */
  function Tail(written: seq<Byte>, limit: nat): seq<Byte> {
    if |written| < limit then written else written[|written| - limit..]
  }

  /** The tail of a longer tail is the tail of the whole: trimming late loses nothing that trimming early keeps. */
  lemma TailOfTail(written: seq<Byte>, kept: nat, limit: nat)
    requires limit <= kept || |written| <= kept
    ensures Tail(Tail(written, kept), limit) == Tail(written, limit)
  {
  }

  /** Only the last `limit` bytes of a write can matter. */
  lemma TailOfAppend(written: seq<Byte>, p: seq<Byte>, limit: nat)
    ensures Tail(written + p, limit) == Tail(Tail(written, limit) + Tail(p, limit), limit)
  {
    var w, q := Tail(written, limit), Tail(p, limit);
    if limit <= |p| {
      assert (written + p)[|written + p| - limit..] == q;
      assert (w + q)[|w + q| - limit..] == q;
    } else if limit <= |written| {
      assert (written + p)[|written + p| - limit..] == written[|written| + |p| - limit..] + p;
      assert (w + q)[|w + q| - limit..] == w[|p|..] + p;
      assert w[|p|..] == written[|written| + |p| - limit..];
    }
  }

  /** Appending commutes with forgetting: only what either side retains can be in the tail. */
  lemma SameTailAfterAppend(kept: seq<Byte>, written: seq<Byte>, q: seq<Byte>, p: seq<Byte>, limit: nat)
    requires Tail(kept, limit) == Tail(written, limit) && q == Tail(p, limit)
    ensures Tail(kept + q, limit) == Tail(written + p, limit)
  {
    TailOfAppend(kept, q, limit);
    TailOfAppend(written, p, limit);
    TailOfTail(p, limit, limit);
  }

  /** A buffer with the right tail is either full or holds everything. */
  lemma TailLength(kept: seq<Byte>, written: seq<Byte>, limit: nat)
    requires Tail(kept, limit) == Tail(written, limit)
    ensures |kept| >= limit <==> |written| >= limit
    ensures |kept| < limit ==> |kept| == |written|
  {
    assert |Tail(kept, limit)| == |Tail(written, limit)|;
  }

  class Buffer {
    var limit: int
    var data: array<Byte>   // backing array; the buffer is its first `len` bytes
    var len: nat
    var truncated: bool

    ghost var written: seq<Byte>  // everything ever written
    ghost var appended: nat       // bytes Write has put into the buffer
    ghost var copied: nat         // bytes Write has moved to trim it

    /** What trimming in `Write` may still cost is paid for by what has been appended. */
    ghost predicate Valid()
      reads this, data
    {
      && len <= data.Length
      && Tail(data[..len], Max0(limit)) == Tail(written, Max0(limit))
      && len <= |written| && len <= 2 * Max0(limit)
      && truncated == (|written| > Max0(limit))
      && copied + Max0(len - Max0(limit)) <= appended <= |written|
    }

    constructor (limit: int)
      ensures Valid() && fresh(data) && this.limit == limit && written == []
      ensures copied == 0 && appended == 0
    {
      this.limit := limit;
      data := new Byte[0];
      len := 0;
      truncated := false;
      written, appended, copied := [], 0, 0;
    }

    /** Makes room for `n` more bytes, in a larger array if the capacity does not suffice. */
    method Grow(n: nat)
      requires len <= data.Length
      modifies this`data
      ensures fresh(data) || data == old(data)
      ensures len + n <= data.Length && data[..len] == old(data[..len])
    {
      if data.Length < len + n {
        var current, end := data, len;
        var grown := new Byte[2 * (end + n)];
        for i := 0 to end
          invariant data == current && len == end
          invariant forall j :: 0 <= j < i ==> grown[j] == current[j]
        {
          grown[i] := current[i];
        }
        data := grown;
      }
    }

    method Append(p: seq<Byte>)
      requires len <= data.Length
      modifies this`data, this`len, data
      ensures fresh(data) || data == old(data)
      ensures len == old(len) + |p| <= data.Length
      ensures data[..len] == old(data[..len]) + p
    {
      ghost var before := data[..len];
      Grow(|p|);
      var room, end := data, len;
      for i := 0 to |p|
        invariant data == room && len == end
        invariant forall j :: 0 <= j < end ==> room[j] == before[j]
        invariant forall j :: 0 <= j < i ==> room[end + j] == p[j]
      {
        room[end + i] := p[i];
      }
      len := end + |p|;
    }

    /** trim: move the last `limit` bytes to the front, within the same array; source and destination overlap. */
    method Trim()
      requires 0 <= limit && len <= data.Length
      modifies this`len, data
      ensures len == (if old(len) < limit then old(len) else limit) && len <= data.Length
      ensures data[..len] == Tail(old(data[..len]), limit)
    {
      if len > limit {
        var shift := len - limit;
        ghost var before := data[..len];
        for i := 0 to limit
          invariant len == old(len)
          invariant forall j :: 0 <= j < i ==> data[j] == before[shift + j]
          invariant forall j :: i <= j < len ==> data[j] == before[j]
        {
          data[i] := data[shift + i];
        }
        len := limit;
        assert data[..len] == before[shift..];
      }
    }

    /** The part of a write that is worth appending. */
    method Clip(p: seq<Byte>) returns (q: seq<Byte>)
      requires 0 <= limit
      modifies this`truncated
      ensures q == Tail(p, limit)
      ensures truncated == (old(truncated) || |p| > limit)
    {
      q := p;
      if |q| > limit {
        q := q[|q| - limit..];
        truncated := true;
      }
    }

    /** Appends what is worth appending of a write. */
    method Take(p: seq<Byte>)
      requires 0 <= limit && len <= data.Length && len <= |written|
      requires Tail(data[..len], limit) == Tail(written, limit)
      modifies this`truncated, this`data, this`len, this`written, this`appended, data
      ensures (fresh(data) || data == old(data)) && len <= data.Length
      ensures written == old(written) + p
      ensures Tail(data[..len], limit) == Tail(written, limit)
      ensures len <= |written| && (old(len) < limit ==> old(len) == |old(written)|)
      ensures truncated == (old(truncated) || |p| > limit)
      ensures len == old(len) + Min(|p|, limit) && appended == old(appended) + Min(|p|, limit)
    {
      ghost var before := data[..len];
      TailLength(before, written, limit);
      var q := Clip(p);
      Append(q);
      SameTailAfterAppend(before, written, q, p, limit);
      written := written + p;
      appended := appended + |q|;
    }

    /** Lets the buffer reach twice the limit before trimming. */
    method Settle()
      requires 0 <= limit && len <= data.Length && len <= 3 * limit
      modifies this`truncated, this`len, this`copied, data
      ensures len <= data.Length && len <= 2 * limit && len <= old(len)
      ensures Tail(data[..len], limit) == Tail(old(data[..len]), limit)
      ensures truncated == (old(truncated) || old(len) > limit)
      ensures copied + Max0(len - limit) <= old(copied) + Max0(old(len) - limit)
    {
      if len > limit {
        truncated := true;
        if len > 2 * limit {
          ghost var before := data[..len];
          TailOfTail(before, limit, limit);
          Trim();
          copied := copied + len;
        }
      }
    }

    method WriteLimited(p: seq<Byte>)
      requires Valid() && 0 <= limit
      modifies this`truncated, this`data, this`len, this`written, this`appended, this`copied, data
      ensures Valid() && (fresh(data) || data == old(data))
      ensures written == old(written) + p
      ensures appended <= old(appended) + |p|
    {
      Take(p);
      Settle();
    }

    /** A negative limit is a caller's mistake, read as keeping nothing. */
    method MendLimit()
      requires Valid()
      modifies this`limit
      ensures Valid() && limit == Max0(old(limit))
    {
      if limit < 0 {
        limit := 0;
      }
    }

    /** Never fails and always reports the whole length, whatever is dropped. A negative limit becomes 0. */
    method Write(p: seq<Byte>) returns (n: nat)
      requires Valid()
      modifies this, data
      ensures Valid() && (fresh(data) || data == old(data))
      ensures n == |p|
      ensures limit == Max0(old(limit))
      ensures written == old(written) + p
      ensures copied <= appended <= old(appended) + |p|
    {
      n := |p|;
      MendLimit();
      WriteLimited(p);
    }

    /** The retained tail. A negative limit must have met a write first: only that replaces it. */
    method Bytes() returns (tail: seq<Byte>)
      requires Valid() && 0 <= limit
      modifies this`len, data
      ensures Valid() && limit == old(limit)
      ensures tail == Tail(written, limit) && written == old(written)
      ensures len == |tail| && len <= limit && len <= old(len)
    {
      ghost var before := data[..len];
      TailOfTail(before, limit, limit);
      Trim();
      tail := data[..len];
    }

    /** Output was dropped, or will be by the next reader. */
    method Truncated() returns (dropped: bool)
      requires Valid()
      ensures dropped == (|written| > Max0(limit))
    {
      dropped := truncated;
    }
  }

  /** Everything `writes` puts in, one after the other. */
  function Joined(writes: seq<seq<Byte>>): seq<Byte> {
    if writes == [] then [] else Joined(writes[..|writes| - 1]) + writes[|writes| - 1]
  }

  /** Any sequence of writes to a fresh buffer, then a reader: it gets the last bytes up to the limit, is
      told of a loss exactly if there was one, and the buffer never rested above twice the limit. */
  method WriteAll(limit: nat, writes: seq<seq<Byte>>) returns (tail: seq<Byte>, dropped: bool, held: nat)
    ensures tail == Tail(Joined(writes), limit)
    ensures dropped <==> |Joined(writes)| > limit
    ensures |tail| <= held <= 2 * limit
  {
    var b := new Buffer(limit);
    for i := 0 to |writes|
      invariant fresh(b) && fresh(b.data) && b.Valid() && b.limit == limit
      invariant b.written == Joined(writes[..i])
    {
      assert writes[..i + 1][..i] == writes[..i];
      var n := b.Write(writes[i]);
    }
    assert writes[..|writes|] == writes;
    held := b.len;
    tail := b.Bytes();
    dropped := b.Truncated();
  }
}
