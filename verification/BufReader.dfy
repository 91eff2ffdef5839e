/**
 * The buffered reader in front of a client connection. Its contracts speak only of the bytes still to come,
 * never of the segments in which they arrive.
 */
module BufReader {
  import opened Basics
  import opened Text

  /** The buffer size that handle asks for. */
  const SIZE: nat := 16384

  datatype SliceEnd = Delimiter | Full | Ended

  datatype Slice = Slice(chunk: string, end: SliceEnd)

  /** What ReadSlice gives when rest is still to come. */
  function SliceOf(rest: string): (r: Slice)
    ensures |r.chunk| <= |rest|
  {
    var i := Find(rest, '\n');
    if i < |rest| && i < SIZE then Slice(rest[..i + 1], Delimiter)
    else if |rest| >= SIZE then Slice(rest[..SIZE], Full)
    else Slice(rest, Ended)
  }

  /** A buffer without a newline says nothing about the newline of a longer text; a buffer with one does. */
  lemma FindInPrefix(buf: string, more: string, c: char)
    ensures Find(buf, c) < |buf| ==> Find(buf + more, c) == Find(buf, c)
    ensures Find(buf, c) == |buf| ==> Find(buf + more, c) >= |buf|
  {
    FindIsFirst(buf, c);
    FindIsFirst(buf + more, c);
    var i, j := Find(buf, c), Find(buf + more, c);
    if i < |buf| { assert (buf + more)[i] == c; }
  }

  lemma Splits(a: string, b: string, s: string)
    requires a + b == s
    ensures a == s[..|a|] && b == s[|a|..]
  {
  }

  lemma Moves(got: string, some: string, after: string, before: string, s: string)
    requires got + before == s && some + after == before
    ensures got + some + after == s
  {
  }

  class Reader {
    var buf: string
    /** What the next reads of the connection return; after them it ends if `eof`, and fails otherwise. */
    var segments: seq<string>
    const eof: bool

    ghost predicate Valid()
      reads this
    {
      |buf| <= SIZE && forall i :: 0 <= i < |segments| ==> segments[i] != ""
    }

    /** The bytes still to come. */
    ghost function Rest(): string
      reads this
    {
      buf + Concat(segments)
    }

    constructor (segments: seq<string>, eof: bool)
      requires forall i :: 0 <= i < |segments| ==> segments[i] != ""
      ensures Valid() && Rest() == Concat(segments) && this.eof == eof
    {
      this.buf := "";
      this.segments := segments;
      this.eof := eof;
    }

    /** One read of the connection into the free part of the buffer. */
    method Fill() returns (ok: bool)
      requires Valid() && |buf| < SIZE
      modifies this
      ensures Valid() && Rest() == old(Rest())
      ensures ok <==> old(segments) != []
      ensures if ok then |old(buf)| < |buf| && old(buf) <= buf else buf == old(buf) && segments == old(segments)
    {
      ok := segments != [];
      if ok {
        var s, room := segments[0], SIZE - |buf|;
        if |s| <= room {
          buf, segments := buf + s, segments[1..];
        } else {
          buf, segments := buf + s[..room], [s[room..]] + segments[1..];
          assert segments[1..] == old(segments)[1..];
          assert s == s[..room] + s[room..];
        }
      }
    }

    /** Peek(1). */
    method Peek() returns (c: Option<char>)
      requires Valid()
      modifies this
      ensures Valid() && Rest() == old(Rest())
      ensures c == (if Rest() == "" then None else Some(Rest()[0])) && (c.Some? ==> buf != "")
    {
      if buf == "" {
        var ok := Fill();
        if !ok { return None; }
      }
      c := Some(buf[0]);
    }

    method ReadByte() returns (c: Option<char>)
      requires Valid()
      modifies this
      ensures Valid()
      ensures old(Rest()) == "" ==> c == None && Rest() == ""
      ensures old(Rest()) != "" ==> c == Some(old(Rest())[0]) && Rest() == old(Rest())[1..]
    {
      c := Peek();
      if c.Some? {
        ghost var rest := Rest();
        buf := buf[1..];
        assert Rest() == rest[1..];
      }
    }

    /** The first k buffered bytes. */
    method Take(k: nat) returns (b: string)
      requires Valid() && k <= |buf|
      modifies this
      ensures Valid() && segments == old(segments) && |b| == k && b + Rest() == old(Rest())
    {
      b, buf := buf[..k], buf[k..];
    }

    /** io.ReadFull of n bytes. */
    method ReadFull(n: nat) returns (b: Option<string>)
      requires Valid()
      modifies this
      ensures Valid()
      ensures |old(Rest())| >= n ==> b == Some(old(Rest())[..n]) && Rest() == old(Rest())[n..]
      ensures |old(Rest())| < n ==> b == None
    {
      ghost var rest := Rest();
      var got := "";
      while |got| < n
        invariant Valid() && |got| <= n && got + Rest() == rest
      {
        if buf == "" {
          var ok := Fill();
          if !ok { return None; }
        }
        ghost var before := Rest();
        var some := Take(Min(n - |got|, |buf|));
        Moves(got, some, Rest(), before, rest);
        got := got + some;
      }
      Splits(got, Rest(), rest);
      b := Some(got);
    }

    method ReadSlice() returns (chunk: string, end: SliceEnd)
      requires Valid()
      modifies this
      ensures Valid()
      ensures Slice(chunk, end) == SliceOf(old(Rest())) && Rest() == old(Rest())[|chunk|..]
    {
      while true
        invariant Valid() && Rest() == old(Rest())
        decreases |Rest()| - |buf|
      {
        FindInPrefix(buf, Concat(segments), '\n');
        var i := Find(buf, '\n');
        if i < |buf| {
          chunk, end, buf := buf[..i + 1], Delimiter, buf[i + 1..];
          return;
        }
        if |buf| == SIZE {
          chunk, end, buf := buf, Full, "";
          return;
        }
        var ok := Fill();
        if !ok {
          chunk, end, buf := buf, Ended, "";
          return;
        }
      }
    }

    /** Everything in the buffer, which is then empty: Buffered, Peek and Discard together. */
    method Drain() returns (b: string)
      requires Valid()
      modifies this
      ensures Valid() && b + Rest() == old(Rest()) && buf == "" && segments == old(segments) && b == old(buf)
    {
      b, buf := buf, "";
    }
  }
}
