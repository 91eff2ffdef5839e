/** Reading the head of an HTTP proxy request, and rewriting it for the target. */
module HttpHead {
  import opened Basics
  import opened Text
  import opened BufReader

  /** maxHeaderBytes */
  const MAX: nat := 65536

  datatype Head = Head(method_: string, target: string, proto: string, lines: seq<string>)

  datatype HeadError = TooBig | ReadFailed | NotHttp

  // ---------------------------------------------------------------- what a stream begins with

  predicate EndOfLine(c: char) {
    c == '\r' || c == '\n'
  }

  /** strings.TrimRight(s, "\r\n") */
  function Chomp(s: string): string {
    if s != "" && EndOfLine(s[|s| - 1]) then Chomp(s[..|s| - 1]) else s
  }

  datatype Block = Block(lines: seq<string>, rest: string)

  /** The non-empty lines up to the first empty one after them, given what has been read and how much it was. */
  function LinesOf(rest: string, seen: seq<string>, total: nat, max: nat): Result<Block, HeadError>
    decreases |rest|, 0
  {
    var i := Find(rest, '\n');
    if total + Min(i + 1, |rest|) > max then Err(TooBig)
    else if i == |rest| then Err(ReadFailed)
    else NextLine(Chomp(rest[..i + 1]), rest[i + 1..], seen, total + i + 1, max)
  }

  /** What one complete line contributes. */
  function NextLine(line: string, rest: string, seen: seq<string>, total: nat, max: nat): Result<Block, HeadError>
    decreases |rest|, 1
  {
    if line != "" then LinesOf(rest, seen + [line], total, max)
    else if seen == [] then LinesOf(rest, seen, total, max)
    else Ok(Block(seen, rest))
  }

  /** The request line and the lines after it. */
  function ParseHead(lines: seq<string>): Result<Head, HeadError>
    requires lines != []
  {
    var a := Cut(lines[0], ' ');
    var b := Cut(a.after, ' ');
    if !a.found || !b.found || !HasPrefix(b.after, "HTTP/") then Err(NotHttp)
    else Ok(Head(a.before, b.before, b.after, lines[1..]))
  }

  lemma {:induction false} LinesAreMore(rest: string, seen: seq<string>, total: nat, max: nat)
    ensures var r := LinesOf(rest, seen, total, max); r.Ok? ==> r.value.lines != []
    decreases |rest|
  {
    var i := Find(rest, '\n');
    if i < |rest| {
      var line := Chomp(rest[..i + 1]);
      if line != "" || seen == [] {
        LinesAreMore(rest[i + 1..], if line != "" then seen + [line] else seen, total + i + 1, max);
      }
    }
  }

  datatype Request = Request(head: Head, rest: string)

  /** The head a stream begins with, and what follows it. */
  function HeadOf(rest: string, max: nat): Result<Request, HeadError> {
    var b :- LinesOf(rest, [], 0, max);
    LinesAreMore(rest, [], 0, max);
    var h :- ParseHead(b.lines);
    Ok(Request(h, b.rest))
  }

  // ---------------------------------------------------------------- readHTTPHead

  lemma FindAfter(line: string, pending: string, c: char)
    requires c !in line
    ensures Find(line + pending, c) == |line| + Find(pending, c)
  {
    FindIsFirst(pending, c);
    FindIsFirst(line + pending, c);
    var j := Find(pending, c);
    if j < |pending| { assert (line + pending)[|line| + j] == c; }
  }

  /** What a slice is, by the place j of the first newline. */
  lemma SliceByPlace(pending: string, j: nat, chunk: string, end: SliceEnd)
    requires j == Find(pending, '\n') && Slice(chunk, end) == SliceOf(pending)
    ensures chunk == pending[..|chunk|] && |chunk| <= Min(j + 1, |pending|)
    ensures end.Delimiter? ==> |chunk| == j + 1
    ensures end.Full? ==> '\n' !in chunk && |chunk| <= j && chunk != ""
    ensures end.Ended? ==> j == |pending| == |chunk|
  {
    FindIsFirst(pending, '\n');
  }

  lemma Regrouped(rest: string, line: string, pending: string, chunk: string, after: string)
    requires line + pending == rest && chunk <= pending && after == pending[|chunk|..]
    ensures var l := line + chunk; l + after == rest && l == rest[..|l|] && after == rest[|l|..]
  {
  }

  /** How one more slice continues the line under way. */
  lemma LineGrows(rest: string, line: string, pending: string, chunk: string, end: SliceEnd, after: string)
    requires line + pending == rest && '\n' !in line
    requires Slice(chunk, end) == SliceOf(pending) && after == pending[|chunk|..]
    ensures var i, l := Find(rest, '\n'), line + chunk;
      && l + after == rest && |l| <= Min(i + 1, |rest|)
      && (end.Delimiter? ==> |l| == i + 1 && l == rest[..i + 1] && after == rest[i + 1..])
      && (end.Full? ==> '\n' !in l && |l| <= i && chunk != "")
      && (end.Ended? ==> i == |rest| == |l|)
  {
    var j := Find(pending, '\n');
    FindAfter(line, pending, '\n');
    SliceByPlace(pending, j, chunk, end);
    Regrouped(rest, line, pending, chunk, after);
  }

  /** The inner loop of readHTTPHead: one line, slice by slice, while the total stays within the limit. */
  method ReadLine(br: Reader, before: nat) returns (line: string, total: nat, failed: Option<HeadError>)
    requires br.Valid() && before <= MAX
    modifies br
    ensures br.Valid()
    ensures var rest := old(br.Rest()); var i := Find(rest, '\n');
      if before + Min(i + 1, |rest|) > MAX then failed == Some(TooBig)
      else if i == |rest| then failed == Some(ReadFailed)
      else failed == None && line == rest[..i + 1] && br.Rest() == rest[i + 1..] && total == before + i + 1
  {
    ghost var rest := br.Rest();
    line, total := "", before;
    while true
      invariant br.Valid() && line + br.Rest() == rest && total == before + |line| <= MAX && '\n' !in line
      decreases |br.Rest()|
    {
      ghost var pending := br.Rest();
      var chunk, end := br.ReadSlice();
      LineGrows(rest, line, pending, chunk, end, br.Rest());
      line, total := line + chunk, total + |chunk|;
      if total > MAX { return line, total, Some(TooBig); }
      if end == Full { continue; }
      if end == Ended { return line, total, Some(ReadFailed); }
      return line, total, None;
    }
  }

  /** readHTTPHead: whatever the segments, the result and the bytes consumed depend on the stream alone. */
  method ReadHTTPHead(br: Reader) returns (r: Result<Head, HeadError>)
    requires br.Valid()
    modifies br
    ensures br.Valid()
    ensures var want := HeadOf(old(br.Rest()), MAX);
      if want.Ok? then r == Ok(want.value.head) && br.Rest() == want.value.rest else r == Err(want.error)
  {
    ghost var want := LinesOf(br.Rest(), [], 0, MAX);
    LinesAreMore(br.Rest(), [], 0, MAX);
    var lines: seq<string>, total: nat := [], 0;
    while true
      invariant br.Valid() && total <= MAX && LinesOf(br.Rest(), lines, total, MAX) == want
      decreases |br.Rest()|
    {
      var line, t, failed := ReadLine(br, total);
      if failed.Some? { return Err(failed.value); }
      total := t;
      var s := Chomp(line);
      if s == "" {
        if lines == [] { continue; }
        break;
      }
      lines := lines + [s];
    }
    r := ParseHead(lines);
  }
}
