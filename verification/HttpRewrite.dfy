/** The forwarded request, read again: what it says, and that forwarding it once more changes nothing. */
module HttpRewrite {
  import opened Basics
  import opened Text
  import opened HttpHead
  import opened HttpForward

  // ---------------------------------------------------------------- lines

  /** A line as readHTTPHead keeps it. */
  predicate LineOk(l: string) {
    l != "" && '\n' !in l && !EndOfLine(Last(l))
  }

  lemma {:induction false} ChompIs(s: string)
    ensures var r := Chomp(s);
      r <= s && (r != "" ==> !EndOfLine(Last(r))) && forall i :: |r| <= i < |s| ==> EndOfLine(s[i])
    decreases |s|
  {
    if s != "" && EndOfLine(s[|s| - 1]) { ChompIs(s[..|s| - 1]); }
  }

  lemma {:induction false} ChompEnd(a: string, tail: string)
    requires forall i :: 0 <= i < |tail| ==> EndOfLine(tail[i])
    ensures Chomp(a + tail) == Chomp(a)
    decreases |tail|
  {
    if tail == "" {
      assert a + tail == a;
    } else {
      var t := tail[..|tail| - 1];
      assert (a + tail)[..|a + tail| - 1] == a + t;
      ChompEnd(a, t);
    }
  }

  lemma ChompAfter(a: string, b: string)
    requires a != "" && !EndOfLine(Last(a))
    ensures Chomp(a + b) == a + Chomp(b)
  {
    var r := Chomp(b);
    ChompIs(b);
    assert a + b == (a + r) + b[|r|..];
    ChompEnd(a + r, b[|r|..]);
    if r != "" { assert Last(a + r) == Last(r); } else { assert a + r == a; }
  }

  lemma ChompedLine(raw: string)
    requires raw != "" && Last(raw) == '\n' && '\n' !in raw[..|raw| - 1]
    ensures Chomp(raw) == "" || LineOk(Chomp(raw))
  {
    ChompIs(raw);
    var l := Chomp(raw);
    assert |l| < |raw|;
    assert l == raw[..|raw| - 1][..|l|];
  }

  predicate LinesOk(lines: seq<string>) {
    forall i :: 0 <= i < |lines| ==> LineOk(lines[i])
  }

  lemma {:induction false} ReadLinesAreOk(rest: string, seen: seq<string>, total: nat, max: nat)
    requires LinesOk(seen)
    ensures var r := LinesOf(rest, seen, total, max); r.Ok? ==> LinesOk(r.value.lines)
    decreases |rest|
  {
    var i := Find(rest, '\n');
    if i < |rest| {
      FindIsFirst(rest, '\n');
      ChompedLine(rest[..i + 1]);
      var line := Chomp(rest[..i + 1]);
      if line != "" || seen == [] {
        ReadLinesAreOk(rest[i + 1..], if line != "" then seen + [line] else seen, total + i + 1, max);
      }
    }
  }

  /** What every head that was read satisfies. */
  predicate HeadOk(h: Head) {
    && ' ' !in h.method_ && '\n' !in h.method_
    && ' ' !in h.target && '\n' !in h.target
    && HasPrefix(h.proto, "HTTP/") && LineOk(h.proto)
    && LinesOk(h.lines)
  }

  lemma CutIsOk(s: string, c: char)
    requires Cut(s, c).found
    ensures c !in Cut(s, c).before && s == Cut(s, c).before + [c] + Cut(s, c).after
  {
    FindIsFirst(s, c);
  }

  lemma ParsedHeadIsOk(lines: seq<string>)
    requires lines != [] && LinesOk(lines)
    ensures ParseHead(lines).Ok? ==> HeadOk(ParseHead(lines).value)
  {
    if ParseHead(lines).Ok? {
      var a := Cut(lines[0], ' ');
      var b := Cut(a.after, ' ');
      CutIsOk(lines[0], ' ');
      CutIsOk(a.after, ' ');
      assert LineOk(lines[0]);
      assert Last(b.after) == Last(lines[0]);
    }
  }

  lemma ReadHeadIsOk(stream: string, max: nat)
    ensures HeadOf(stream, max).Ok? ==> HeadOk(HeadOf(stream, max).value.head)
  {
    ReadLinesAreOk(stream, [], 0, max);
    LinesAreMore(stream, [], 0, max);
    var b := LinesOf(stream, [], 0, max);
    if b.Ok? { ParsedHeadIsOk(b.value.lines); }
  }

  // ---------------------------------------------------------------- reading rendered lines

  /** A line that is not empty once its end is cut off, and holds no newline. */
  predicate Written(l: string) {
    '\n' !in l && Chomp(l) != ""
  }

  predicate AllWritten(lines: seq<string>) {
    forall i :: 0 <= i < |lines| ==> Written(lines[i])
  }

  function Chomped(lines: seq<string>): (r: seq<string>)
    ensures |r| == |lines| && forall i :: 0 <= i < |lines| ==> r[i] == Chomp(lines[i])
  {
    seq(|lines|, i requires 0 <= i < |lines| => Chomp(lines[i]))
  }

  lemma RenderedLine(l: string, more: string) returns (i: nat)
    requires '\n' !in l
    ensures var s := l + "\r\n" + more;
      i == |l| + 1 && Find(s, '\n') == i && Chomp(s[..i + 1]) == Chomp(l) && s[i + 1..] == more && |s| == i + 1 + |more|
  {
    i := |l| + 1;
    FindAppend(l + "\r", '\n', more);
    assert l + "\r\n" + more == (l + "\r") + ['\n'] + more;
    ChompEnd(l, "\r\n");
    assert (l + "\r\n" + more)[..i + 1] == l + "\r\n";
  }

  lemma ReadsLine(s: string, l: string, more: string, seen: seq<string>, total: nat, max: nat,
                  r: Result<Block, HeadError>)
    requires s == l + "\r\n" + more && Written(l) && total + |l| + 2 <= max
    requires LinesOf(more, seen + [Chomp(l)], total + |l| + 2, max) == r
    ensures LinesOf(s, seen, total, max) == r
  {
    var i := RenderedLine(l, more);
  }

  lemma ReadsEnd(more: string, seen: seq<string>, total: nat, max: nat)
    requires seen != [] && total + 2 <= max
    ensures LinesOf("\r\n" + more, seen, total, max) == Ok(Block(seen, more))
  {
    var i := RenderedLine("", more);
    assert "" + "\r\n" + more == "\r\n" + more;
  }

  /** readHTTPHead gives back the rendered lines, each without the line ends it may carry itself. */
  lemma {:induction false} ReadsRendered(lines: seq<string>, more: string, seen: seq<string>, total: nat, max: nat,
                                         r: Result<Block, HeadError>)
    requires AllWritten(lines) && seen + lines != [] && total + |Render(lines)| + 2 <= max
    requires r == Ok(Block(seen + Chomped(lines), more))
    ensures LinesOf(Render(lines) + "\r\n" + more, seen, total, max) == r
    decreases |lines|
  {
    if lines == [] {
      assert Render(lines) + "\r\n" + more == "\r\n" + more && seen + Chomped(lines) == seen;
      ReadsEnd(more, seen, total, max);
    } else {
      var l, tail := lines[0], Render(lines[1..]) + "\r\n" + more;
      assert Written(l);
      assert seen + [Chomp(l)] + Chomped(lines[1..]) == seen + Chomped(lines);
      ReadsRendered(lines[1..], more, seen + [Chomp(l)], total + |l| + 2, max, r);
      RenderedMore(lines, more, tail);
      ReadsLine(Render(lines) + "\r\n" + more, l, tail, seen, total, max, r);
    }
  }

  lemma RenderedMore(lines: seq<string>, more: string, tail: string)
    requires lines != [] && tail == Render(lines[1..]) + "\r\n" + more
    ensures Render(lines) + "\r\n" + more == lines[0] + "\r\n" + tail
  {
  }

  lemma {:induction false} OkLinesStay(lines: seq<string>)
    requires LinesOk(lines)
    ensures Chomped(lines) == lines
  {
    forall i | 0 <= i < |lines| ensures Chomp(lines[i]) == lines[i] { assert LineOk(lines[i]); }
  }

  lemma RequestLineReadsBack(h: Head, path: string, lines: seq<string>)
    requires HeadOk(h) && ' ' !in path && '\n' !in path
    ensures LineOk(RequestLine(h, path))
    ensures ParseHead([RequestLine(h, path)] + lines) == Ok(Head(h.method_, path, h.proto, lines))
  {
    var l := RequestLine(h, path);
    RequestLineIsOk(h, path);
    assert l == h.method_ + [' '] + (path + [' '] + h.proto);
    FindAppend(h.method_, ' ', path + [' '] + h.proto);
    FindAppend(path, ' ', h.proto);
    assert ([l] + lines)[1..] == lines;
  }

  lemma RequestLineIsOk(h: Head, path: string)
    requires HeadOk(h) && '\n' !in path
    ensures LineOk(RequestLine(h, path))
  {
    assert Last(RequestLine(h, path)) == Last(h.proto);
  }

  lemma {:induction false} KeptIsOk(lines: seq<string>, upgrade: bool)
    requires LinesOk(lines)
    ensures LinesOk(Kept(lines, upgrade))
    decreases |lines|
  {
    if lines != [] {
      assert LineOk(lines[0]);
      KeptIsOk(lines[1..], upgrade);
    }
  }

  lemma OkLinesAreWritten(lines: seq<string>)
    requires LinesOk(lines)
    ensures AllWritten(lines)
  {
    forall i | 0 <= i < |lines| ensures Written(lines[i]) { assert LineOk(lines[i]); }
  }

  lemma HostLineIsWritten(present: bool, authority: string)
    requires '\n' !in authority
    ensures AllWritten(HostLine(present, authority))
            && Chomped(HostLine(present, authority)) == HostLine(present, Chomp(authority))
  {
    assert Last("Host: ") == ' ';
    ChompAfter("Host: ", authority);
  }

  lemma CloseLineIsWritten(upgrade: bool)
    ensures AllWritten(CloseLine(upgrade)) && Chomped(CloseLine(upgrade)) == CloseLine(upgrade)
  {
    assert CLOSE[|CLOSE| - 1] == 'e';
  }

  lemma ThreePieces(k: seq<string>, a: seq<string>, b: seq<string>)
    requires AllWritten(k) && AllWritten(a) && AllWritten(b)
    ensures AllWritten(k + a + b) && Chomped(k + a + b) == Chomped(k) + Chomped(a) + Chomped(b)
  {
  }

  /** The lines of the forwarded head come back as they are, but for line ends at the end of the authority. */
  lemma RewrittenIsWritten(lines: seq<string>, authority: string)
    requires LinesOk(lines) && '\n' !in authority
    ensures AllWritten(Rewritten(lines, authority))
    ensures Chomped(Rewritten(lines, authority)) == Rewritten(lines, Chomp(authority))
  {
    var k := Kept(lines, Upgrades(lines));
    KeptIsOk(lines, Upgrades(lines));
    OkLinesStay(k);
    OkLinesAreWritten(k);
    HostLineIsWritten(HasHost(lines), authority);
    CloseLineIsWritten(Upgrades(lines));
    ThreePieces(k, HostLine(HasHost(lines), authority), CloseLine(Upgrades(lines)));
  }

  /**
   * Reading the forwarded request again, with whatever follows it, gives the same method and protocol, the path in
   * place of the target, and the rewritten header lines; what follows is left untouched.
   */
  lemma ForwardReadsBack(h: Head, path: string, authority: string, more: string, max: nat)
    requires HeadOk(h) && ' ' !in path && '\n' !in path && '\n' !in authority
    requires |ForwardOf(h, path, authority)| <= max
    ensures HeadOf(ForwardOf(h, path, authority) + more, max)
            == Ok(Request(Head(h.method_, path, h.proto, Rewritten(h.lines, Chomp(authority))), more))
  {
    var first, rest := RequestLine(h, path), Rewritten(h.lines, authority);
    RequestLineReadsBack(h, path, Rewritten(h.lines, Chomp(authority)));
    RewrittenIsWritten(h.lines, authority);
    HeadReadsBack(first, rest, Rewritten(h.lines, Chomp(authority)), more, max);
  }

  lemma HeadReadsBack(first: string, rest: seq<string>, back: seq<string>, more: string, max: nat)
    requires LineOk(first) && AllWritten(rest) && Chomped(rest) == back && |Render([first] + rest) + "\r\n"| <= max
    ensures HeadOf(Render([first] + rest) + "\r\n" + more, max)
            == match ParseHead([first] + back) case Ok(h) => Ok(Request(h, more)) case Err(e) => Err(e)
  {
    OkLinesStay([first]);
    OkLinesAreWritten([first]);
    ThreePieces([first], rest, []);
    assert [first] + rest + [] == [first] + rest && [first] + back + [] == [first] + back;
    assert [] + ([first] + back) == [first] + back;
    ReadsRendered([first] + rest, more, [], 0, max, Ok(Block([first] + back, more)));
  }
}
