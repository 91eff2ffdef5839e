/** Rewriting a proxy request for the target, and reading the result again. */
module HttpForward {
  import opened Basics
  import opened Text
  import opened HttpHead

  // ---------------------------------------------------------------- headers

  /** The value of the first header with this name, or "". */
  function HeaderOf(lines: seq<string>, name: string): string
    decreases |lines|
  {
    if lines == [] then ""
    else
      var c := Cut(lines[0], ':');
      if c.found && EqualFold(TrimSpace(c.before), name) then TrimSpace(c.after) else HeaderOf(lines[1..], name)
  }

  method Header(h: Head, name: string) returns (v: string)
    ensures v == HeaderOf(h.lines, name)
  {
    for i := 0 to |h.lines|
      invariant HeaderOf(h.lines, name) == HeaderOf(h.lines[i..], name)
    {
      assert h.lines[i..][0] == h.lines[i] && h.lines[i..][1..] == h.lines[i + 1..];
      var c := Cut(h.lines[i], ':');
      if c.found && EqualFold(TrimSpace(c.before), name) { return TrimSpace(c.after); }
    }
    v := "";
  }

  /** The lower-case name of a header line. */
  function NameOf(line: string): string {
    ToLower(TrimSpace(Cut(line, ':').before))
  }

  predicate Upgrades(lines: seq<string>) {
    HeaderOf(lines, "Upgrade") != ""
  }

  /** Whether forward leaves a line out. */
  predicate Dropped(line: string, upgrade: bool) {
    var n := NameOf(line);
    || n == "proxy-connection" || n == "proxy-authorization"
    || (!upgrade && (n == "connection" || n == "keep-alive"))
  }

  function Kept(lines: seq<string>, upgrade: bool): seq<string>
    decreases |lines|
  {
    if lines == [] then []
    else (if Dropped(lines[0], upgrade) then [] else [lines[0]]) + Kept(lines[1..], upgrade)
  }

  predicate IsHost(line: string) {
    NameOf(line) == "host"
  }

  predicate HasHost(lines: seq<string>) {
    exists i :: 0 <= i < |lines| && IsHost(lines[i])
  }

  const CLOSE := "Connection: close"

  /** The header lines of the forwarded request. */
  function Rewritten(lines: seq<string>, authority: string): seq<string> {
    var up := Upgrades(lines);
    Kept(lines, up) + HostLine(HasHost(lines), authority) + CloseLine(up)
  }

  function Render(lines: seq<string>): string
    decreases |lines|
  {
    if lines == [] then "" else lines[0] + "\r\n" + Render(lines[1..])
  }

  function RequestLine(h: Head, path: string): string {
    h.method_ + " " + path + " " + h.proto
  }

  /** The forwarded request: its head, with an empty line at the end. */
  function ForwardOf(h: Head, path: string, authority: string): string {
    Render([RequestLine(h, path)] + Rewritten(h.lines, authority)) + "\r\n"
  }

  lemma {:induction false} RenderInTwo(a: seq<string>, b: seq<string>)
    ensures Render(a + b) == Render(a) + Render(b)
    decreases |a|
  {
    if a == [] {
      assert a + b == b;
    } else {
      assert (a + b)[0] == a[0] && (a + b)[1..] == a[1..] + b;
      RenderInTwo(a[1..], b);
    }
  }

  lemma RenderOne(line: string)
    ensures Render([line]) == line + "\r\n"
  {
    assert Render([line][1..]) == "";
  }

  lemma KeptOne(line: string, upgrade: bool)
    ensures Kept([line], upgrade) == if Dropped(line, upgrade) then [] else [line]
  {
    assert Kept([line][1..], upgrade) == [];
  }

  /** The lines that are not to be dropped. */
  function Filtered(lines: seq<string>, drop: string -> bool): seq<string>
    decreases |lines|
  {
    if lines == [] then []
    else (if drop(lines[0]) then [] else [lines[0]]) + Filtered(lines[1..], drop)
  }

  lemma {:induction false} KeptIsFiltered(lines: seq<string>, upgrade: bool, drop: string -> bool)
    requires forall l :: drop(l) == Dropped(l, upgrade)
    ensures Kept(lines, upgrade) == Filtered(lines, drop)
    decreases |lines|
  {
    if lines != [] { KeptIsFiltered(lines[1..], upgrade, drop); }
  }

  lemma {:induction false} FilteredInTwo(a: seq<string>, b: seq<string>, drop: string -> bool)
    ensures Filtered(a + b, drop) == Filtered(a, drop) + Filtered(b, drop)
    decreases |a|
  {
    if a == [] {
      assert a + b == b;
    } else {
      assert (a + b)[0] == a[0] && (a + b)[1..] == a[1..] + b;
      FilteredInTwo(a[1..], b, drop);
    }
  }

  lemma KeptInTwo(a: seq<string>, b: seq<string>, upgrade: bool)
    ensures Kept(a + b, upgrade) == Kept(a, upgrade) + Kept(b, upgrade)
  {
    var drop := (l: string) => Dropped(l, upgrade);
    KeptIsFiltered(a, upgrade, drop);
    KeptIsFiltered(b, upgrade, drop);
    KeptIsFiltered(a + b, upgrade, drop);
    FilteredInTwo(a, b, drop);
  }

  lemma FilteredMore(lines: seq<string>, l: string, drop: string -> bool)
    ensures Filtered(lines + [l], drop) == Filtered(lines, drop) + if drop(l) then [] else [l]
  {
    FilteredInTwo(lines, [l], drop);
    assert Filtered([l][1..], drop) == [];
  }

  /** One more line in the loop of forward. */
  lemma KeepsOn(lines: seq<string>, i: nat, drop: string -> bool)
    requires i < |lines|
    ensures Render(Filtered(lines[..i + 1], drop))
            == Render(Filtered(lines[..i], drop)) + if drop(lines[i]) then "" else lines[i] + "\r\n"
  {
    assert lines[..i + 1] == lines[..i] + [lines[i]];
    FilteredMore(lines[..i], lines[i], drop);
    var k := Filtered(lines[..i], drop);
    if drop(lines[i]) {
      assert k + [] == k;
    } else {
      RenderInTwo(k, [lines[i]]);
      RenderOne(lines[i]);
    }
  }

  lemma RenderParts(first: string, k: seq<string>, a: seq<string>, b: seq<string>)
    ensures Render([first] + (k + a + b)) == first + "\r\n" + Render(k) + Render(a) + Render(b)
  {
    RenderOne(first);
    RenderInTwo(k, a);
    RenderInTwo(k + a, b);
    RenderInTwo([first], k + a + b);
  }

  function HostLine(present: bool, authority: string): seq<string> {
    if present then [] else ["Host: " + authority]
  }

  function CloseLine(upgrade: bool): seq<string> {
    if upgrade then [] else [CLOSE]
  }

  lemma AddedLines(present: bool, upgrade: bool, authority: string)
    ensures Render(HostLine(present, authority)) == if present then "" else "Host: " + authority + "\r\n"
    ensures Render(CloseLine(upgrade)) == if upgrade then "" else "Connection: close\r\n"
  {
    RenderOne("Host: " + authority);
    RenderOne(CLOSE);
  }

  lemma TextMore(first: string, text: string, more: string)
    ensures first + text + more == first + (text + more)
  {
  }

  /** The loop of forward: the lines kept, and whether one of them all is the host. */
  method KeepLines(lines: seq<string>, drop: string -> bool, isHost: string -> bool, first: string)
    returns (b: string, hasHost: bool)
    ensures b == first + Render(Filtered(lines, drop))
    ensures hasHost <==> exists i :: 0 <= i < |lines| && isHost(lines[i])
  {
    b, hasHost := first, false;
    for i := 0 to |lines|
      invariant b == first + Render(Filtered(lines[..i], drop))
      invariant hasHost <==> exists j :: 0 <= j < i && isHost(lines[j])
    {
      KeepsOn(lines, i, drop);
      hasHost := hasHost || isHost(lines[i]);
      TextMore(first, Render(Filtered(lines[..i], drop)), if drop(lines[i]) then "" else lines[i] + "\r\n");
      if drop(lines[i]) { continue; }
      b := b + (lines[i] + "\r\n");
    }
    assert lines[..|lines|] == lines;
  }

  /** The end of forward: what is added after the kept lines. */
  method Finish(start: string, line: string, kept: seq<string>, hasHost: bool, upgrade: bool, authority: string)
    returns (b: string)
    requires start == line + "\r\n" + Render(kept)
    ensures b == Render([line] + (kept + HostLine(hasHost, authority) + CloseLine(upgrade))) + "\r\n"
  {
    AddedLines(hasHost, upgrade, authority);
    RenderParts(line, kept, HostLine(hasHost, authority), CloseLine(upgrade));
    var host := if hasHost then "" else "Host: " + authority + "\r\n";
    var close := if upgrade then "" else "Connection: close\r\n";
    b := start + host + close + "\r\n";
  }

  /** forward, with its builder. */
  method Forward(h: Head, path: string, authority: string) returns (b: string)
    ensures b == ForwardOf(h, path, authority)
  {
    var u := Header(h, "Upgrade");
    var upgrade, line := u != "", h.method_ + " " + path + " " + h.proto;
    var drop, isHost := (l: string) => Dropped(l, upgrade), (l: string) => IsHost(l);
    var start, hasHost := KeepLines(h.lines, drop, isHost, line + "\r\n");
    KeptIsFiltered(h.lines, upgrade, drop);
    b := Finish(start, line, Kept(h.lines, upgrade), hasHost, upgrade, authority);
  }
}
