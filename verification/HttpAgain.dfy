/** What the rewritten header says, and that forwarding a forwarded request changes nothing. */
module HttpAgain {
  import opened Basics
  import opened Text
  import opened HttpHead
  import opened HttpForward
  import opened HttpRewrite

  // ---------------------------------------------------------------- names

  /** A header name on which strings.EqualFold and strings.ToLower agree. */
  predicate PlainName(name: string) {
    forall i :: 0 <= i < |name| ==> name[i] < '\U{80}' && name[i] != 's' && name[i] != 'S'
  }

  lemma FoldedIsLowered(s: string, name: string)
    requires PlainName(name) && EqualFold(s, name)
    ensures ToLower(s) == ToLower(name)
  {
    forall i | 0 <= i < |s| ensures Lower(s[i]) == Lower(name[i]) {
      assert FoldCase(s[i]) == FoldCase(name[i]);
    }
  }

  predicate Names(line: string, name: string) {
    Cut(line, ':').found && EqualFold(TrimSpace(Cut(line, ':').before), name)
  }

  lemma NamedLine(line: string, name: string)
    requires PlainName(name) && Names(line, name)
    ensures NameOf(line) == ToLower(name)
  {
    FoldedIsLowered(TrimSpace(Cut(line, ':').before), name);
  }

  lemma LineNamed(line: string, name: string, lower: string, value: string)
    requires line == name + ":" + value && name != "" && ':' !in name && Trimmed(name)
    requires |name| == |lower| && forall i :: 0 <= i < |name| ==> Lower(name[i]) == lower[i]
    ensures NameOf(line) == lower
  {
    FindAppend(name, ':', value);
    assert line == name + [':'] + value;
    TrimmedStays(name);
    assert ToLower(name) == lower;
  }

  lemma LowerNames()
    ensures ToLower("Upgrade") == "upgrade" && PlainName("Upgrade")
  {
  }

  lemma HostLineName(authority: string)
    ensures NameOf("Host: " + authority) == "host"
  {
    LineNamed("Host: " + authority, "Host", "host", " " + authority);
  }

  lemma CloseLineName()
    ensures NameOf(CLOSE) == "connection"
  {
    LineNamed(CLOSE, "Connection", "connection", " close");
  }

  // ---------------------------------------------------------------- looking up headers

  lemma {:induction false} HeaderInTwo(a: seq<string>, b: seq<string>, name: string)
    requires forall i :: 0 <= i < |b| ==> !Names(b[i], name)
    ensures HeaderOf(a + b, name) == HeaderOf(a, name)
    decreases |a| + |b|
  {
    if a == [] {
      assert a + b == b;
      if b != [] {
        assert !Names(b[0], name);
        HeaderInTwo([], b[1..], name);
        assert [] + b[1..] == b[1..];
      }
    } else {
      assert (a + b)[0] == a[0] && (a + b)[1..] == a[1..] + b;
      HeaderInTwo(a[1..], b, name);
    }
  }

  /** A header's value comes from the first line with its name; without such a line it is empty. */
  lemma {:induction false} HeaderIsFirst(lines: seq<string>, name: string, i: nat)
    requires i <= |lines| && forall j :: 0 <= j < i ==> !Names(lines[j], name)
    requires i < |lines| ==> Names(lines[i], name)
    ensures HeaderOf(lines, name) == if i < |lines| then TrimSpace(Cut(lines[i], ':').after) else ""
    decreases |lines|
  {
    if i > 0 {
      assert !Names(lines[0], name);
      HeaderIsFirst(lines[1..], name, i - 1);
    }
  }

  /** Leaving out lines of other names does not change what a header says. */
  lemma {:induction false} HeaderOfKept(lines: seq<string>, upgrade: bool, name: string)
    requires forall i :: 0 <= i < |lines| && Dropped(lines[i], upgrade) ==> !Names(lines[i], name)
    ensures HeaderOf(Kept(lines, upgrade), name) == HeaderOf(lines, name)
    decreases |lines|
  {
    if lines != [] {
      var l, rest := lines[0], Kept(lines[1..], upgrade);
      HeaderOfKept(lines[1..], upgrade, name);
      if Dropped(l, upgrade) {
        assert !Names(l, name);
        assert [] + rest == rest;
      } else {
        assert ([l] + rest)[0] == l && ([l] + rest)[1..] == rest;
      }
    }
  }

  lemma AddedNames(present: bool, upgrade: bool, authority: string, i: nat)
    requires i < |HostLine(present, authority) + CloseLine(upgrade)|
    ensures var n := NameOf((HostLine(present, authority) + CloseLine(upgrade))[i]); n == "host" || n == "connection"
  {
    HostLineName(authority);
    CloseLineName();
  }

  /** A header of any other name is passed on unchanged. */
  lemma OtherHeadersStay(lines: seq<string>, authority: string, name: string)
    requires PlainName(name)
    requires ToLower(name) !in ["host", "connection", "keep-alive", "proxy-connection", "proxy-authorization"]
    ensures HeaderOf(Rewritten(lines, authority), name) == HeaderOf(lines, name)
  {
    var up := Upgrades(lines);
    var k, added := Kept(lines, up), HostLine(HasHost(lines), authority) + CloseLine(up);
    forall i | 0 <= i < |lines| && Dropped(lines[i], up) ensures !Names(lines[i], name) {
      if Names(lines[i], name) { NamedLine(lines[i], name); }
    }
    HeaderOfKept(lines, up, name);
    forall i | 0 <= i < |added| ensures !Names(added[i], name) {
      AddedNames(HasHost(lines), up, authority, i);
      if Names(added[i], name) { NamedLine(added[i], name); }
    }
    HeaderInTwo(k, added, name);
    assert Rewritten(lines, authority) == k + added;
  }

  /** `some` are the elements of `all` at the increasing places `at`, which are all the places where `keep` holds. */
  ghost predicate Filters(some: seq<string>, all: seq<string>, keep: string -> bool, at: seq<nat>) {
    && |at| == |some|
    && (forall i :: 0 <= i < |at| ==> at[i] < |all| && some[i] == all[at[i]])
    && (forall i, j :: 0 <= i < j < |at| ==> at[i] < at[j])
    && (forall k: nat :: k in at <==> k < |all| && keep(all[k]))
  }

  lemma FiltersMore(some: seq<string>, all: seq<string>, keep: string -> bool, at: seq<nat>, l: string)
    requires Filters(some, all, keep, at)
    ensures if keep(l) then Filters(some + [l], all + [l], keep, at + [|all|]) else Filters(some, all + [l], keep, at)
  {
    var longer := all + [l];
    assert forall k: nat :: k < |all| ==> longer[k] == all[k];
  }

  lemma KeptMore(init: seq<string>, l: string, upgrade: bool)
    ensures Kept(init + [l], upgrade) == if Dropped(l, upgrade) then Kept(init, upgrade) else Kept(init, upgrade) + [l]
  {
    KeptInTwo(init, [l], upgrade);
    KeptOne(l, upgrade);
  }

  /** The kept lines are exactly the lines not dropped, in order. */
  lemma {:induction false} KeptInOrder(lines: seq<string>, upgrade: bool) returns (at: seq<nat>)
    ensures Filters(Kept(lines, upgrade), lines, (l: string) => !Dropped(l, upgrade), at)
    decreases |lines|
  {
    if lines == [] { return []; }
    var init, l := lines[..|lines| - 1], Last(lines);
    var before := KeptInOrder(init, upgrade);
    assert lines == init + [l];
    KeptMore(init, l, upgrade);
    FiltersMore(Kept(init, upgrade), init, (l: string) => !Dropped(l, upgrade), before, l);
    at := if Dropped(l, upgrade) then before else before + [|init|];
  }

  lemma {:induction false} KeptIsNotDropped(lines: seq<string>, upgrade: bool)
    ensures forall i :: 0 <= i < |Kept(lines, upgrade)| ==> !Dropped(Kept(lines, upgrade)[i], upgrade)
    decreases |lines|
  {
    if lines != [] { KeptIsNotDropped(lines[1..], upgrade); }
  }

  /** The proxy's own headers, its credentials among them, never reach the target. */
  lemma ProxyHeadersAreGone(lines: seq<string>, authority: string, i: nat)
    requires i < |Rewritten(lines, authority)|
    ensures var n := NameOf(Rewritten(lines, authority)[i]); n != "proxy-authorization" && n != "proxy-connection"
  {
    var up := Upgrades(lines);
    var k, added := Kept(lines, up), HostLine(HasHost(lines), authority) + CloseLine(up);
    assert Rewritten(lines, authority) == k + added;
    KeptIsNotDropped(lines, up);
    if i >= |k| {
      AddedNames(HasHost(lines), up, authority, i - |k|);
    } else {
      assert !Dropped(k[i], up);
    }
  }

  // ---------------------------------------------------------------- forwarding again

  lemma {:induction false} KeptTwice(lines: seq<string>, upgrade: bool)
    requires forall i :: 0 <= i < |lines| ==> !Dropped(lines[i], upgrade)
    ensures Kept(lines, upgrade) == lines
    decreases |lines|
  {
    if lines != [] {
      KeptTwice(lines[1..], upgrade);
      assert [lines[0]] + lines[1..] == lines;
    }
  }

  lemma AddedLinesKept(present: bool, upgrade: bool, authority: string)
    ensures Kept(HostLine(present, authority), upgrade) == HostLine(present, authority)
    ensures Kept(CloseLine(upgrade), upgrade) == []
  {
    HostLineName(authority);
    CloseLineName();
    KeptOne("Host: " + authority, upgrade);
    KeptOne(CLOSE, upgrade);
  }

  lemma {:induction false} KeptHasHost(lines: seq<string>, upgrade: bool)
    ensures HasHost(Kept(lines, upgrade)) <==> HasHost(lines)
    decreases |lines|
  {
    if lines != [] {
      var rest := Kept(lines[1..], upgrade);
      KeptHasHost(lines[1..], upgrade);
      HasHostCons(lines[0], lines[1..]);
      assert [lines[0]] + lines[1..] == lines;
      if Dropped(lines[0], upgrade) {
        assert [] + rest == rest;
      } else {
        HasHostCons(lines[0], rest);
      }
    }
  }

  lemma HasHostInTwo(a: seq<string>, b: seq<string>)
    ensures HasHost(a + b) <==> HasHost(a) || HasHost(b)
  {
    var all := a + b;
    if HasHost(a) {
      var i :| 0 <= i < |a| && IsHost(a[i]);
      assert IsHost(all[i]);
    }
    if HasHost(b) {
      var i :| 0 <= i < |b| && IsHost(b[i]);
      assert IsHost(all[|a| + i]);
    }
  }

  lemma HasHostCons(l: string, lines: seq<string>)
    ensures HasHost([l] + lines) <==> IsHost(l) || HasHost(lines)
  {
    HasHostInTwo([l], lines);
    assert [l][0] == l;
  }

  lemma RewrittenHasHost(lines: seq<string>, authority: string)
    ensures HasHost(Rewritten(lines, authority))
  {
    var up, has := Upgrades(lines), HasHost(lines);
    var k, a := Kept(lines, up), HostLine(has, authority);
    KeptHasHost(lines, up);
    HostLineName(authority);
    if !has { assert IsHost(a[0]); }
    HasHostInTwo(k, a);
    HasHostInTwo(k + a, CloseLine(up));
  }

  lemma RewrittenUpgrades(lines: seq<string>, authority: string)
    ensures Upgrades(Rewritten(lines, authority)) == Upgrades(lines)
  {
    LowerNames();
    OtherHeadersStay(lines, authority, "Upgrade");
  }

  /** Rewriting what was rewritten changes nothing, whatever authority comes with it. */
  lemma RewrittenTwice(lines: seq<string>, authority: string, other: string)
    ensures Rewritten(Rewritten(lines, authority), other) == Rewritten(lines, authority)
  {
    var up, has := Upgrades(lines), HasHost(lines);
    var k, a, b := Kept(lines, up), HostLine(has, authority), CloseLine(up);
    RewrittenHasHost(lines, authority);
    RewrittenUpgrades(lines, authority);
    KeptIsNotDropped(lines, up);
    KeptTwice(k, up);
    AddedLinesKept(has, up, authority);
    KeptInTwo(k + a, b, up);
    KeptInTwo(k, a, up);
    assert k + a + [] == k + a && k + a + [] + b == k + a + b;
  }

  lemma RenderLength(first: string, k: seq<string>, a: seq<string>, b: seq<string>)
    ensures |Render([first] + (k + a + b))| == |first| + 2 + |Render(k)| + |Render(a)| + |Render(b)|
  {
    RenderParts(first, k, a, b);
  }

  /**
   * Forwarding the forwarded request once more gives identical bytes exactly when the request named its host or the
   * authority of its target does not end in a line end.
   */
  lemma ForwardAgain(h: Head, path: string, authority: string, other: string)
    ensures var h' := Head(h.method_, path, h.proto, Rewritten(h.lines, Chomp(authority)));
      ForwardOf(h', path, other) == ForwardOf(h, path, authority) <==> HasHost(h.lines) || Chomp(authority) == authority
  {
    var a := Chomp(authority);
    RewrittenTwice(h.lines, a, other);
    var up, has := Upgrades(h.lines), HasHost(h.lines);
    var first, k := RequestLine(h, path), Kept(h.lines, up);
    RenderLength(first, k, HostLine(has, a), CloseLine(up));
    RenderLength(first, k, HostLine(has, authority), CloseLine(up));
    AddedLines(has, up, a);
    AddedLines(has, up, authority);
    ChompIs(authority);
  }
}
