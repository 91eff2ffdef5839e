/** The order of the [servers] and [proxies] blocks makes no difference: proxies may refer to servers defined later. */
module ConfigBlocks {
  import opened Basics
  import opened Text
  import opened ConfigModel

  function Content(raw: string): string {
    TrimSpace(StripComment(raw))
  }

  /** Lines of a block: anything but a section header. */
  predicate Entries(raws: seq<string>) {
    forall i :: 0 <= i < |raws| ==> !IsSection(Content(raws[i]))
  }

  /** The same proxies in the same order, whatever lines they stand on. */
  predicate SameProxies(a: seq<ProxyLine>, b: seq<ProxyLine>) {
    |a| == |b| && forall i :: 0 <= i < |a| ==> a[i].listen == b[i].listen && a[i].route == b[i].route
  }

  lemma ReadInTwo(isIP: IsIP, st: Reader, n: nat, a: seq<string>, b: seq<string>)
    ensures ReadLines(isIP, st, n, a + b)
            == var r := ReadLines(isIP, st, n, a); if r.Err? then r else ReadLines(isIP, r.value, n + |a|, b)
  {
    FoldInTwo((s: Reader, k: nat, raw: string) => RawLine(isIP, s, k, raw), st, n, a, b);
  }

  /** Both readers go on or both stop; what was read changed the servers only, in the same way. */
  predicate OnlyServers(st: Reader, r: Result<Reader, ConfigError>, st': Reader, r': Result<Reader, ConfigError>) {
    && (r.Ok? <==> r'.Ok?)
    && (r.Ok? ==>
          && r.value == Reader("servers", r.value.servers, st.proxies)
          && r'.value == Reader("servers", r.value.servers, st'.proxies))
  }

  /** Both readers go on or both stop; what was read changed the proxies only, in the same way. */
  predicate OnlyProxies(st: Reader, r: Result<Reader, ConfigError>, st': Reader, r': Result<Reader, ConfigError>) {
    && (r.Ok? <==> r'.Ok?)
    && (r.Ok? ==>
          && r.value == Reader("proxies", st.servers, r.value.proxies)
          && r'.value == Reader("proxies", st'.servers, r'.value.proxies)
          && SameProxies(r.value.proxies, r'.value.proxies))
  }

  /** One entry of the [servers] block looks at and changes the servers only. */
  lemma ServersEntry(isIP: IsIP, st: Reader, st': Reader, n: nat, n': nat, raw: string)
    requires st.section == st'.section == "servers" && st.servers == st'.servers && !IsSection(Content(raw))
    ensures OnlyServers(st, RawLine(isIP, st, n, raw), st', RawLine(isIP, st', n', raw))
  {
    if Content(raw) != "" && CutEntry(Content(raw)).Ok? {
      var e := CutEntry(Content(raw)).value;
      assert EntryLine(isIP, st, n, e.key, e.words) == ServersLine(isIP, st, e.key, e.words);
      assert EntryLine(isIP, st', n', e.key, e.words) == ServersLine(isIP, st', e.key, e.words);
    }
  }

  lemma {:induction false} ServersBlock(isIP: IsIP, st: Reader, st': Reader, n: nat, n': nat, raws: seq<string>)
    requires st.section == st'.section == "servers" && st.servers == st'.servers && Entries(raws)
    ensures OnlyServers(st, ReadLines(isIP, st, n, raws), st', ReadLines(isIP, st', n', raws))
    decreases |raws|
  {
    if raws != [] {
      ServersEntry(isIP, st, st', n, n', raws[0]);
      var r, r' := RawLine(isIP, st, n, raws[0]), RawLine(isIP, st', n', raws[0]);
      if r.Ok? { ServersBlock(isIP, r.value, r'.value, n + 1, n' + 1, raws[1..]); }
    }
  }

  /** One entry of the [proxies] block only appends to the proxies, without looking at the servers. */
  lemma ProxiesEntry(isIP: IsIP, st: Reader, st': Reader, n: nat, n': nat, raw: string)
    requires st.section == st'.section == "proxies" && SameProxies(st.proxies, st'.proxies) && !IsSection(Content(raw))
    ensures OnlyProxies(st, RawLine(isIP, st, n, raw), st', RawLine(isIP, st', n', raw))
  {
    if Content(raw) != "" && CutEntry(Content(raw)).Ok? {
      var e := CutEntry(Content(raw)).value;
      assert EntryLine(isIP, st, n, e.key, e.words) == ProxiesLine(isIP, st, n, e.key, e.words);
      assert EntryLine(isIP, st', n', e.key, e.words) == ProxiesLine(isIP, st', n', e.key, e.words);
    }
  }

  lemma {:induction false} ProxiesBlock(isIP: IsIP, st: Reader, st': Reader, n: nat, n': nat, raws: seq<string>)
    requires st.section == st'.section == "proxies" && SameProxies(st.proxies, st'.proxies) && Entries(raws)
    ensures OnlyProxies(st, ReadLines(isIP, st, n, raws), st', ReadLines(isIP, st', n', raws))
    decreases |raws|
  {
    if raws != [] {
      ProxiesEntry(isIP, st, st', n, n', raws[0]);
      var r, r' := RawLine(isIP, st, n, raws[0]), RawLine(isIP, st', n', raws[0]);
      if r.Ok? { ProxiesBlock(isIP, r.value, r'.value, n + 1, n' + 1, raws[1..]); }
    }
  }

  predicate IsHeader(raw: string, section: string) {
    IsSection(Content(raw)) && ToLower(TrimSpace(Content(raw)[1..|Content(raw)| - 1])) == section
  }

  /** A block with its header, read from any state. */
  lemma HeaderThenBlock(isIP: IsIP, st: Reader, n: nat, header: string, section: string, raws: seq<string>)
    requires IsHeader(header, section) && (section == "servers" || section == "proxies")
    ensures ReadLines(isIP, st, n, [header] + raws) == ReadLines(isIP, st.(section := section), n + 1, raws)
  {
    var all := [header] + raws;
    assert all[0] == header && all[1..] == raws;
    assert RawLine(isIP, st, n, header) == Ok(st.(section := section));
  }

  /** A sequence of lines that, from any state, only adds servers (respectively proxies). */
  ghost predicate ServersSegment(isIP: IsIP, a: seq<string>) {
    forall st: Reader, st': Reader, n: nat, n': nat {:trigger ReadLines(isIP, st, n, a), ReadLines(isIP, st', n', a)} ::
      st.servers == st'.servers ==> OnlyServers(st, ReadLines(isIP, st, n, a), st', ReadLines(isIP, st', n', a))
  }

  ghost predicate ProxiesSegment(isIP: IsIP, b: seq<string>) {
    forall st: Reader, st': Reader, n: nat, n': nat {:trigger ReadLines(isIP, st, n, b), ReadLines(isIP, st', n', b)} ::
      SameProxies(st.proxies, st'.proxies) ==>
        OnlyProxies(st, ReadLines(isIP, st, n, b), st', ReadLines(isIP, st', n', b))
  }

  lemma ServersBlockIsSegment(isIP: IsIP, header: string, raws: seq<string>)
    requires IsHeader(header, "servers") && Entries(raws)
    ensures ServersSegment(isIP, [header] + raws)
  {
    forall st: Reader, st': Reader, n: nat, n': nat | st.servers == st'.servers
      ensures OnlyServers(st, ReadLines(isIP, st, n, [header] + raws), st', ReadLines(isIP, st', n', [header] + raws))
    {
      HeaderThenBlock(isIP, st, n, header, "servers", raws);
      HeaderThenBlock(isIP, st', n', header, "servers", raws);
      ServersBlock(isIP, st.(section := "servers"), st'.(section := "servers"), n + 1, n' + 1, raws);
    }
  }

  lemma ProxiesBlockIsSegment(isIP: IsIP, header: string, raws: seq<string>)
    requires IsHeader(header, "proxies") && Entries(raws)
    ensures ProxiesSegment(isIP, [header] + raws)
  {
    forall st: Reader, st': Reader, n: nat, n': nat | SameProxies(st.proxies, st'.proxies)
      ensures OnlyProxies(st, ReadLines(isIP, st, n, [header] + raws), st', ReadLines(isIP, st', n', [header] + raws))
    {
      HeaderThenBlock(isIP, st, n, header, "proxies", raws);
      HeaderThenBlock(isIP, st', n', header, "proxies", raws);
      ProxiesBlock(isIP, st.(section := "proxies"), st'.(section := "proxies"), n + 1, n' + 1, raws);
    }
  }

  lemma {:induction false} ResolveIgnoresLines(servers: map<string, Server>, taken: set<string>, a: seq<ProxyLine>,
                                               b: seq<ProxyLine>)
    requires SameProxies(a, b)
    ensures var r, r' := Resolve(servers, taken, a), Resolve(servers, taken, b);
      (r.Ok? <==> r'.Ok?) && (r.Ok? ==> r == r')
    decreases |a|
  {
    if a != [] { ResolveIgnoresLines(servers, taken + {a[0].listen}, a[1..], b[1..]); }
  }

  /** What is read from the two segments in either order. */
  lemma SegmentsRead(isIP: IsIP, a: seq<string>, b: seq<string>)
    requires ServersSegment(isIP, a) && ProxiesSegment(isIP, b)
    ensures var r, r' := ReadLines(isIP, START, 1, a + b), ReadLines(isIP, START, 1, b + a);
      && (r.Ok? <==> r'.Ok?)
      && (r.Ok? ==> r.value.servers == r'.value.servers && SameProxies(r.value.proxies, r'.value.proxies))
  {
    ReadInTwo(isIP, START, 1, a, b);
    ReadInTwo(isIP, START, 1, b, a);
    var ra, rb := ReadLines(isIP, START, 1, a), ReadLines(isIP, START, 1, b);
    if ra.Ok? {
      assert OnlyServers(START, ra, START, ra);
      assert OnlyProxies(START, rb, ra.value, ReadLines(isIP, ra.value, 1 + |a|, b));
    }
    if rb.Ok? {
      assert OnlyProxies(START, rb, START, rb);
      assert OnlyServers(START, ra, rb.value, ReadLines(isIP, rb.value, 1 + |b|, a));
    }
  }

  /** Swapping the blocks gives the same configuration, or rejects both. */
  lemma BlocksCommute(isIP: IsIP, hs: string, s: seq<string>, hp: string, p: seq<string>)
    requires IsHeader(hs, "servers") && Entries(s) && IsHeader(hp, "proxies") && Entries(p)
    ensures var r, r' := ParseLines(isIP, ([hs] + s) + ([hp] + p)), ParseLines(isIP, ([hp] + p) + ([hs] + s));
      (r.Ok? <==> r'.Ok?) && (r.Ok? ==> r == r')
  {
    ServersBlockIsSegment(isIP, hs, s);
    ProxiesBlockIsSegment(isIP, hp, p);
    SegmentsCommute(isIP, [hs] + s, [hp] + p);
  }

  lemma SegmentsCommute(isIP: IsIP, a: seq<string>, b: seq<string>)
    requires ServersSegment(isIP, a) && ProxiesSegment(isIP, b)
    ensures var r, r' := ParseLines(isIP, a + b), ParseLines(isIP, b + a);
      (r.Ok? <==> r'.Ok?) && (r.Ok? ==> r == r')
  {
    SegmentsRead(isIP, a, b);
    var r, r' := ReadLines(isIP, START, 1, a + b), ReadLines(isIP, START, 1, b + a);
    if r.Ok? { ResolveIgnoresLines(r.value.servers, {}, r.value.proxies, r'.value.proxies); }
  }
}
