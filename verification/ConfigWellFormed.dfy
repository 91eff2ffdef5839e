/** What every accepted configuration satisfies. */
module ConfigWellFormed {
  import opened Basics
  import opened Text
  import opened ConfigModel

  predicate IPChar(c: char) {
    IsDigit(c) || 'a' <= c <= 'f' || 'A' <= c <= 'F' || c == '.' || c == ':'
  }

  /** What is taken from net.ParseIP: its alphabet, that a colon never comes alone, and the two constants in use. */
  ghost predicate IPSyntax(isIP: IsIP) {
    && isIP("0.0.0.0") && isIP("127.0.0.1")
    && (forall h: string :: isIP(h) ==> h != "" && forall i :: 0 <= i < |h| ==> IPChar(h[i]))
    && (forall h: string :: isIP(h) && ':' in h ==> exists i, j :: 0 <= i < j < |h| && h[i] == ':' && h[j] == ':')
  }

  predicate ServerOk(isIP: IsIP, s: Server) {
    s.user != "" && HostOk(isIP, s.host) && 1 <= s.port <= 65535
  }

  lemma ParsedAddressIsOk(isIP: IsIP, w: string)
    ensures var r := ParseAddress(isIP, w);
      r.Ok? ==>
        && ServerOk(isIP, r.value) && r.value.name == "" && r.value.keys == []
        && r.value.password == r.value.passphrase == ""
  {
  }

  lemma OptionKeepsServer(isIP: IsIP, s: Server, k: string, v: string)
    requires ServerOk(isIP, s)
    ensures var r := SetServerOption(s, k, v);
      r.Ok? ==>
        && ServerOk(isIP, r.value)
        && r.value.(keys := s.keys, password := s.password, passphrase := s.passphrase) == s
  {
  }

  lemma {:induction false} ParsedServerIsOk(isIP: IsIP, s: Option<Server>, words: seq<string>)
    requires s.Some? ==> ServerOk(isIP, s.value)
    ensures var r := ServerWords(isIP, s, words); r.Ok? ==> ServerOk(isIP, r.value)
    decreases |words|
  {
    if words != [] {
      match CutOption(words[0])
      case Plain =>
        ParsedAddressIsOk(isIP, words[0]);
        var a := ParseAddress(isIP, words[0]);
        if a.Ok? { ParsedServerIsOk(isIP, Some(a.value), words[1..]); }
      case Setting(k, v) =>
        if s.Some? {
          OptionKeepsServer(isIP, s.value, k, v);
          var t := SetServerOption(s.value, k, v);
          if t.Ok? { ParsedServerIsOk(isIP, Some(t.value), words[1..]); }
        }
    }
  }

  // ---------------------------------------------------------------- labels

  /** A printed host and port read back, and so does a bare host. */
  lemma HostPortReadsBack(isIP: IsIP, hostport: string, host: string, port: int)
    requires HostOk(isIP, host) && 1 <= port <= 65535
    requires SplitHostPort(hostport) == Some(HostPort(host, Itoa(port)))
             || (SplitHostPort(hostport).None? && hostport == host && port == 22)
    ensures ParseHostPort(isIP, hostport) == Ok(Endpoint(host, port))
  {
    AtoiOfItoa(port);
    assert host[0] in host && host[|host| - 1] in host;
  }

  lemma AddressReadsBack(isIP: IsIP, user: string, hostport: string, host: string, port: int)
    requires user != "" && hostport != "" && '@' !in hostport
    requires ParseHostPort(isIP, hostport) == Ok(Endpoint(host, port))
    ensures ParseAddress(isIP, user + "@" + hostport) == Ok(Server("", user, host, port, [], "", ""))
  {
    var w := user + ['@'] + hostport;
    FindLastAppend(user, '@', hostport);
    assert w[..|user|] == user && w[|user| + 1..] == hostport;
  }

  lemma NotInDigits(n: nat, c: char)
    requires !IsDigit(c)
    ensures c !in Itoa(n)
  {
  }

  lemma NoAtInJoin(host: string, port: nat)
    requires '@' !in host
    ensures '@' !in JoinHostPort(host, Itoa(port)) && JoinHostPort(host, Itoa(port)) != ""
  {
    NotInDigits(port, '@');
  }

  /** user@host:port, with brackets around an IPv6 host, parses back to the three. */
  lemma FullAddressReadsBack(isIP: IsIP, s: Server)
    requires ServerOk(isIP, s)
    ensures ParseAddress(isIP, s.user + "@" + Addr(s)) == Ok(Server("", s.user, s.host, s.port, [], "", ""))
  {
    NotInDigits(s.port, ':');
    NotInDigits(s.port, '[');
    NotInDigits(s.port, ']');
    SplitOfJoin(s.host, Itoa(s.port));
    NoAtInJoin(s.host, s.port);
    HostPortReadsBack(isIP, Addr(s), s.host, s.port);
    AddressReadsBack(isIP, s.user, Addr(s), s.host, s.port);
  }

  /** A host without a port is not mistaken for one with a port. */
  lemma BareHostIsNotSplit(isIP: IsIP, host: string)
    requires IPSyntax(isIP) && HostOk(isIP, host)
    ensures SplitHostPort(host).None?
  {
    FindLastIsLast(host, ':');
    assert host[0] in host;
    if ':' in host {
      var i, j :| 0 <= i < j < |host| && host[i] == ':' && host[j] == ':';
      var last := FindLast(host, ':');
      assert host[..last][i] == ':';
    }
  }

  /** parseAddress of the label of an unnamed hop gives the hop's user, host and port. */
  lemma LabelReadsBack(isIP: IsIP, s: Server)
    requires IPSyntax(isIP) && ServerOk(isIP, s) && s.name == ""
    ensures ParseAddress(isIP, Label(s)) == Ok(Server("", s.user, s.host, s.port, [], "", ""))
  {
    if s.port == 22 {
      BareHostIsNotSplit(isIP, s.host);
      HostPortReadsBack(isIP, s.host, s.host, 22);
      AddressReadsBack(isIP, s.user, s.host, s.host, 22);
    } else {
      FullAddressReadsBack(isIP, s);
    }
  }

  // ---------------------------------------------------------------- listen addresses

  lemma IPIsPlain(isIP: IsIP, host: string)
    requires IPSyntax(isIP) && isIP(host)
    ensures ListenHost(isIP, host) == Ok(host) && NoBrackets(host)
  {
    assert IPChar(host[0]) && FoldCase(host[0]) != 'l';
  }

  lemma JoinedListenParts(host: string, port: nat)
    requires NoBrackets(host)
    ensures ListenParts(JoinHostPort(host, Itoa(port))) == Ok(HostPort(host, Itoa(port)))
  {
    NotInDigits(port, ':');
    NotInDigits(port, '[');
    NotInDigits(port, ']');
    SplitOfJoin(host, Itoa(port));
    var l := JoinHostPort(host, Itoa(port));
    assert l[if ':' in host then |host| + 2 else |host|] == ':';
  }

  lemma JoinedListenIsNormal(isIP: IsIP, host: string, port: nat)
    requires IPSyntax(isIP) && isIP(host) && 1 <= port <= 65535
    ensures NormalizeListen(isIP, JoinHostPort(host, Itoa(port))) == Ok(JoinHostPort(host, Itoa(port)))
  {
    IPIsPlain(isIP, host);
    JoinedListenParts(host, port);
    AtoiOfItoa(port);
  }

  /** An IP, a colon and a port in range. */
  ghost predicate NormalListen(isIP: IsIP, l: string) {
    exists host, port: nat :: isIP(host) && 1 <= port <= 65535 && l == JoinHostPort(host, Itoa(port))
  }

  /** Every accepted listen address is in normal form, and normalizing it again changes nothing. */
  lemma ListenIsNormal(isIP: IsIP, s: string)
    requires IPSyntax(isIP)
    ensures var r := NormalizeListen(isIP, s); r.Ok? ==>
      NormalizeListen(isIP, r.value) == r && NormalListen(isIP, r.value)
  {
    var r := NormalizeListen(isIP, s);
    if r.Ok? {
      var hp := ListenParts(s).value;
      JoinedListenIsNormal(isIP, ListenHost(isIP, hp.host).value, Atoi(hp.port).value);
    }
  }

  // ---------------------------------------------------------------- reading keeps order

  predicate HopOk(isIP: IsIP, h: Hop) {
    h.Inline? ==> ServerOk(isIP, h.server) && h.server.name == ""
  }

  predicate HopsOk(isIP: IsIP, hops: seq<Hop>) {
    forall i :: 0 <= i < |hops| ==> HopOk(isIP, hops[i])
  }

  lemma {:induction false} AddedHopsAreOk(isIP: IsIP, hops: seq<Hop>, names: seq<string>)
    requires HopsOk(isIP, hops)
    ensures var r := AddHops(isIP, hops, names); r.Ok? ==> HopsOk(isIP, r.value)
    decreases |names|
  {
    if names != [] {
      if '@' !in names[0] {
        AddedHopsAreOk(isIP, hops + [Named(names[0])], names[1..]);
      } else {
        ParsedAddressIsOk(isIP, names[0]);
        var s := ParseAddress(isIP, names[0]);
        if s.Ok? { AddedHopsAreOk(isIP, hops + [Inline(s.value)], names[1..]); }
      }
    }
  }

  lemma RouteOptionIsOk(isIP: IsIP, r: Route, k: string, v: string)
    requires HopsOk(isIP, r.hops)
    ensures RouteOption(r, k, v).Ok? ==> HopsOk(isIP, RouteOption(r, k, v).value.hops)
  {
    if |r.hops| > 0 && Last(r.hops).Inline? {
      assert HopOk(isIP, r.hops[|r.hops| - 1]);
      OptionKeepsServer(isIP, Last(r.hops).server, k, v);
    }
  }

  lemma RouteWordIsOk(isIP: IsIP, r: Route, w: string)
    requires HopsOk(isIP, r.hops)
    ensures RouteWord(isIP, r, w).Ok? ==> HopsOk(isIP, RouteWord(isIP, r, w).value.hops)
  {
    match CutOption(w)
    case Plain => AddedHopsAreOk(isIP, r.hops, SplitHops(w));
    case Setting(k, v) => RouteOptionIsOk(isIP, r, k, v);
  }

  lemma {:induction false} RouteIsOk(isIP: IsIP, r: Route, words: seq<string>)
    requires HopsOk(isIP, r.hops)
    ensures RouteWords(isIP, r, words).Ok? ==> HopsOk(isIP, RouteWords(isIP, r, words).value.hops)
    decreases |words|
  {
    if words != [] {
      RouteWordIsOk(isIP, r, words[0]);
      if RouteWord(isIP, r, words[0]).Ok? { RouteIsOk(isIP, RouteWord(isIP, r, words[0]).value, words[1..]); }
    }
  }

  lemma ParsedRouteIsOk(isIP: IsIP, words: seq<string>)
    ensures var r := ParseRoute(isIP, words); r.Ok? ==> |r.value.hops| > 0 && HopsOk(isIP, r.value.hops)
  {
    RouteIsOk(isIP, Route([], "", ""), words);
  }

  predicate ServersOk(isIP: IsIP, servers: map<string, Server>) {
    forall k :: k in servers ==> ServerOk(isIP, servers[k]) && servers[k].name == k && k != ""
  }

  predicate ProxyLineOk(isIP: IsIP, pl: ProxyLine) {
    && NormalizeListen(isIP, pl.listen) == Ok(pl.listen)
    && |pl.route.hops| > 0 && HopsOk(isIP, pl.route.hops)
  }

  predicate ReaderOk(isIP: IsIP, st: Reader) {
    && ServersOk(isIP, st.servers)
    && (forall i :: 0 <= i < |st.proxies| ==> ProxyLineOk(isIP, st.proxies[i]))
  }

  lemma ServersLineIsOk(isIP: IsIP, st: Reader, key: string, words: seq<string>)
    requires ReaderOk(isIP, st) && key != ""
    ensures ServersLine(isIP, st, key, words).Ok? ==> ReaderOk(isIP, ServersLine(isIP, st, key, words).value)
  {
    ParsedServerIsOk(isIP, None, words);
  }

  lemma ProxiesLineIsOk(isIP: IsIP, st: Reader, n: nat, key: string, words: seq<string>)
    requires IPSyntax(isIP) && ReaderOk(isIP, st)
    ensures ProxiesLine(isIP, st, n, key, words).Ok? ==> ReaderOk(isIP, ProxiesLine(isIP, st, n, key, words).value)
  {
    ListenIsNormal(isIP, key);
    ParsedRouteIsOk(isIP, words);
  }

  lemma EntryIsOk(isIP: IsIP, st: Reader, n: nat, key: string, words: seq<string>)
    requires IPSyntax(isIP) && ReaderOk(isIP, st) && key != ""
    ensures EntryLine(isIP, st, n, key, words).Ok? ==> ReaderOk(isIP, EntryLine(isIP, st, n, key, words).value)
  {
    ServersLineIsOk(isIP, st, key, words);
    ProxiesLineIsOk(isIP, st, n, key, words);
  }

  lemma LineIsOk(isIP: IsIP, st: Reader, n: nat, line: string)
    requires IPSyntax(isIP) && ReaderOk(isIP, st)
    ensures ContentLine(isIP, st, n, line).Ok? ==> ReaderOk(isIP, ContentLine(isIP, st, n, line).value)
  {
    if line != "" && !IsSection(line) && CutEntry(line).Ok? {
      EntryIsOk(isIP, st, n, CutEntry(line).value.key, CutEntry(line).value.words);
    }
  }

  lemma {:induction false} LinesAreOk(isIP: IsIP, st: Reader, n: nat, raws: seq<string>)
    requires IPSyntax(isIP) && ReaderOk(isIP, st)
    ensures ReadLines(isIP, st, n, raws).Ok? ==> ReaderOk(isIP, ReadLines(isIP, st, n, raws).value)
    decreases |raws|
  {
    if raws != [] {
      LineIsOk(isIP, st, n, TrimSpace(StripComment(raws[0])));
      if RawLine(isIP, st, n, raws[0]).Ok? { LinesAreOk(isIP, RawLine(isIP, st, n, raws[0]).value, n + 1, raws[1..]); }
    }
  }

  // ---------------------------------------------------------------- the accepted configuration

  /** A hop of an accepted chain: written inline, or one of the [servers] under its name. */
  predicate ChainHopOk(isIP: IsIP, servers: map<string, Server>, s: Server) {
    ServerOk(isIP, s) && (s.name == "" || (s.name in servers && servers[s.name] == s))
  }

  predicate ProxyOk(isIP: IsIP, servers: map<string, Server>, p: Proxy) {
    && NormalizeListen(isIP, p.listen) == Ok(p.listen)
    && |p.chain| > 0
    && forall i :: 0 <= i < |p.chain| ==> ChainHopOk(isIP, servers, p.chain[i])
  }

  lemma {:induction false} ResolvedHopsAreOk(isIP: IsIP, servers: map<string, Server>, hops: seq<Hop>)
    requires ServersOk(isIP, servers) && HopsOk(isIP, hops)
    ensures var r := ResolveHops(servers, hops);
      r.Some? ==> |r.value| == |hops| && forall i :: 0 <= i < |hops| ==> ChainHopOk(isIP, servers, r.value[i])
    decreases |hops|
  {
    if hops != [] {
      assert HopOk(isIP, hops[0]);
      ResolvedHopsAreOk(isIP, servers, hops[1..]);
    }
  }

  lemma {:induction false} ResolvedProxiesAreOk(isIP: IsIP, servers: map<string, Server>, taken: set<string>,
                                                lines: seq<ProxyLine>)
    requires ServersOk(isIP, servers)
    requires forall i :: 0 <= i < |lines| ==> ProxyLineOk(isIP, lines[i])
    ensures var r := Resolve(servers, taken, lines);
      r.Ok? ==>
        && |r.value| == |lines|
        && (forall i :: 0 <= i < |lines| ==> ProxyOk(isIP, servers, r.value[i]) && r.value[i].listen !in taken)
        && (forall i, j :: 0 <= i < j < |lines| ==> r.value[i].listen != r.value[j].listen)
    decreases |lines|
  {
    if lines != [] {
      var pl := lines[0];
      assert ProxyLineOk(isIP, pl);
      ResolvedHopsAreOk(isIP, servers, pl.route.hops);
      ResolvedProxiesAreOk(isIP, servers, taken + {pl.listen}, lines[1..]);
    }
  }

  predicate ConfigOk(isIP: IsIP, c: Config) {
    && ServersOk(isIP, c.servers)
    && (forall i :: 0 <= i < |c.proxies| ==> ProxyOk(isIP, c.servers, c.proxies[i]))
    && (forall i, j :: 0 <= i < j < |c.proxies| ==> c.proxies[i].listen != c.proxies[j].listen)
  }

  lemma ReadConfigIsOk(isIP: IsIP, st: Reader)
    requires ReaderOk(isIP, st)
    ensures var r := Resolve(st.servers, {}, st.proxies); r.Ok? ==> ConfigOk(isIP, Config(st.servers, r.value))
  {
    ResolvedProxiesAreOk(isIP, st.servers, {}, st.proxies);
  }

  /**
   * Every accepted configuration has distinct, normal listen addresses and non-empty chains whose hops
   * are all resolved, with a user, a valid host and a port in range.
   */
  lemma AcceptedConfigIsOk(isIP: IsIP, text: string)
    requires IPSyntax(isIP)
    ensures ParseConfig(isIP, text).Ok? ==> ConfigOk(isIP, ParseConfig(isIP, text).value)
  {
    var raws := Split(TrimPrefix(text, BOM), '\n');
    LinesAreOk(isIP, START, 1, raws);
    if ReadLines(isIP, START, 1, raws).Ok? { ReadConfigIsOk(isIP, ReadLines(isIP, START, 1, raws).value); }
  }
}
