/** Writing a configuration down and parsing it gives that configuration. */
module ConfigRoundTrip {
  import opened Basics
  import opened Text
  import opened ConfigModel
  import opened ConfigWellFormed
  import opened ConfigPrinter
  import opened ConfigOptions

  // ---------------------------------------------------------------- lines

  /** A blank line or a comment line. */
  predicate Note(raw: string) {
    '\n' !in raw && (AllSpace(raw) || (TrimSpace(raw) != "" && TrimSpace(raw)[0] in "#;"))
  }

  /** The look of one entry: the notes above it and its layout. */
  datatype Style = Style(notes: seq<string>, layout: Layout)

  predicate StyleOk(s: Style) {
    LayoutOk(s.layout) && forall i :: 0 <= i < |s.notes| ==> Note(s.notes[i])
  }

  predicate StylesOk(styles: seq<Style>) {
    forall i :: 0 <= i < |styles| ==> StyleOk(styles[i])
  }

  predicate OneLine(raw: string) {
    '\n' !in raw
  }

  predicate OneLines(raws: seq<string>) {
    forall i :: 0 <= i < |raws| ==> OneLine(raws[i])
  }

  function Join(raws: seq<string>): string
    requires raws != []
  {
    if |raws| == 1 then raws[0] else raws[0] + ['\n'] + Join(raws[1..])
  }

  /** Splitting joined lines gives the lines. */
  lemma {:induction false} SplitOfJoinedLines(raws: seq<string>)
    requires raws != [] && OneLines(raws)
    ensures Split(Join(raws), '\n') == raws
    decreases |raws|
  {
    assert OneLine(raws[0]);
    if |raws| == 1 {
      SplitWhole(raws[0], '\n');
      assert [raws[0]] == raws;
    } else {
      assert forall i :: 0 <= i < |raws| - 1 ==> raws[1..][i] == raws[i + 1];
      SplitOfJoinedLines(raws[1..]);
      SplitAppend(raws[0], '\n', Join(raws[1..]));
      assert [raws[0]] + raws[1..] == raws;
    }
  }

  lemma {:induction false} TrimLeftOfSpace(s: string)
    requires AllSpace(s)
    ensures TrimSpace(s) == ""
    decreases |s|
  {
    if s != "" { TrimLeftOfSpace(s[1..]); }
  }

  /** A note is an empty line to the parser. */
  lemma NoteIsEmpty(raw: string)
    requires Note(raw)
    ensures TrimSpace(StripComment(raw)) == ""
  {
    if AllSpace(raw) {
      TrimLeftOfSpace(raw);
      KeepsBlank(raw, "", false);
      assert raw + "" == raw;
    } else {
      assert HasPrefix(TrimSpace(raw), "#") || HasPrefix(TrimSpace(raw), ";");
      assert TrimSpace("") == "";
    }
  }

  type Step = (Reader, nat, string) -> Result<Reader, ConfigError>

  /** step reads one line as the parser does. */
  ghost predicate Agrees(isIP: IsIP, step: Step) {
    forall st: Reader, n: nat, raw: string {:trigger RawLine(isIP, st, n, raw)} ::
      step(st, n, raw) == RawLine(isIP, st, n, raw)
  }

  lemma NoteRead(isIP: IsIP, step: Step, st: Reader, n: nat, raw: string)
    requires Agrees(isIP, step) && Note(raw)
    ensures step(st, n, raw) == Ok(st)
  {
    NoteIsEmpty(raw);
    assert RawLine(isIP, st, n, raw) == Ok(st);
  }

  lemma NotesAreSkipped(isIP: IsIP, step: Step, st: Reader, n: nat, s: Style)
    requires Agrees(isIP, step) && StyleOk(s)
    ensures Fold(step, st, n, s.notes) == Ok(st)
  {
    forall k: nat, i | 0 <= i < |s.notes| ensures step(st, k, s.notes[i]) == Ok(st) {
      NoteRead(isIP, step, st, k, s.notes[i]);
    }
    FoldSkips(step, st, n, s.notes);
  }

  /** One styled entry. */
  function EntryLines(key: string, words: seq<string>, s: Style): seq<string> {
    s.notes + [PrintEntry(key, words, s.layout)]
  }

  lemma NotesThenOne(step: Step, st: Reader, n: nat, notes: seq<string>, raw: string, t: Reader)
    requires Fold(step, st, n, notes) == Ok(st) && step(st, n + |notes|, raw) == Ok(t)
    ensures Fold(step, st, n, notes + [raw]) == Ok(t)
  {
    FoldOne(step, st, n + |notes|, raw, t);
    FoldOn(step, st, n, notes, st, [raw], t);
  }

  lemma EntryRead(isIP: IsIP, step: Step, st: Reader, n: nat, key: string, words: seq<string>, l: Layout, t: Reader)
    requires Agrees(isIP, step) && LayoutOk(l) && KeyOk(key) && words != []
    requires EntryLine(isIP, st, n, key, words) == Ok(t)
    ensures step(st, n, PrintEntry(key, words, l)) == Ok(t)
  {
    EntryReadsBack(isIP, st, n, key, words, l);
    assert RawLine(isIP, st, n, PrintEntry(key, words, l)) == Ok(t);
  }

  lemma EntryLinesRead(isIP: IsIP, step: Step, st: Reader, n: nat, key: string, words: seq<string>, s: Style, t: Reader)
    requires Agrees(isIP, step) && StyleOk(s)
    requires step(st, n + |s.notes|, PrintEntry(key, words, s.layout)) == Ok(t)
    ensures Fold(step, st, n, EntryLines(key, words, s)) == Ok(t)
  {
    NotesAreSkipped(isIP, step, st, n, s);
    NotesThenOne(step, st, n, s.notes, PrintEntry(key, words, s.layout), t);
  }

  predicate NewlineFree(words: seq<string>) {
    forall w :: w in words ==> '\n' !in w
  }

  lemma EntryLinesAreLines(key: string, words: seq<string>, s: Style)
    requires StyleOk(s) && KeyOk(key) && words != [] && NewlineFree(words)
    ensures OneLines(EntryLines(key, words, s))
  {
    EntryIsOneLine(key, words, s.layout);
    forall i | 0 <= i < |s.notes| ensures OneLine(s.notes[i]) { assert Note(s.notes[i]); }
  }

  // ---------------------------------------------------------------- what can be written

  predicate ServerOneLine(s: Server) {
    && '\n' !in s.user && '\n' !in s.host && '\n' !in s.password && '\n' !in s.passphrase
    && forall i :: 0 <= i < |s.keys| ==> '\n' !in s.keys[i]
  }

  /** A server of the [servers] block: a plain name, a user that does not look like an option, no newlines. */
  predicate NamedServerWritable(s: Server) {
    KeyOk(s.name) && NameOk(s.name) && ServerWritable(s) && ServerOneLine(s)
  }

  /** A hop: a server of the block by its name, or an address with no separator in it. */
  predicate HopFits(s: Server)
    requires s.port >= 0
  {
    if s.name != "" then NamedServerWritable(s)
    else ServerWritable(s) && ServerOneLine(s) && OneHop(AddressWord(s)) && s.user != "" && !IsSpace(s.user[0])
  }

  predicate ProxyWritable(p: Proxy) {
    && AuthWritable(p.user, p.pass) && '\n' !in p.user && '\n' !in p.pass
    && forall i :: 0 <= i < |p.chain| ==> p.chain[i].port >= 0 && HopFits(p.chain[i])
  }

  predicate Writable(c: Config) {
    && (forall k :: k in c.servers ==> NamedServerWritable(c.servers[k]))
    && (forall i :: 0 <= i < |c.proxies| ==> ProxyWritable(c.proxies[i]))
  }

  lemma NamedHopIsWritable(s: Server)
    requires s.port >= 0 && NamedServerWritable(s)
    ensures HopWritable(s)
  {
    assert '@' in "@,,→" && ',' in "@,,→" && '，' in "@,，→" && '→' in "@,,→";
    forall i | 0 <= i < |s.name| ensures s.name[i] !in ",，→" && s.name[i] != '@' && s.name[i] != '=' {}
  }

  lemma ProxyIsWritable(isIP: IsIP, servers: map<string, Server>, p: Proxy)
    requires ProxyOk(isIP, servers, p) && ProxyWritable(p)
    ensures ChainWritable(isIP, p.chain)
  {
    forall i | 0 <= i < |p.chain|
      ensures ServerOk(isIP, p.chain[i]) && HopWritable(p.chain[i]) && ServerOptions(Options(p.chain[i]))
    {
      var s := p.chain[i];
      assert ChainHopOk(isIP, servers, s) && HopFits(s);
      if s.name != "" { NamedHopIsWritable(s); }
      OptionsRestore(s);
    }
  }

  lemma {:induction false} TextsOneLine(opts: seq<Word>)
    requires ServerOptions(opts) && forall i :: 0 <= i < |opts| ==> '\n' !in opts[i].val
    ensures NewlineFree(Texts(opts))
    decreases |opts|
  {
    if opts != [] {
      assert ServerOption(opts[0]);
      assert '\n' !in OptionText(opts[0]);
      TextsOneLine(opts[1..]);
    }
  }

  lemma AddressOneLine(s: Server)
    requires s.port >= 0 && ServerOneLine(s)
    ensures '\n' !in AddressWord(s)
  {
    NotInDigits(s.port, '\n');
  }

  lemma ServerWordsOneLine(s: Server)
    requires s.port >= 0 && ServerOneLine(s) && ServerOptions(Options(s))
    ensures NewlineFree(WordsOf(s))
  {
    AddressOneLine(s);
    TextsOneLine(Options(s));
  }

  lemma {:induction false} ChainWordsOneLine(isIP: IsIP, chain: seq<Server>)
    requires ChainWritable(isIP, chain)
    requires forall i :: 0 <= i < |chain| ==>
      if chain[i].name != "" then '\n' !in chain[i].name else ServerOneLine(chain[i])
    ensures NewlineFree(ChainWords(isIP, chain))
    decreases |chain|
  {
    if chain != [] {
      if chain[0].name == "" { ServerWordsOneLine(chain[0]); }
      assert NewlineFree(HopWords(chain[0]));
      if |chain| > 1 { ChainWordsOneLine(isIP, chain[1..]); }
    }
  }

  lemma ProxyWordsOneLine(isIP: IsIP, p: Proxy)
    requires ChainWritable(isIP, p.chain) && ProxyWritable(p)
    ensures NewlineFree(ProxyWords(isIP, p))
  {
    forall i | 0 <= i < |p.chain|
      ensures if p.chain[i].name != "" then '\n' !in p.chain[i].name else ServerOneLine(p.chain[i])
    {
      assert HopFits(p.chain[i]);
      assert IsSpace('\n');
    }
    ChainWordsOneLine(isIP, p.chain);
    assert NewlineFree(AuthWords(p.user, p.pass));
  }

  // ---------------------------------------------------------------- the servers block

  predicate ServerPrintable(isIP: IsIP, servers: map<string, Server>, k: string) {
    && k in servers && servers[k].name == k
    && ServerOk(isIP, servers[k]) && NamedServerWritable(servers[k]) && ServerOptions(Options(servers[k]))
  }

  predicate ServersPrintable(isIP: IsIP, servers: map<string, Server>, order: seq<string>, styles: seq<Style>) {
    && |order| == |styles| && StylesOk(styles)
    && forall i {:trigger ServerPrintable(isIP, servers, order[i])} ::
         0 <= i < |order| ==> ServerPrintable(isIP, servers, order[i])
  }

  function ServerEntry(isIP: IsIP, servers: map<string, Server>, k: string, style: Style): seq<string>
    requires ServerPrintable(isIP, servers, k)
  {
    EntryLines(k, WordsOf(servers[k]), style)
  }

  function ServerEntries(isIP: IsIP, servers: map<string, Server>, order: seq<string>,
                         styles: seq<Style>): (r: seq<seq<string>>)
    requires ServersPrintable(isIP, servers, order, styles)
  {
    seq(|order|, i requires 0 <= i < |order| && ServersPrintable(isIP, servers, order, styles) =>
      ServerEntry(isIP, servers, order[i], styles[i]))
  }

  lemma ServerEntryRead(isIP: IsIP, step: Step, st: Reader, n: nat, s: Server, l: Layout, t: Reader)
    requires Agrees(isIP, step) && LayoutOk(l)
    requires st.section == "servers" && s.name !in st.servers && t == st.(servers := st.servers[s.name := s])
    requires ServerOk(isIP, s) && NamedServerWritable(s) && ServerOptions(Options(s))
    ensures step(st, n, PrintEntry(s.name, WordsOf(s), l)) == Ok(t)
  {
    ServerReadsBack(isIP, s);
    assert s.(name := "").(name := s.name) == s;
    assert EntryLine(isIP, st, n, s.name, WordsOf(s)) == Ok(t);
    EntryRead(isIP, step, st, n, s.name, WordsOf(s), l, t);
  }

  /** What is still missing from the servers read so far is exactly what the entries from i on define. */
  ghost predicate StillToRead(servers: map<string, Server>, order: seq<string>, i: nat, st: Reader) {
    && st.section == "servers" && st.proxies == []
    && (forall k :: k in st.servers ==> k in servers && st.servers[k] == servers[k])
    && (forall k :: k in servers ==> (k in st.servers <==> exists j :: 0 <= j < i <= |order| && order[j] == k))
  }

  ghost predicate Distinct(order: seq<string>) {
    forall i, j :: 0 <= i < j < |order| ==> order[i] != order[j]
  }

  lemma OneServerMore(servers: map<string, Server>, order: seq<string>, i: nat, st: Reader, t: Reader)
    requires Distinct(order) && i < |order| && order[i] in servers && StillToRead(servers, order, i, st)
    requires t == st.(servers := st.servers[order[i] := servers[order[i]]])
    ensures order[i] !in st.servers && StillToRead(servers, order, i + 1, t)
  {
    forall k | k in servers ensures k in t.servers <==> exists j :: 0 <= j < i + 1 <= |order| && order[j] == k {
      if k in st.servers {
        var j :| 0 <= j < i && order[j] == k;
      }
    }
  }

  lemma ServerEntryFolds(isIP: IsIP, step: Step, st: Reader, n: nat, servers: map<string, Server>, k: string,
                         style: Style)
    requires Agrees(isIP, step) && StyleOk(style) && st.section == "servers" && ServerPrintable(isIP, servers, k)
             && k !in st.servers
    ensures Fold(step, st, n, ServerEntry(isIP, servers, k, style)) == Ok(st.(servers := st.servers[k := servers[k]]))
  {
    var t := st.(servers := st.servers[k := servers[k]]);
    ServerEntryRead(isIP, step, st, n + |style.notes|, servers[k], style.layout, t);
    EntryLinesRead(isIP, step, st, n, k, WordsOf(servers[k]), style, t);
  }

  lemma ServerEntryIsRead(isIP: IsIP, step: Step, servers: map<string, Server>, order: seq<string>,
                          styles: seq<Style>, i: nat, st: Reader, n: nat)
    requires Agrees(isIP, step) && ServersPrintable(isIP, servers, order, styles) && Distinct(order) && i < |order|
    requires StillToRead(servers, order, i, st)
    ensures var r := Fold(step, st, n, ServerEntry(isIP, servers, order[i], styles[i]));
      r.Ok? && StillToRead(servers, order, i + 1, r.value)
  {
    assert ServerPrintable(isIP, servers, order[i]) && StyleOk(styles[i]);
    OneServerMore(servers, order, i, st, st.(servers := st.servers[order[i] := servers[order[i]]]));
    ServerEntryFolds(isIP, step, st, n, servers, order[i], styles[i]);
  }

  // ---------------------------------------------------------------- the proxies block

  predicate ProxyPrintable(isIP: IsIP, p: Proxy) {
    && KeyOk(p.listen) && NormalizeListen(isIP, p.listen) == Ok(p.listen)
    && ChainWritable(isIP, p.chain) && p.chain != [] && ProxyWritable(p)
  }

  predicate ProxiesPrintable(isIP: IsIP, proxies: seq<Proxy>, styles: seq<Style>) {
    && |proxies| == |styles| && StylesOk(styles)
    && forall i {:trigger ProxyPrintable(isIP, proxies[i])} :: 0 <= i < |proxies| ==> ProxyPrintable(isIP, proxies[i])
  }

  function ProxyEntry(isIP: IsIP, p: Proxy, style: Style): seq<string>
    requires ProxyPrintable(isIP, p)
  {
    EntryLines(p.listen, ProxyWords(isIP, p), style)
  }

  function ProxyEntries(isIP: IsIP, proxies: seq<Proxy>, styles: seq<Style>): (r: seq<seq<string>>)
    requires ProxiesPrintable(isIP, proxies, styles)
  {
    seq(|proxies|, i requires 0 <= i < |proxies| && ProxiesPrintable(isIP, proxies, styles) =>
      ProxyEntry(isIP, proxies[i], styles[i]))
  }

  predicate LineOf(pl: ProxyLine, p: Proxy) {
    pl.listen == p.listen && pl.route == RouteOf(p)
  }

  /** The lines collected for the first i proxies, on whatever line numbers. */
  ghost predicate Collected(servers: map<string, Server>, proxies: seq<Proxy>, i: nat, st: Reader) {
    && st.section == "proxies" && st.servers == servers && |st.proxies| == i <= |proxies|
    && forall j :: 0 <= j < i ==> LineOf(st.proxies[j], proxies[j])
  }

  lemma ProxyEntryMeans(isIP: IsIP, st: Reader, n: nat, p: Proxy, words: seq<string>, t: Reader)
    requires st.section == "proxies" && ProxyPrintable(isIP, p) && words == ProxyWords(isIP, p)
    requires t == st.(proxies := st.proxies + [ProxyLine(n, p.listen, RouteOf(p))])
    ensures EntryLine(isIP, st, n, p.listen, words) == Ok(t)
  {
    ProxyReadsBack(isIP, p);
  }

  lemma ProxyEntryRead(isIP: IsIP, step: Step, st: Reader, n: nat, p: Proxy, l: Layout, raw: string, t: Reader)
    requires Agrees(isIP, step) && LayoutOk(l) && st.section == "proxies" && ProxyPrintable(isIP, p)
    requires t == st.(proxies := st.proxies + [ProxyLine(n, p.listen, RouteOf(p))])
    requires raw == PrintEntry(p.listen, ProxyWords(isIP, p), l)
    ensures step(st, n, raw) == Ok(t)
  {
    ProxyEntryMeans(isIP, st, n, p, ProxyWords(isIP, p), t);
    EntryRead(isIP, step, st, n, p.listen, ProxyWords(isIP, p), l, t);
  }

  /** The entry of a proxy: its notes, and a line that collects that proxy. */
  lemma ProxyEntryCollects(isIP: IsIP, step: Step, proxies: seq<Proxy>, styles: seq<Style>, i: nat, st: Reader, n: nat,
                           chunk: seq<string>)
    returns (one: ProxyLine, raw: string)
    requires Agrees(isIP, step) && ProxiesPrintable(isIP, proxies, styles) && i < |proxies| && st.section == "proxies"
    requires chunk == ProxyEntries(isIP, proxies, styles)[i]
    ensures chunk == styles[i].notes + [raw] && LineOf(one, proxies[i]) && StyleOk(styles[i])
    ensures step(st, n + |styles[i].notes|, raw) == Ok(st.(proxies := st.proxies + [one]))
  {
    var p, style, k := proxies[i], styles[i], n + |styles[i].notes|;
    assert ProxyPrintable(isIP, p) && StyleOk(style);
    one, raw := ProxyLine(k, p.listen, RouteOf(p)), PrintEntry(p.listen, ProxyWords(isIP, p), style.layout);
    ProxyEntryRead(isIP, step, st, k, p, style.layout, raw, st.(proxies := st.proxies + [one]));
  }

  lemma OneProxyMore(servers: map<string, Server>, proxies: seq<Proxy>, i: nat, st: Reader, one: ProxyLine)
    requires Collected(servers, proxies, i, st) && i < |proxies| && LineOf(one, proxies[i])
    ensures Collected(servers, proxies, i + 1, st.(proxies := st.proxies + [one]))
  {
  }

  lemma ProxyEntryIsRead(isIP: IsIP, step: Step, servers: map<string, Server>, proxies: seq<Proxy>,
                         styles: seq<Style>, i: nat, st: Reader, n: nat, chunk: seq<string>)
    requires Agrees(isIP, step) && ProxiesPrintable(isIP, proxies, styles) && i < |proxies|
    requires chunk == ProxyEntries(isIP, proxies, styles)[i] && Collected(servers, proxies, i, st)
    ensures var r := Fold(step, st, n, chunk); r.Ok? && Collected(servers, proxies, i + 1, r.value)
  {
    var one, raw := ProxyEntryCollects(isIP, step, proxies, styles, i, st, n, chunk);
    NotesAreSkipped(isIP, step, st, n, styles[i]);
    NotesThenOne(step, st, n, styles[i].notes, raw, st.(proxies := st.proxies + [one]));
    OneProxyMore(servers, proxies, i, st, one);
  }

  // ---------------------------------------------------------------- resolving

  lemma {:induction false} ChainResolves(isIP: IsIP, servers: map<string, Server>, chain: seq<Server>)
    requires forall i :: 0 <= i < |chain| ==> ChainHopOk(isIP, servers, chain[i])
    ensures ResolveHops(servers, HopsOf(chain)) == Some(chain)
    decreases |chain|
  {
    if chain != [] {
      assert ChainHopOk(isIP, servers, chain[0]);
      ChainResolves(isIP, servers, chain[1..]);
      assert HopsOf(chain)[1..] == HopsOf(chain[1..]);
      assert [chain[0]] + chain[1..] == chain;
    }
  }

  lemma {:induction false} ProxiesResolve(isIP: IsIP, servers: map<string, Server>, taken: set<string>,
                                          pls: seq<ProxyLine>, proxies: seq<Proxy>)
    requires |pls| == |proxies| && forall i :: 0 <= i < |pls| ==> LineOf(pls[i], proxies[i])
    requires forall i :: 0 <= i < |proxies| ==> ProxyOk(isIP, servers, proxies[i]) && proxies[i].listen !in taken
    requires forall i, j :: 0 <= i < j < |proxies| ==> proxies[i].listen != proxies[j].listen
    ensures Resolve(servers, taken, pls) == Ok(proxies)
    decreases |pls|
  {
    if pls != [] {
      var p := proxies[0];
      assert ProxyOk(isIP, servers, p) && LineOf(pls[0], p);
      ChainResolves(isIP, servers, p.chain);
      ProxiesResolve(isIP, servers, taken + {pls[0].listen}, pls[1..], proxies[1..]);
      assert [p] + proxies[1..] == proxies;
    }
  }

  // ---------------------------------------------------------------- the whole file

  predicate AddressChar(c: char) {
    IPChar(c) || c == '[' || c == ']'
  }

  lemma AddressCharIsPlain(c: char)
    requires AddressChar(c)
    ensures !IsSpace(c) && !IsQuote(c) && c != '=' && c != '#' && c != ';'
  {
  }

  lemma JoinedIsKey(isIP: IsIP, host: string, port: nat)
    requires IPSyntax(isIP) && isIP(host)
    ensures KeyOk(JoinHostPort(host, Itoa(port)))
  {
    var p := Itoa(port);
    var l := JoinHostPort(host, p);
    forall i | 0 <= i < |l| ensures AddressChar(l[i]) {
      assert forall c :: c in host ==> IPChar(c);
      assert forall c :: c in p ==> IPChar(c);
      assert l[i] in host || l[i] in p || l[i] == '[' || l[i] == ']' || l[i] == ':';
    }
    forall i | 0 <= i < |l| ensures !IsSpace(l[i]) && !IsQuote(l[i]) && l[i] != '=' && l[i] != '#' && l[i] != ';' {
      AddressCharIsPlain(l[i]);
    }
  }

  /** A listen address in normal form can be written as it is. */
  lemma ListenIsKey(isIP: IsIP, l: string)
    requires IPSyntax(isIP) && NormalizeListen(isIP, l) == Ok(l)
    ensures KeyOk(l)
  {
    ListenIsNormal(isIP, l);
    var host, port: nat :| isIP(host) && 1 <= port <= 65535 && l == JoinHostPort(host, Itoa(port));
    JoinedIsKey(isIP, host, port);
  }

  /** The styles and the order of the servers fit the configuration. */
  ghost predicate LookOk(c: Config, order: seq<string>, serverStyles: seq<Style>, proxyStyles: seq<Style>) {
    && |order| == |serverStyles| && StylesOk(serverStyles)
    && |c.proxies| == |proxyStyles| && StylesOk(proxyStyles)
    && (forall k :: k in order <==> k in c.servers)
    && Distinct(order)
  }

  lemma ServersCanBePrinted(isIP: IsIP, c: Config, order: seq<string>, styles: seq<Style>)
    requires ConfigOk(isIP, c) && Writable(c) && |order| == |styles| && StylesOk(styles)
    requires forall k :: k in order <==> k in c.servers
    ensures ServersPrintable(isIP, c.servers, order, styles)
  {
    forall i | 0 <= i < |order| ensures ServerPrintable(isIP, c.servers, order[i]) {
      assert order[i] in order;
      OptionsRestore(c.servers[order[i]]);
    }
  }

  lemma ProxiesCanBePrinted(isIP: IsIP, c: Config, styles: seq<Style>)
    requires IPSyntax(isIP) && ConfigOk(isIP, c) && Writable(c) && |c.proxies| == |styles| && StylesOk(styles)
    ensures ProxiesPrintable(isIP, c.proxies, styles)
  {
    forall i | 0 <= i < |c.proxies|
      ensures ProxyPrintable(isIP, c.proxies[i])
    {
      var p := c.proxies[i];
      assert ProxyOk(isIP, c.servers, p) && ProxyWritable(p);
      ListenIsKey(isIP, p.listen);
      ProxyIsWritable(isIP, c.servers, p);
    }
  }

  function FileLines(isIP: IsIP, c: Config, order: seq<string>, serverStyles: seq<Style>,
                     proxyStyles: seq<Style>): seq<string>
    requires ServersPrintable(isIP, c.servers, order, serverStyles) && ProxiesPrintable(isIP, c.proxies, proxyStyles)
  {
    (["[servers]"] + Concat(ServerEntries(isIP, c.servers, order, serverStyles)))
    + (["[proxies]"] + Concat(ProxyEntries(isIP, c.proxies, proxyStyles)))
  }

  /** The file: a byte order mark or none, the [servers] block and the [proxies] block. */
  function Print(isIP: IsIP, c: Config, order: seq<string>, serverStyles: seq<Style>, proxyStyles: seq<Style>,
                 mark: bool): string
    requires ServersPrintable(isIP, c.servers, order, serverStyles) && ProxiesPrintable(isIP, c.proxies, proxyStyles)
  {
    (if mark then BOM else "") + Join(FileLines(isIP, c, order, serverStyles, proxyStyles))
  }

  predicate SectionName(s: string) {
    s != "" && forall i :: 0 <= i < |s| ==> 'a' <= s[i] <= 'z'
  }

  lemma HeaderIsSection(header: string, section: string)
    requires SectionName(section) && header == "[" + section + "]"
    ensures TrimSpace(StripComment(header)) == header
    ensures IsSection(header) && ToLower(TrimSpace(header[1..|header| - 1])) == section
  {
    assert Unquoted(header) && header[0] == '[';
    TrimmedStays(header);
    KeepsUnquoted(header, 0, "");
    assert header[0..] + "" == header;
    assert header[|header| - 1..] == "]";
    assert header[1..|header| - 1] == section;
    TrimmedStays(section);
    assert ToLower(section) == section;
  }

  lemma HeaderMeans(isIP: IsIP, st: Reader, n: nat, header: string, section: string)
    requires (section == "servers" || section == "proxies") && header == "[" + section + "]"
    ensures RawLine(isIP, st, n, header) == Ok(st.(section := section))
  {
    HeaderIsSection(header, section);
  }

  lemma SectionHeader(isIP: IsIP, step: Step, st: Reader, n: nat, header: string, section: string)
    requires Agrees(isIP, step) && (section == "servers" || section == "proxies") && header == "[" + section + "]"
    ensures Fold(step, st, n, [header]) == Ok(st.(section := section))
  {
    HeaderMeans(isIP, st, n, header, section);
    FoldOne(step, st, n, header, st.(section := section));
  }

  lemma AllServersRead(servers: map<string, Server>, order: seq<string>, st: Reader)
    requires StillToRead(servers, order, |order|, st) && forall k :: k in servers ==> k in order
    ensures st == Reader("servers", servers, [])
  {
    assert st.servers == servers;
  }

  lemma ServerEntryLeads(isIP: IsIP, step: Step, servers: map<string, Server>, order: seq<string>,
                         styles: seq<Style>, i: nat, at: (nat, Reader) -> bool)
    requires Agrees(isIP, step) && ServersPrintable(isIP, servers, order, styles) && Distinct(order) && i < |order|
    requires forall j, st :: at(j, st) <==> StillToRead(servers, order, j, st)
    ensures Leads(step, at, ServerEntry(isIP, servers, order[i], styles[i]), i)
  {
    var chunk := ServerEntry(isIP, servers, order[i], styles[i]);
    forall t, k: nat | at(i, t) ensures Fold(step, t, k, chunk).Ok? && at(i + 1, Fold(step, t, k, chunk).value) {
      ServerEntryIsRead(isIP, step, servers, order, styles, i, t, k);
    }
  }

  lemma ProxyEntryLeads(isIP: IsIP, step: Step, servers: map<string, Server>, proxies: seq<Proxy>,
                        styles: seq<Style>, i: nat, at: (nat, Reader) -> bool)
    requires Agrees(isIP, step) && ProxiesPrintable(isIP, proxies, styles) && i < |proxies|
    requires forall j, st :: at(j, st) <==> Collected(servers, proxies, j, st)
    ensures Leads(step, at, ProxyEntries(isIP, proxies, styles)[i], i)
  {
    var chunk := ProxyEntries(isIP, proxies, styles)[i];
    forall t, k: nat | at(i, t) ensures Fold(step, t, k, chunk).Ok? && at(i + 1, Fold(step, t, k, chunk).value) {
      ProxyEntryIsRead(isIP, step, servers, proxies, styles, i, t, k, chunk);
    }
  }

  lemma ServerEntriesRead(isIP: IsIP, step: Step, servers: map<string, Server>, order: seq<string>,
                          styles: seq<Style>, st: Reader)
    requires Agrees(isIP, step) && ServersPrintable(isIP, servers, order, styles)
    requires Distinct(order) && (forall k :: k in servers ==> k in order) && st == Reader("servers", map[], [])
    ensures Fold(step, st, 2, Concat(ServerEntries(isIP, servers, order, styles))) == Ok(Reader("servers", servers, []))
  {
    var chunks := ServerEntries(isIP, servers, order, styles);
    var at := (i: nat, s: Reader) => StillToRead(servers, order, i, s);
    forall j | 0 <= j < |chunks| ensures Leads(step, at, chunks[j], j) {
      ServerEntryLeads(isIP, step, servers, order, styles, j, at);
    }
    FoldFollows(step, at, st, 2, chunks, 0);
    assert chunks[0..] == chunks;
    AllServersRead(servers, order, Fold(step, st, 2, Concat(chunks)).value);
  }

  lemma ProxyEntriesRead(isIP: IsIP, step: Step, servers: map<string, Server>, proxies: seq<Proxy>,
                         styles: seq<Style>, st: Reader, n: nat)
    returns (t: Reader)
    requires Agrees(isIP, step) && ProxiesPrintable(isIP, proxies, styles) && st == Reader("proxies", servers, [])
    ensures Collected(servers, proxies, |proxies|, t)
    ensures Fold(step, st, n, Concat(ProxyEntries(isIP, proxies, styles))) == Ok(t)
  {
    var chunks, at := ProxyEntries(isIP, proxies, styles), (i: nat, s: Reader) => Collected(servers, proxies, i, s);
    forall j | 0 <= j < |chunks| ensures Leads(step, at, chunks[j], j) {
      ProxyEntryLeads(isIP, step, servers, proxies, styles, j, at);
    }
    FoldFollows(step, at, st, n, chunks, 0);
    assert chunks[0..] == chunks;
    t := Fold(step, st, n, Concat(chunks)).value;
  }

  lemma HeaderThenLines(isIP: IsIP, step: Step, st: Reader, n: nat, header: string, section: string,
                        raws: seq<string>, u: Reader)
    requires Agrees(isIP, step) && (section == "servers" || section == "proxies") && header == "[" + section + "]"
    requires Fold(step, st.(section := section), n + 1, raws) == Ok(u)
    ensures Fold(step, st, n, [header] + raws) == Ok(u)
  {
    SectionHeader(isIP, step, st, n, header, section);
    FoldOn(step, st, n, [header], st.(section := section), raws, u);
  }

  lemma BlocksRead(step: Step, st: Reader, h1: string, a: seq<string>, t: Reader, h2: string, b: seq<string>, u: Reader)
    requires Fold(step, st, 1, [h1] + a) == Ok(t) && Fold(step, t, 2 + |a|, [h2] + b) == Ok(u)
    ensures Fold(step, st, 1, ([h1] + a) + ([h2] + b)) == Ok(u)
  {
    FoldOn(step, st, 1, [h1] + a, t, [h2] + b, u);
  }

  lemma BothBlocksRead(isIP: IsIP, step: Step, a: seq<string>, t: Reader, b: seq<string>, u: Reader)
    requires Agrees(isIP, step)
    requires Fold(step, START.(section := "servers"), 2, a) == Ok(t)
    requires Fold(step, t.(section := "proxies"), 3 + |a|, b) == Ok(u)
    ensures Fold(step, START, 1, (["[servers]"] + a) + (["[proxies]"] + b)) == Ok(u)
  {
    HeaderThenLines(isIP, step, START, 1, "[servers]", "servers", a, t);
    HeaderThenLines(isIP, step, t, 2 + |a|, "[proxies]", "proxies", b, u);
    BlocksRead(step, START, "[servers]", a, t, "[proxies]", b, u);
  }

  /** The lines of a printed file are read as exactly its servers and the hops and credentials of its proxies. */
  lemma FileIsRead(isIP: IsIP, step: Step, c: Config, order: seq<string>, serverStyles: seq<Style>,
                   proxyStyles: seq<Style>)
    returns (u: Reader)
    requires ServersPrintable(isIP, c.servers, order, serverStyles) && ProxiesPrintable(isIP, c.proxies, proxyStyles)
    requires Agrees(isIP, step) && LookOk(c, order, serverStyles, proxyStyles)
    ensures Collected(c.servers, c.proxies, |c.proxies|, u)
    ensures Fold(step, START, 1, FileLines(isIP, c, order, serverStyles, proxyStyles)) == Ok(u)
  {
    var a := Concat(ServerEntries(isIP, c.servers, order, serverStyles));
    var b := Concat(ProxyEntries(isIP, c.proxies, proxyStyles));
    var t := Reader("servers", c.servers, []);
    ServerEntriesRead(isIP, step, c.servers, order, serverStyles, Reader("servers", map[], []));
    u := ProxyEntriesRead(isIP, step, c.servers, c.proxies, proxyStyles, t.(section := "proxies"), 3 + |a|);
    BothBlocksRead(isIP, step, a, t, b, u);
  }

  lemma FileParses(isIP: IsIP, c: Config, order: seq<string>, serverStyles: seq<Style>, proxyStyles: seq<Style>)
    requires ServersPrintable(isIP, c.servers, order, serverStyles) && ProxiesPrintable(isIP, c.proxies, proxyStyles)
    requires ConfigOk(isIP, c) && LookOk(c, order, serverStyles, proxyStyles)
    ensures ParseLines(isIP, FileLines(isIP, c, order, serverStyles, proxyStyles)) == Ok(c)
  {
    var step := (s: Reader, k: nat, raw: string) => RawLine(isIP, s, k, raw);
    var u := FileIsRead(isIP, step, c, order, serverStyles, proxyStyles);
    ProxiesResolve(isIP, c.servers, {}, u.proxies, c.proxies);
  }

  /**
   * Round trip: every well-formed configuration whose names and values can be written down is printed, with the
   * servers in any order, any spacing, comments and notes, and parsed back as itself.
   */
  lemma ConfigReadsBack(isIP: IsIP, c: Config, order: seq<string>, serverStyles: seq<Style>, proxyStyles: seq<Style>,
                        mark: bool)
    requires IPSyntax(isIP) && ConfigOk(isIP, c) && Writable(c) && LookOk(c, order, serverStyles, proxyStyles)
    ensures ServersPrintable(isIP, c.servers, order, serverStyles) && ProxiesPrintable(isIP, c.proxies, proxyStyles)
    ensures ParseConfig(isIP, Print(isIP, c, order, serverStyles, proxyStyles, mark)) == Ok(c)
  {
    ServersCanBePrinted(isIP, c, order, serverStyles);
    ProxiesCanBePrinted(isIP, c, proxyStyles);
    var raws := FileLines(isIP, c, order, serverStyles, proxyStyles);
    FileParses(isIP, c, order, serverStyles, proxyStyles);
    FileIsLines(isIP, c, order, serverStyles, proxyStyles);
    SplitOfJoinedLines(raws);
    MarkIsTrimmed(raws, mark);
  }

  lemma HeadersAreLines()
    ensures OneLine("[servers]") && OneLine("[proxies]")
  {
  }

  lemma BlocksAreLines(h1: string, a: seq<string>, h2: string, b: seq<string>)
    requires OneLine(h1) && OneLine(h2) && OneLines(a) && OneLines(b)
    ensures OneLines(([h1] + a) + ([h2] + b))
  {
  }

  lemma {:induction false} ConcatIsLines(chunks: seq<seq<string>>)
    requires forall i :: 0 <= i < |chunks| ==> OneLines(chunks[i])
    ensures OneLines(Concat(chunks))
    decreases |chunks|
  {
    if chunks != [] {
      assert OneLines(chunks[0]);
      ConcatIsLines(chunks[1..]);
    }
  }

  lemma ServerEntriesAreLines(isIP: IsIP, servers: map<string, Server>, order: seq<string>, styles: seq<Style>)
    requires ServersPrintable(isIP, servers, order, styles)
    ensures OneLines(Concat(ServerEntries(isIP, servers, order, styles)))
  {
    var chunks := ServerEntries(isIP, servers, order, styles);
    forall i | 0 <= i < |chunks| ensures OneLines(chunks[i]) {
      assert ServerPrintable(isIP, servers, order[i]);
      ServerWordsOneLine(servers[order[i]]);
      EntryLinesAreLines(order[i], WordsOf(servers[order[i]]), styles[i]);
    }
    ConcatIsLines(chunks);
  }

  lemma ProxyEntriesAreLines(isIP: IsIP, proxies: seq<Proxy>, styles: seq<Style>)
    requires ProxiesPrintable(isIP, proxies, styles)
    ensures OneLines(Concat(ProxyEntries(isIP, proxies, styles)))
  {
    var chunks := ProxyEntries(isIP, proxies, styles);
    forall i | 0 <= i < |chunks| ensures OneLines(chunks[i]) {
      assert ProxyPrintable(isIP, proxies[i]);
      ProxyWordsOneLine(isIP, proxies[i]);
      EntryLinesAreLines(proxies[i].listen, ProxyWords(isIP, proxies[i]), styles[i]);
    }
    ConcatIsLines(chunks);
  }

  lemma FileIsLines(isIP: IsIP, c: Config, order: seq<string>, serverStyles: seq<Style>, proxyStyles: seq<Style>)
    requires ServersPrintable(isIP, c.servers, order, serverStyles) && ProxiesPrintable(isIP, c.proxies, proxyStyles)
    ensures OneLines(FileLines(isIP, c, order, serverStyles, proxyStyles))
  {
    ServerEntriesAreLines(isIP, c.servers, order, serverStyles);
    ProxyEntriesAreLines(isIP, c.proxies, proxyStyles);
    HeadersAreLines();
    BlocksAreLines("[servers]", Concat(ServerEntries(isIP, c.servers, order, serverStyles)),
                   "[proxies]", Concat(ProxyEntries(isIP, c.proxies, proxyStyles)));
  }

  lemma MarkIsTrimmed(raws: seq<string>, mark: bool)
    requires |raws| > 1 && raws[0] == "[servers]"
    ensures TrimPrefix((if mark then BOM else "") + Join(raws), BOM) == Join(raws)
  {
    var text := Join(raws);
    assert text[0] == '[';
    assert BOM[0] != '[';
    assert (BOM + text)[|BOM|..] == text;
    assert "" + text == text;
  }

  // ---------------------------------------------------------------- an instance

  lemma TwoIPs() returns (isIP: IsIP)
    ensures IPSyntax(isIP)
  {
    isIP := h => h == "0.0.0.0" || h == "127.0.0.1";
    forall h: string, i | isIP(h) && 0 <= i < |h| ensures IPChar(h[i]) {
      assert h[i] == '0' || h[i] == '.' || h[i] == '1' || h[i] == '2' || h[i] == '7';
    }
  }

  const SAMPLE := Server("hk", "me", "hk", 22, ["id"], "a 'b' #\"c\"", "")

  const PLAIN_STYLE := Style([], Layout("", " ", " ", " ", " ", Some(" note")))

  lemma SampleServer(isIP: IsIP)
    ensures ServerOk(isIP, SAMPLE) && NamedServerWritable(SAMPLE)
  {
    assert Find("me", '=') == 2;
  }

  lemma SampleProxyIsOk(isIP: IsIP, servers: map<string, Server>, p: Proxy)
    requires IPSyntax(isIP) && servers == map["hk" := SAMPLE] && ServerOk(isIP, SAMPLE)
    requires p == Proxy(JoinHostPort("127.0.0.1", Itoa(1080)), [SAMPLE], "", "")
    ensures ProxyOk(isIP, servers, p)
  {
    JoinedListenIsNormal(isIP, "127.0.0.1", 1080);
    assert ChainHopOk(isIP, servers, SAMPLE);
  }

  lemma OneNamedHopIsWritable(s: Server, p: Proxy)
    requires p.chain == [s] && s.name != "" && s.port >= 0 && NamedServerWritable(s) && p.user == p.pass == ""
    ensures ProxyWritable(p)
  {
  }

  lemma SampleProxy(isIP: IsIP, servers: map<string, Server>) returns (p: Proxy)
    requires IPSyntax(isIP) && servers == map["hk" := SAMPLE]
    ensures p.chain == [SAMPLE] && ProxyOk(isIP, servers, p) && ProxyWritable(p)
  {
    p := Proxy(JoinHostPort("127.0.0.1", Itoa(1080)), [SAMPLE], "", "");
    SampleServer(isIP);
    SampleProxyIsOk(isIP, servers, p);
    OneNamedHopIsWritable(SAMPLE, p);
  }

  lemma OneOfEach(isIP: IsIP, c: Config, k: string, s: Server, p: Proxy)
    requires c == Config(map[k := s], [p]) && ServerOk(isIP, s) && s.name == k && k != "" && NamedServerWritable(s)
    requires ProxyOk(isIP, c.servers, p) && ProxyWritable(p)
    ensures ConfigOk(isIP, c) && Writable(c)
  {
  }

  lemma SampleLook(c: Config)
    requires c.servers == map["hk" := SAMPLE] && |c.proxies| == 1
    ensures LookOk(c, ["hk"], [PLAIN_STYLE], [PLAIN_STYLE])
  {
    assert StyleOk(PLAIN_STYLE);
  }

  /** The hypotheses are met: a server with a key and a password holding quotes, `#` and a space, behind one proxy. */
  lemma RoundTripApplies() returns (isIP: IsIP, c: Config)
    ensures IPSyntax(isIP) && ConfigOk(isIP, c) && Writable(c) && LookOk(c, ["hk"], [PLAIN_STYLE], [PLAIN_STYLE])
    ensures c.servers == map["hk" := SAMPLE] && |c.proxies| == 1 && c.proxies[0].chain == [SAMPLE]
  {
    isIP := TwoIPs();
    SampleServer(isIP);
    var p := SampleProxy(isIP, map["hk" := SAMPLE]);
    c := Config(map["hk" := SAMPLE], [p]);
    OneOfEach(isIP, c, "hk", SAMPLE, p);
    SampleLook(c);
  }
}
