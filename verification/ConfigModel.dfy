/** The configuration language of config.go, as functions: what every line and every file means. */
module ConfigModel {
  import opened Basics
  import opened Text

  const BOM: string := "\U{FEFF}"

  datatype Server = Server(name: string, user: string, host: string, port: int, keys: seq<string>, password: string,
                           passphrase: string)

  datatype Proxy = Proxy(listen: string, chain: seq<Server>, user: string, pass: string)

  datatype Config = Config(servers: map<string, Server>, proxies: seq<Proxy>)

  datatype Problem =
    | UnknownSection | BadFormat | OpenQuote | OutsideSection
    | BadName | DuplicateName
    | ExtraWord | OptionBeforeAddress | NoAddress
    | BadAddress | BadPort | BadHost
    | EmptyValue | UnknownOption | BadAuth | MisplacedOption
    | BadListen | BadListenPort | ListenNotIP
    | NoHops | DuplicateListen | UndefinedServer

  datatype ConfigError = ConfigError(line: nat, problem: Problem)

  /** net.ParseIP succeeds. */
  type IsIP = string -> bool

  function Addr(s: Server): string
    requires s.port >= 0
  {
    JoinHostPort(s.host, Itoa(s.port))
  }

  /** How a hop without a name is shown. */
  function Label(s: Server): string
    requires s.port >= 0
  {
    if s.name != "" then s.name
    else if s.port == 22 then s.user + "@" + s.host
    else s.user + "@" + Addr(s)
  }

  // ---------------------------------------------------------------- lexical level

  predicate IsQuote(c: char) {
    c == '"' || c == '\''
  }

  /** The part of a line before a comment, scanning with the given open quote. */
  function Uncommented(s: string, quote: Option<char>, prevSpace: bool): string {
    if s == "" then ""
    else
      var c := s[0];
      if quote.Some? then [c] + Uncommented(s[1..], if c == quote.value then None else quote, IsSpace(c))
      else if IsQuote(c) then [c] + Uncommented(s[1..], Some(c), IsSpace(c))
      else if c == '#' && prevSpace then ""
      else [c] + Uncommented(s[1..], None, IsSpace(c))
  }

  function StripComment(line: string): string {
    var t := TrimSpace(line);
    if HasPrefix(t, "#") || HasPrefix(t, ";") then "" else Uncommented(line, None, false)
  }

  /** The words of s, given what has been read of the current one. */
  function WordsFrom(s: string, cur: string, quote: Option<char>, inWord: bool): Result<seq<string>, Problem> {
    if s == "" then
      if quote.Some? then Err(OpenQuote) else Ok(if inWord then [cur] else [])
    else
      var c := s[0];
      if quote.Some? then
        if c == quote.value then WordsFrom(s[1..], cur, None, inWord)
        else WordsFrom(s[1..], cur + [c], quote, inWord)
      else if IsQuote(c) then WordsFrom(s[1..], cur, Some(c), true)
      else if IsSpace(c) then
        var rest :- WordsFrom(s[1..], if inWord then "" else cur, None, false);
        Ok((if inWord then [cur] else []) + rest)
      else WordsFrom(s[1..], cur + [c], None, true)
  }

  function SplitWords(s: string): Result<seq<string>, Problem> {
    WordsFrom(s, "", None, false)
  }

  predicate IsLetter(c: char) {
    'a' <= c <= 'z' || 'A' <= c <= 'Z'
  }

  predicate AllLetters(s: string) {
    forall i :: 0 <= i < |s| ==> IsLetter(s[i])
  }

  datatype Word = Plain | Setting(key: string, val: string)

  /** cutOption. */
  function CutOption(w: string): Word {
    var c := Cut(w, '=');
    if c.found && c.before != "" && AllLetters(c.before) then Setting(c.before, c.after) else Plain
  }

  /** The replacer that turns every hop separator into a comma. */
  function CommaSeparated(w: string): string {
    if w == "" then ""
    else if w[0] == '-' && |w| > 1 && w[1] == '>' then "," + CommaSeparated(w[2..])
    else if w[0] == '→' || w[0] == '，' then "," + CommaSeparated(w[1..])
    else [w[0]] + CommaSeparated(w[1..])
  }

  function TrimmedParts(parts: seq<string>): seq<string> {
    if parts == [] then []
    else
      var h := TrimSpace(parts[0]);
      (if h != "" then [h] else []) + TrimmedParts(parts[1..])
  }

  function SplitHops(w: string): seq<string> {
    TrimmedParts(Split(CommaSeparated(w), ','))
  }

  // ---------------------------------------------------------------- addresses

  predicate HostOk(isIP: IsIP, host: string) {
    && host != ""
    && '/' !in host && '\\' !in host && NoBrackets(host) && '@' !in host
    && (':' in host ==> isIP(host))
  }

  datatype Endpoint = Endpoint(host: string, port: int)

  /** The part of parseAddress after the `@`; the port is 22 unless written. */
  function ParseHostPort(isIP: IsIP, hostport: string): Result<Endpoint, Problem> {
    match SplitHostPort(hostport)
    case Some(hp) =>
      var n := Atoi(hp.port);
      if n.None? || n.value < 1 || n.value > 65535 then Err(BadPort)
      else if !HostOk(isIP, hp.host) then Err(BadHost)
      else Ok(Endpoint(hp.host, n.value))
    case None =>
      var host := TrimSuffix(TrimPrefix(hostport, "["), "]");
      if !HostOk(isIP, host) then Err(BadHost) else Ok(Endpoint(host, 22))
  }

  function ParseAddress(isIP: IsIP, w: string): Result<Server, Problem> {
    var at := FindLast(w, '@');
    if at <= 0 || at == |w| - 1 then Err(BadAddress)
    else
      var hp :- ParseHostPort(isIP, w[at + 1..]);
      Ok(Server("", w[..at], hp.host, hp.port, [], "", ""))
  }

  /** host:port, or a port alone. */
  function ListenParts(s: string): Result<HostPort, Problem> {
    if ':' !in s then Ok(HostPort("127.0.0.1", s))
    else match SplitHostPort(s)
      case None => Err(BadListen)
      case Some(hp) => Ok(hp)
  }

  function ListenHost(isIP: IsIP, host: string): Result<string, Problem> {
    if host == "" then Ok("0.0.0.0")
    else if EqualFold(host, "localhost") then Ok("127.0.0.1")
    else if !isIP(host) then Err(ListenNotIP)
    else Ok(host)
  }

  function NormalizeListen(isIP: IsIP, s: string): Result<string, Problem> {
    var hp :- ListenParts(s);
    var n := Atoi(hp.port);
    if n.None? || n.value < 1 || n.value > 65535 then Err(BadListenPort)
    else
      var host :- ListenHost(isIP, hp.host);
      Ok(JoinHostPort(host, Itoa(n.value)))
  }

  function SetServerOption(s: Server, k: string, v: string): Result<Server, Problem> {
    if v == "" then Err(EmptyValue)
    else
      var key := ToLower(k);
      if key == "key" then Ok(s.(keys := s.keys + [v]))
      else if key == "password" then Ok(s.(password := v))
      else if key == "passphrase" then Ok(s.(passphrase := v))
      else Err(UnknownOption)
  }

  // ---------------------------------------------------------------- the two kinds of lines

  /** parseServer, given the server read so far. */
  function ServerWords(isIP: IsIP, s: Option<Server>, words: seq<string>): Result<Server, Problem>
    decreases |words|
  {
    if words == [] then
      if s.None? then Err(NoAddress) else Ok(s.value)
    else match CutOption(words[0])
      case Plain =>
        if s.Some? then Err(ExtraWord)
        else
          var a :- ParseAddress(isIP, words[0]);
          ServerWords(isIP, Some(a), words[1..])
      case Setting(k, v) =>
        if s.None? then Err(OptionBeforeAddress)
        else
          var t :- SetServerOption(s.value, k, v);
          ServerWords(isIP, Some(t), words[1..])
  }

  function ParseServer(isIP: IsIP, words: seq<string>): Result<Server, Problem> {
    ServerWords(isIP, None, words)
  }

  datatype Hop = Named(name: string) | Inline(server: Server)

  /** The proxy line being read: hops and credentials so far. */
  datatype Route = Route(hops: seq<Hop>, user: string, pass: string)

  /** The hops one word stands for, appended to those before. */
  function AddHops(isIP: IsIP, hops: seq<Hop>, names: seq<string>): Result<seq<Hop>, Problem>
    decreases |names|
  {
    if names == [] then Ok(hops)
    else if '@' !in names[0] then AddHops(isIP, hops + [Named(names[0])], names[1..])
    else
      var s :- ParseAddress(isIP, names[0]);
      AddHops(isIP, hops + [Inline(s)], names[1..])
  }

  function RouteAuth(r: Route, v: string): Result<Route, Problem> {
    var c := Cut(v, ':');
    if !c.found || c.before == "" then Err(BadAuth) else Ok(r.(user := c.before, pass := c.after))
  }

  /** Other options belong to the user@address hop right before them. */
  function RouteOption(r: Route, k: string, v: string): Result<Route, Problem> {
    if |r.hops| == 0 || Last(r.hops).Named? then Err(MisplacedOption)
    else
      var s :- SetServerOption(Last(r.hops).server, k, v);
      Ok(r.(hops := r.hops[|r.hops| - 1 := Inline(s)]))
  }

  function RouteWord(isIP: IsIP, r: Route, w: string): Result<Route, Problem> {
    match CutOption(w)
    case Plain =>
      var hops :- AddHops(isIP, r.hops, SplitHops(w));
      Ok(r.(hops := hops))
    case Setting(k, v) => if EqualFold(k, "auth") then RouteAuth(r, v) else RouteOption(r, k, v)
  }

  function RouteWords(isIP: IsIP, r: Route, words: seq<string>): Result<Route, Problem>
    decreases |words|
  {
    if words == [] then Ok(r)
    else
      var r' :- RouteWord(isIP, r, words[0]);
      RouteWords(isIP, r', words[1..])
  }

  function ParseRoute(isIP: IsIP, words: seq<string>): Result<Route, Problem> {
    var r :- RouteWords(isIP, Route([], "", ""), words);
    if r.hops == [] then Err(NoHops) else Ok(r)
  }

  // ---------------------------------------------------------------- files

  datatype ProxyLine = ProxyLine(line: nat, listen: string, route: Route)

  /** ParseConfig between two lines. */
  datatype Reader = Reader(section: string, servers: map<string, Server>, proxies: seq<ProxyLine>)

  predicate NameOk(key: string) {
    && (forall i :: 0 <= i < |key| ==> !IsSpace(key[i]) && key[i] !in "@,，→")
    && (forall i :: 0 <= i < |key| - 1 ==> !(key[i] == '-' && key[i + 1] == '>'))
  }

  predicate IsSection(line: string) {
    |line| > 1 && HasPrefix(line, "[") && HasSuffix(line, "]")
  }

  function ServersLine(isIP: IsIP, st: Reader, key: string, words: seq<string>): Result<Reader, Problem> {
    if !NameOk(key) then Err(BadName)
    else if key in st.servers then Err(DuplicateName)
    else
      var s :- ParseServer(isIP, words);
      Ok(st.(servers := st.servers[key := s.(name := key)]))
  }

  function ProxiesLine(isIP: IsIP, st: Reader, n: nat, key: string, words: seq<string>): Result<Reader, Problem> {
    var listen :- NormalizeListen(isIP, key);
    var route :- ParseRoute(isIP, words);
    Ok(st.(proxies := st.proxies + [ProxyLine(n, listen, route)]))
  }

  function SectionLine(st: Reader, line: string): Result<Reader, Problem>
    requires IsSection(line)
  {
    var section := ToLower(TrimSpace(line[1..|line| - 1]));
    if section == "servers" || section == "proxies" then Ok(st.(section := section)) else Err(UnknownSection)
  }

  /** key = words, in the current section. */
  function EntryLine(isIP: IsIP, st: Reader, n: nat, key: string, words: seq<string>): Result<Reader, Problem> {
    if st.section == "servers" then ServersLine(isIP, st, key, words)
    else if st.section == "proxies" then ProxiesLine(isIP, st, n, key, words)
    else Err(OutsideSection)
  }

  datatype Entry = Entry(key: string, words: seq<string>)

  function CutEntry(line: string): Result<Entry, Problem> {
    var c := Cut(line, '=');
    var key, val := TrimSpace(c.before), TrimSpace(c.after);
    if !c.found || key == "" || val == "" then Err(BadFormat)
    else
      var words :- SplitWords(val);
      Ok(Entry(key, words))
  }

  /** A line with its comment and surrounding space removed. */
  function ContentLine(isIP: IsIP, st: Reader, n: nat, line: string): Result<Reader, Problem> {
    if line == "" then Ok(st)
    else if IsSection(line) then SectionLine(st, line)
    else
      var e :- CutEntry(line);
      EntryLine(isIP, st, n, e.key, e.words)
  }

  function RawLine(isIP: IsIP, st: Reader, n: nat, raw: string): Result<Reader, ConfigError> {
    match ContentLine(isIP, st, n, TrimSpace(StripComment(raw)))
    case Ok(t) => Ok(t)
    case Err(p) => Err(ConfigError(n, p))
  }

  function ReadLines(isIP: IsIP, st: Reader, n: nat, raws: seq<string>): Result<Reader, ConfigError> {
    Fold((s: Reader, k: nat, raw: string) => RawLine(isIP, s, k, raw), st, n, raws)
  }

  function ResolveHop(servers: map<string, Server>, h: Hop): Option<Server> {
    match h
    case Inline(s) => Some(s)
    case Named(name) => if name in servers then Some(servers[name]) else None
  }

  function ResolveHops(servers: map<string, Server>, hops: seq<Hop>): Option<seq<Server>>
    decreases |hops|
  {
    if hops == [] then Some([])
    else
      var s := ResolveHop(servers, hops[0]);
      var rest := ResolveHops(servers, hops[1..]);
      if s.None? || rest.None? then None else Some([s.value] + rest.value)
  }

  /** The last pass: proxies in order, given the listen addresses and proxies already taken. */
  function Resolve(servers: map<string, Server>, taken: set<string>,
                   lines: seq<ProxyLine>): Result<seq<Proxy>, ConfigError>
    decreases |lines|
  {
    if lines == [] then Ok([])
    else
      var pl := lines[0];
      if pl.listen in taken then Err(ConfigError(pl.line, DuplicateListen))
      else
        var chain := ResolveHops(servers, pl.route.hops);
        if chain.None? then Err(ConfigError(pl.line, UndefinedServer))
        else
          var rest :- Resolve(servers, taken + {pl.listen}, lines[1..]);
          Ok([Proxy(pl.listen, chain.value, pl.route.user, pl.route.pass)] + rest)
  }

  const START := Reader("", map[], [])

  function ParseLines(isIP: IsIP, raws: seq<string>): Result<Config, ConfigError> {
    var st :- ReadLines(isIP, START, 1, raws);
    var proxies :- Resolve(st.servers, {}, st.proxies);
    Ok(Config(st.servers, proxies))
  }

  function ParseConfig(isIP: IsIP, text: string): Result<Config, ConfigError> {
    ParseLines(isIP, Split(TrimPrefix(text, BOM), '\n'))
  }
}
