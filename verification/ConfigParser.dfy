/** The loops of config.go, proved to compute the functions of ConfigModel. */
module ConfigParser {
  import opened Basics
  import opened Text
  import opened ConfigModel

  lemma KeepOne<T>(before: seq<T>, c: T, rest: seq<T>)
    ensures before + ([c] + rest) == (before + [c]) + rest
  {
  }

  /** The quote that is open after c. */
  function NextQuote(quote: Option<char>, c: char): Option<char> {
    if quote.Some? then if c == quote.value then None else quote
    else if IsQuote(c) then Some(c) else None
  }

  lemma KeepOneComment(line: string, i: nat, quote: Option<char>, prevSpace: bool)
    requires i < |line|
    ensures line[..i] + Uncommented(line[i..], quote, prevSpace)
            == if quote.None? && line[i] == '#' && prevSpace then line[..i]
               else line[..i + 1] + Uncommented(line[i + 1..], NextQuote(quote, line[i]), IsSpace(line[i]))
  {
    var c := line[i];
    assert line[i..][0] == c && line[i..][1..] == line[i + 1..] && line[..i + 1] == line[..i] + [c];
    KeepOne(line[..i], c, Uncommented(line[i + 1..], NextQuote(quote, c), IsSpace(c)));
    assert line[..i] + "" == line[..i];
  }

  /** The scan for an unquoted `#` after a space. */
  method ScanComment(line: string) returns (r: string)
    ensures r == Uncommented(line, None, false)
  {
    var quote: Option<char> := None;
    var prevSpace := false;
    ghost var kept := Uncommented(line, None, false);
    assert line[0..] == line && line[..0] == "";
    for i := 0 to |line|
      invariant line[..i] + Uncommented(line[i..], quote, prevSpace) == kept
    {
      var c := line[i];
      KeepOneComment(line, i, quote, prevSpace);
      if quote.Some? {
        if c == quote.value { quote := None; }
      } else if IsQuote(c) {
        quote := Some(c);
      } else if c == '#' && prevSpace {
        return line[..i];
      }
      prevSpace := IsSpace(c);
    }
    assert line[|line|..] == "" && line[..|line|] + "" == line;
    return line;
  }

  method StripCommentLoop(line: string) returns (r: string)
    ensures r == StripComment(line)
  {
    var t := TrimSpace(line);
    if HasPrefix(t, "#") || HasPrefix(t, ";") {
      return "";
    }
    r := ScanComment(line);
  }

  function Prepend(words: seq<string>, r: Result<seq<string>, Problem>): Result<seq<string>, Problem> {
    match r
    case Ok(rest) => Ok(words + rest)
    case Err(p) => Err(p)
  }

  lemma PrependNone(r: Result<seq<string>, Problem>)
    ensures Prepend([], r) == r
  {
    if r.Ok? { assert [] + r.value == r.value; }
  }

  lemma PrependOne(words: seq<string>, w: string, r: Result<seq<string>, Problem>)
    ensures Prepend(words, Prepend([w], r)) == Prepend(words + [w], r)
  {
    if r.Ok? { KeepOne(words, w, r.value); }
  }

  method SplitWordsLoop(s: string) returns (r: Result<seq<string>, Problem>)
    ensures r == SplitWords(s)
  {
    var words: seq<string> := [];
    var cur := "";
    var quote: Option<char> := None;
    var inWord := false;
    assert s[0..] == s;
    PrependNone(SplitWords(s));
    for i := 0 to |s|
      invariant SplitWords(s) == Prepend(words, WordsFrom(s[i..], cur, quote, inWord))
    {
      var c := s[i];
      assert s[i..][0] == c && s[i..][1..] == s[i + 1..];
      if quote.Some? {
        if c == quote.value { quote := None; } else { cur := cur + [c]; }
      } else if IsQuote(c) {
        quote, inWord := Some(c), true;
      } else if IsSpace(c) {
        ghost var rest := WordsFrom(s[i + 1..], if inWord then "" else cur, None, false);
        PrependNone(rest);
        if inWord {
          PrependOne(words, cur, rest);
          words, cur, inWord := words + [cur], "", false;
        }
      } else {
        cur, inWord := cur + [c], true;
      }
    }
    assert words + [] == words;
    if quote.Some? {
      return Err(OpenQuote);
    }
    return Ok(if inWord then words + [cur] else words);
  }

  lemma TrimmedStep(parts: seq<string>, i: nat)
    requires i < |parts|
    ensures TrimmedParts(parts[i..])
            == if TrimSpace(parts[i]) != "" then [TrimSpace(parts[i])] + TrimmedParts(parts[i + 1..])
              else TrimmedParts(parts[i + 1..])
  {
    assert parts[i..][0] == parts[i] && parts[i..][1..] == parts[i + 1..];
    assert [] + TrimmedParts(parts[i + 1..]) == TrimmedParts(parts[i + 1..]);
  }

  method SplitHopsLoop(w: string) returns (hops: seq<string>)
    ensures hops == SplitHops(w)
  {
    var parts := Split(CommaSeparated(w), ',');
    hops := [];
    ghost var all := TrimmedParts(parts);
    assert parts[0..] == parts;
    for i := 0 to |parts|
      invariant all == hops + TrimmedParts(parts[i..])
    {
      TrimmedStep(parts, i);
      var h := TrimSpace(parts[i]);
      if h != "" {
        KeepOne(hops, h, TrimmedParts(parts[i + 1..]));
        hops := hops + [h];
      }
    }
    assert parts[|parts|..] == [] && hops + [] == hops;
  }

  method ParseServerLoop(isIP: IsIP, words: seq<string>) returns (r: Result<Server, Problem>)
    ensures r == ParseServer(isIP, words)
  {
    var s: Option<Server> := None;
    for i := 0 to |words|
      invariant ParseServer(isIP, words) == ServerWords(isIP, s, words[i..])
    {
      assert words[i..][0] == words[i] && words[i..][1..] == words[i + 1..];
      match CutOption(words[i])
      case Plain =>
        if s.Some? { return Err(ExtraWord); }
        var a := ParseAddress(isIP, words[i]);
        if a.Err? { return Err(a.error); }
        s := Some(a.value);
      case Setting(k, v) =>
        if s.None? { return Err(OptionBeforeAddress); }
        var t := SetServerOption(s.value, k, v);
        if t.Err? { return Err(t.error); }
        s := Some(t.value);
    }
    return if s.None? then Err(NoAddress) else Ok(s.value);
  }

  method AddHopsLoop(isIP: IsIP, hops0: seq<Hop>, names: seq<string>) returns (r: Result<seq<Hop>, Problem>)
    ensures r == AddHops(isIP, hops0, names)
  {
    var hops := hops0;
    assert names[0..] == names;
    for i := 0 to |names|
      invariant AddHops(isIP, hops0, names) == AddHops(isIP, hops, names[i..])
    {
      assert names[i..][0] == names[i] && names[i..][1..] == names[i + 1..];
      if '@' !in names[i] {
        hops := hops + [Named(names[i])];
      } else {
        var s := ParseAddress(isIP, names[i]);
        if s.Err? { return Err(s.error); }
        hops := hops + [Inline(s.value)];
      }
    }
    assert names[|names|..] == [];
    return Ok(hops);
  }

  method ParseRouteLoop(isIP: IsIP, words: seq<string>) returns (r: Result<Route, Problem>)
    ensures r == ParseRoute(isIP, words)
  {
    var hops: seq<Hop> := [];
    var user, pass := "", "";
    for i := 0 to |words|
      invariant RouteWords(isIP, Route([], "", ""), words) == RouteWords(isIP, Route(hops, user, pass), words[i..])
    {
      assert words[i..][0] == words[i] && words[i..][1..] == words[i + 1..];
      match CutOption(words[i])
      case Plain =>
        var names := SplitHopsLoop(words[i]);
        var more := AddHopsLoop(isIP, hops, names);
        if more.Err? { return Err(more.error); }
        hops := more.value;
      case Setting(k, v) =>
        if EqualFold(k, "auth") {
          var c := Cut(v, ':');
          if !c.found || c.before == "" { return Err(BadAuth); }
          user, pass := c.before, c.after;
        } else {
          if |hops| == 0 || hops[|hops| - 1].Named? { return Err(MisplacedOption); }
          var s := SetServerOption(hops[|hops| - 1].server, k, v);
          if s.Err? { return Err(s.error); }
          hops := hops[|hops| - 1 := Inline(s.value)];
        }
    }
    return if hops == [] then Err(NoHops) else Ok(Route(hops, user, pass));
  }

  /** One line of the main loop of ParseConfig. */
  method ReadLine(isIP: IsIP, st: Reader, n: nat, raw: string) returns (r: Result<Reader, ConfigError>)
    ensures r == RawLine(isIP, st, n, raw)
  {
    var stripped := StripCommentLoop(raw);
    var line := TrimSpace(stripped);
    if line == "" {
      return Ok(st);
    }
    if IsSection(line) {
      var section := ToLower(TrimSpace(line[1..|line| - 1]));
      return if section != "servers" && section != "proxies" then Err(ConfigError(n, UnknownSection))
        else Ok(st.(section := section));
    }
    var c := Cut(line, '=');
    var key, val := TrimSpace(c.before), TrimSpace(c.after);
    if !c.found || key == "" || val == "" {
      return Err(ConfigError(n, BadFormat));
    }
    var words := SplitWordsLoop(val);
    if words.Err? { return Err(ConfigError(n, words.error)); }
    if st.section == "servers" {
      if !NameOk(key) { return Err(ConfigError(n, BadName)); }
      if key in st.servers { return Err(ConfigError(n, DuplicateName)); }
      var s := ParseServerLoop(isIP, words.value);
      if s.Err? { return Err(ConfigError(n, s.error)); }
      return Ok(st.(servers := st.servers[key := s.value.(name := key)]));
    } else if st.section == "proxies" {
      var listen := NormalizeListen(isIP, key);
      if listen.Err? { return Err(ConfigError(n, listen.error)); }
      var route := ParseRouteLoop(isIP, words.value);
      if route.Err? { return Err(ConfigError(n, route.error)); }
      return Ok(st.(proxies := st.proxies + [ProxyLine(n, listen.value, route.value)]));
    }
    return Err(ConfigError(n, OutsideSection));
  }

  method ResolveHopsLoop(servers: map<string, Server>, hops: seq<Hop>) returns (r: Option<seq<Server>>)
    ensures r == ResolveHops(servers, hops)
  {
    var chain: seq<Server> := [];
    assert hops[0..] == hops;
    for i := 0 to |hops|
      invariant ResolveHops(servers, hops).None? <==> ResolveHops(servers, hops[i..]).None?
      invariant ResolveHops(servers, hops).Some? ==>
        ResolveHops(servers, hops).value == chain + ResolveHops(servers, hops[i..]).value
    {
      assert hops[i..][0] == hops[i] && hops[i..][1..] == hops[i + 1..];
      var s := ResolveHop(servers, hops[i]);
      if s.None? { return None; }
      if ResolveHops(servers, hops[i + 1..]).Some? {
        KeepOne(chain, s.value, ResolveHops(servers, hops[i + 1..]).value);
      }
      chain := chain + [s.value];
    }
    assert hops[|hops|..] == [] && chain + [] == chain;
    return Some(chain);
  }

  function Onto(proxies: seq<Proxy>, r: Result<seq<Proxy>, ConfigError>): Result<seq<Proxy>, ConfigError> {
    match r
    case Ok(rest) => Ok(proxies + rest)
    case Err(e) => Err(e)
  }

  lemma OntoOne(proxies: seq<Proxy>, p: Proxy, r: Result<seq<Proxy>, ConfigError>)
    ensures Onto(proxies, Onto([p], r)) == Onto(proxies + [p], r)
    ensures Onto([], r) == r
  {
    if r.Ok? {
      KeepOne(proxies, p, r.value);
      assert [] + r.value == r.value;
    }
  }

  /** The last loop of ParseConfig, with the addresses seen so far. */
  method ResolveLoop(servers: map<string, Server>, lines: seq<ProxyLine>) returns (r: Result<seq<Proxy>, ConfigError>)
    ensures r == Resolve(servers, {}, lines)
  {
    var seen: set<string> := {};
    var proxies: seq<Proxy> := [];
    assert lines[0..] == lines;
    OntoOne([], Proxy("", [], "", ""), Resolve(servers, {}, lines));
    for i := 0 to |lines|
      invariant Resolve(servers, {}, lines) == Onto(proxies, Resolve(servers, seen, lines[i..]))
    {
      var pl := lines[i];
      assert lines[i..][0] == pl && lines[i..][1..] == lines[i + 1..];
      if pl.listen in seen { return Err(ConfigError(pl.line, DuplicateListen)); }
      var chain := ResolveHopsLoop(servers, pl.route.hops);
      if chain.None? { return Err(ConfigError(pl.line, UndefinedServer)); }
      var p := Proxy(pl.listen, chain.value, pl.route.user, pl.route.pass);
      OntoOne(proxies, p, Resolve(servers, seen + {pl.listen}, lines[i + 1..]));
      seen, proxies := seen + {pl.listen}, proxies + [p];
    }
    assert lines[|lines|..] == [] && proxies + [] == proxies;
    return Ok(proxies);
  }

  lemma ReadStep(isIP: IsIP, st: Reader, raws: seq<string>, i: nat)
    requires i < |raws|
    ensures var r := RawLine(isIP, st, i + 1, raws[i]);
      ReadLines(isIP, st, i + 1, raws[i..])
      == if r.Err? then Err(r.error) else ReadLines(isIP, r.value, i + 2, raws[i + 1..])
  {
    assert raws[i..][0] == raws[i] && raws[i..][1..] == raws[i + 1..];
  }

  /** The first loop of ParseConfig. */
  method ReadLoop(isIP: IsIP, raws: seq<string>) returns (r: Result<Reader, ConfigError>)
    ensures r == ReadLines(isIP, START, 1, raws)
  {
    var st := START;
    assert raws[0..] == raws;
    for i := 0 to |raws|
      invariant ReadLines(isIP, START, 1, raws) == ReadLines(isIP, st, i + 1, raws[i..])
    {
      ReadStep(isIP, st, raws, i);
      var next := ReadLine(isIP, st, i + 1, raws[i]);
      if next.Err? { return Err(next.error); }
      st := next.value;
    }
    assert raws[|raws|..] == [];
    return Ok(st);
  }

  method ParseConfigLoop(isIP: IsIP, text: string) returns (r: Result<Config, ConfigError>)
    ensures r == ParseConfig(isIP, text)
  {
    var st := ReadLoop(isIP, Split(TrimPrefix(text, BOM), '\n'));
    if st.Err? { return Err(st.error); }
    var proxies := ResolveLoop(st.value.servers, st.value.proxies);
    if proxies.Err? { return Err(proxies.error); }
    return Ok(Config(st.value.servers, proxies.value));
  }
}
