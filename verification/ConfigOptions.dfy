/** The words that stand for one server or one chain, and reading them back. */
module ConfigOptions {
  import opened Basics
  import opened Text
  import opened ConfigModel
  import opened ConfigWellFormed

  // ---------------------------------------------------------------- options

  /** An option as it is written. */
  function OptionText(o: Word): string
    requires o.Setting?
  {
    o.key + "=" + o.val
  }

  /** An option a server may carry. */
  predicate ServerOption(o: Word) {
    o.Setting? && (o.key == "key" || o.key == "password" || o.key == "passphrase") && o.val != ""
  }

  predicate ServerOptions(opts: seq<Word>) {
    forall i :: 0 <= i < |opts| ==> ServerOption(opts[i])
  }

  function Texts(opts: seq<Word>): seq<string>
    requires ServerOptions(opts)
  {
    if opts == [] then [] else [OptionText(opts[0])] + Texts(opts[1..])
  }

  function KeyOptions(keys: seq<string>): (r: seq<Word>)
    ensures |r| == |keys| && forall i :: 0 <= i < |keys| ==> r[i] == Setting("key", keys[i])
  {
    seq(|keys|, i requires 0 <= i < |keys| => Setting("key", keys[i]))
  }

  function OneOption(key: string, val: string): seq<Word> {
    if val == "" then [] else [Setting(key, val)]
  }

  /** The options of a server: its key files in order, then password and passphrase where present. */
  function Options(s: Server): seq<Word> {
    KeyOptions(s.keys) + OneOption("password", s.password) + OneOption("passphrase", s.passphrase)
  }

  function ApplyOne(s: Server, o: Word): Server
    requires ServerOption(o)
  {
    if o.key == "key" then s.(keys := s.keys + [o.val])
    else if o.key == "password" then s.(password := o.val)
    else s.(passphrase := o.val)
  }

  function Apply(s: Server, opts: seq<Word>): Server
    requires ServerOptions(opts)
    decreases |opts|
  {
    if opts == [] then s else assert ServerOption(opts[0]); Apply(ApplyOne(s, opts[0]), opts[1..])
  }

  lemma LowerKeys(k: string)
    requires k == "key" || k == "password" || k == "passphrase"
    ensures ToLower(k) == k && AllLetters(k) && '=' !in k && !EqualFold(k, "auth")
  {
    assert FoldCase(k[0]) != FoldCase('a');
    forall i | 0 <= i < |k| ensures Lower(k[i]) == k[i] && IsLetter(k[i]) { assert 'a' <= k[i] <= 'z'; }
    assert ToLower(k) == k;
  }

  /** A written option is read as that option and applied. */
  lemma OptionReadsBack(s: Server, o: Word)
    requires ServerOption(o)
    ensures CutOption(OptionText(o)) == o && !EqualFold(o.key, "auth")
    ensures SetServerOption(s, o.key, o.val) == Ok(ApplyOne(s, o))
  {
    LowerKeys(o.key);
    FindAppend(o.key, '=', o.val);
    assert OptionText(o) == o.key + ['='] + o.val;
  }

  lemma {:induction false} ApplyInTwo(s: Server, a: seq<Word>, b: seq<Word>)
    requires ServerOptions(a) && ServerOptions(b)
    ensures ServerOptions(a + b) && Apply(s, a + b) == Apply(Apply(s, a), b)
    decreases |a|
  {
    if a == [] {
      assert a + b == b;
    } else {
      assert ServerOption(a[0]);
      assert (a + b)[0] == a[0] && (a + b)[1..] == a[1..] + b;
      ApplyInTwo(ApplyOne(s, a[0]), a[1..], b);
    }
  }

  lemma {:induction false} ApplyKeys(s: Server, keys: seq<string>)
    requires forall i :: 0 <= i < |keys| ==> keys[i] != ""
    ensures ServerOptions(KeyOptions(keys)) && Apply(s, KeyOptions(keys)) == s.(keys := s.keys + keys)
    decreases |keys|
  {
    if keys == [] {
      assert s.keys + keys == s.keys;
    } else {
      ApplyKeys(s.(keys := s.keys + [keys[0]]), keys[1..]);
      assert KeyOptions(keys)[1..] == KeyOptions(keys[1..]);
      assert s.keys + [keys[0]] + keys[1..] == s.keys + keys;
    }
  }

  /** A server with its address only. */
  function AddressOnly(s: Server): Server {
    Server("", s.user, s.host, s.port, [], "", "")
  }

  /** The options of s, applied to its bare address, give s. */
  lemma OptionsRestore(s: Server)
    requires forall i :: 0 <= i < |s.keys| ==> s.keys[i] != ""
    ensures ServerOptions(Options(s)) && Apply(AddressOnly(s), Options(s)) == s.(name := "")
  {
    var k, p, f := KeyOptions(s.keys), OneOption("password", s.password), OneOption("passphrase", s.passphrase);
    ApplyKeys(AddressOnly(s), s.keys);
    assert [] + s.keys == s.keys;
    ApplyInTwo(AddressOnly(s), k, p);
    ApplyInTwo(AddressOnly(s), k + p, f);
  }

  // ---------------------------------------------------------------- servers

  /** user@host:port */
  function AddressWord(s: Server): string
    requires s.port >= 0
  {
    s.user + "@" + Addr(s)
  }

  /** What a server needs beyond being well formed to be written down. */
  predicate ServerWritable(s: Server) {
    CutOption(s.user) == Plain && forall i :: 0 <= i < |s.keys| ==> s.keys[i] != ""
  }

  function WordsOf(s: Server): seq<string>
    requires s.port >= 0 && ServerOptions(Options(s))
  {
    [AddressWord(s)] + Texts(Options(s))
  }

  /** An address is mistaken for an option only when its user already looks like one. */
  lemma AddressIsPlain(user: string, rest: string)
    ensures CutOption(user + "@" + rest) == Plain <==> CutOption(user) == Plain
  {
    var w := user + ['@'] + rest;
    var i, j := Find(user, '='), Find(w, '=');
    FindIsFirst(user, '=');
    FindIsFirst(w, '=');
    assert w[..|user|] == user;
    if i < |user| {
      assert w[i] == '=';
      assert j == i;
      assert w[..j] == user[..i];
    } else if j < |w| {
      assert w[..j][|user|] == '@' && !IsLetter('@');
    }
  }

  /** Such a server is refused, although its address is well formed by itself. */
  lemma OptionLikeUserIsRefused(isIP: IsIP, user: string, rest: string, more: seq<string>)
    requires CutOption(user) != Plain
    ensures ParseServer(isIP, [user + "@" + rest] + more) == Err(OptionBeforeAddress)
  {
    AddressIsPlain(user, rest);
    assert ([user + "@" + rest] + more)[0] == user + "@" + rest;
  }

  lemma BareAddress(isIP: IsIP, user: string, host: string)
    requires user != "" && HostOk(isIP, host) && ':' !in host && NoBrackets(host)
    ensures ParseAddress(isIP, user + "@" + host) == Ok(Server("", user, host, 22, [], "", ""))
  {
    FindLastAbsent(host, ':');
    HostPortReadsBack(isIP, host, host, 22);
    AddressReadsBack(isIP, user, host, host, 22);
  }

  lemma KeyUserIsOption()
    ensures CutOption("key=x") == Setting("key", "x")
  {
    FindAppend("key", '=', "x");
    assert "key=x" == "key" + ['='] + "x";
  }

  /** For instance key=x@host: a user key=x at a host to parseAddress, an option before any address to parseServer. */
  lemma AddressTakenForOption(isIP: IsIP)
    ensures ParseAddress(isIP, "key=x@host") == Ok(Server("", "key=x", "host", 22, [], "", ""))
    ensures ParseServer(isIP, ["key=x@host"]) == Err(OptionBeforeAddress)
  {
    var user, host, w := "key=x", "host", "key=x@host";
    assert w == user + "@" + host && [w] + [] == [w];
    BareAddress(isIP, user, host);
    KeyUserIsOption();
    OptionLikeUserIsRefused(isIP, user, host, []);
  }

  lemma {:induction false} ReadsServerOptions(isIP: IsIP, s: Server, opts: seq<Word>)
    requires ServerOptions(opts)
    ensures ServerWords(isIP, Some(s), Texts(opts)) == Ok(Apply(s, opts))
    decreases |opts|
  {
    if opts != [] {
      assert ServerOption(opts[0]);
      OptionReadsBack(s, opts[0]);
      ReadsServerOptions(isIP, ApplyOne(s, opts[0]), opts[1..]);
      assert Texts(opts)[1..] == Texts(opts[1..]);
    }
  }

  /** The words of a server read back as that server. */
  lemma ServerReadsBack(isIP: IsIP, s: Server)
    requires ServerOk(isIP, s) && ServerWritable(s)
    ensures ServerOptions(Options(s)) && ParseServer(isIP, WordsOf(s)) == Ok(s.(name := ""))
  {
    OptionsRestore(s);
    AddressIsPlain(s.user, Addr(s));
    FullAddressReadsBack(isIP, s);
    ReadsServerOptions(isIP, AddressOnly(s), Options(s));
    assert WordsOf(s)[1..] == Texts(Options(s));
  }

  // ---------------------------------------------------------------- chains

  lemma {:induction false} RouteInTwo(isIP: IsIP, r: Route, a: seq<string>, b: seq<string>)
    ensures RouteWords(isIP, r, a + b)
            == var r' := RouteWords(isIP, r, a); if r'.Err? then r' else RouteWords(isIP, r'.value, b)
    decreases |a|
  {
    if a == [] {
      assert a + b == b;
    } else {
      assert (a + b)[0] == a[0] && (a + b)[1..] == a[1..] + b;
      var t := RouteWord(isIP, r, a[0]);
      if t.Ok? { RouteInTwo(isIP, t.value, a[1..], b); }
    }
  }

  /** A word that stands for one hop: no comma and no arrow in it. */
  predicate OneHop(w: string) {
    && (forall i :: 0 <= i < |w| ==> w[i] !in ",，→")
    && (forall i :: 0 <= i < |w| - 1 ==> !(w[i] == '-' && w[i + 1] == '>'))
  }

  lemma {:induction false} NothingReplaced(w: string)
    requires OneHop(w)
    ensures CommaSeparated(w) == w
    decreases |w|
  {
    if w != "" {
      assert w[0] !in ",，→";
      NothingReplaced(w[1..]);
    }
  }

  lemma OneHopIsKept(w: string)
    requires OneHop(w) && w != "" && Trimmed(w)
    ensures SplitHops(w) == [w]
  {
    NothingReplaced(w);
    assert ',' !in w;
    SplitWhole(w, ',');
    TrimmedStays(w);
    assert [w][0] == w && [w][1..] == [];
    assert TrimmedParts([w]) == [w] + TrimmedParts([]);
  }

  lemma ArrowIsNoHop()
    ensures SplitHops("->") == [] && CutOption("->") == Plain
  {
    assert "->"[2..] == "" && ","[1..] == "";
    assert CommaSeparated("->") == ",";
    assert Split("", ',') == [""];
    assert Split(",", ',') == ["", ""];
    assert ["", ""][1..] == [""];
    assert TrimSpace("") == "";
  }

  /** How a hop of a chain is kept while the line is read. */
  function HopOf(s: Server): Hop {
    if s.name != "" then Named(s.name) else Inline(s)
  }

  predicate HopWritable(s: Server)
    requires s.port >= 0
  {
    && ServerWritable(s)
    && (s.name != "" ==> OneHop(s.name) && Trimmed(s.name) && '=' !in s.name && '@' !in s.name)
    && (s.name == "" ==> OneHop(AddressWord(s)) && s.user != "" && !IsSpace(s.user[0]))
  }

  function HopWords(s: Server): seq<string>
    requires s.port >= 0 && ServerOptions(Options(s))
  {
    if s.name != "" then [s.name] else WordsOf(s)
  }

  lemma OneWordRead(isIP: IsIP, r: Route, w: string)
    ensures RouteWords(isIP, r, [w]) == RouteWord(isIP, r, w)
  {
    assert [w][1..] == [];
  }

  lemma HopOptionReadsBack(isIP: IsIP, r: Route, s: Server, o: Word)
    requires ServerOption(o)
    ensures RouteWord(isIP, r.(hops := r.hops + [Inline(s)]), OptionText(o))
            == Ok(r.(hops := r.hops + [Inline(ApplyOne(s, o))]))
  {
    OptionReadsBack(s, o);
    var now := r.(hops := r.hops + [Inline(s)]);
    assert now.hops[|now.hops| - 1 := Inline(ApplyOne(s, o))] == r.hops + [Inline(ApplyOne(s, o))];
  }

  lemma {:induction false} ReadsHopOptions(isIP: IsIP, r: Route, s: Server, opts: seq<Word>)
    requires ServerOptions(opts)
    ensures RouteWords(isIP, r.(hops := r.hops + [Inline(s)]), Texts(opts))
            == Ok(r.(hops := r.hops + [Inline(Apply(s, opts))]))
    decreases |opts|
  {
    if opts != [] {
      assert ServerOption(opts[0]);
      HopOptionReadsBack(isIP, r, s, opts[0]);
      ReadsHopOptions(isIP, r, ApplyOne(s, opts[0]), opts[1..]);
      assert Texts(opts)[1..] == Texts(opts[1..]);
    }
  }

  /** A word that stands for one hop adds that hop. */
  lemma HopWordRead(isIP: IsIP, r: Route, w: string, h: Hop)
    requires SplitHops(w) == [w] && CutOption(w) == Plain
    requires if '@' in w then h.Inline? && ParseAddress(isIP, w) == Ok(h.server) else h == Named(w)
    ensures RouteWords(isIP, r, [w]) == Ok(r.(hops := r.hops + [h]))
  {
    assert [w][1..] == [];
    assert AddHops(isIP, r.hops + [h], []) == Ok(r.hops + [h]);
    assert AddHops(isIP, r.hops, [w]) == Ok(r.hops + [h]);
    OneWordRead(isIP, r, w);
  }

  lemma NamedHopReadsBack(isIP: IsIP, r: Route, name: string)
    requires name != "" && OneHop(name) && Trimmed(name) && '=' !in name && '@' !in name
    ensures RouteWords(isIP, r, [name]) == Ok(r.(hops := r.hops + [Named(name)]))
  {
    OneHopIsKept(name);
    FindIsFirst(name, '=');
    HopWordRead(isIP, r, name, Named(name));
  }

  lemma AddressWordIsTrimmed(s: Server)
    requires s.port >= 0 && s.user != "" && !IsSpace(s.user[0])
    ensures Trimmed(AddressWord(s)) && AddressWord(s) != "" && '@' in AddressWord(s)
  {
    var w, p := AddressWord(s), Itoa(s.port);
    assert Last(w) == Last(p) && IsDigit(Last(p));
    assert w[0] == s.user[0];
    assert w[|s.user|] == '@';
  }

  lemma InlineAddressReadsBack(isIP: IsIP, r: Route, s: Server)
    requires ServerOk(isIP, s) && s.name == "" && HopWritable(s)
    ensures RouteWords(isIP, r, [AddressWord(s)]) == Ok(r.(hops := r.hops + [Inline(AddressOnly(s))]))
  {
    AddressIsPlain(s.user, Addr(s));
    AddressWordIsTrimmed(s);
    OneHopIsKept(AddressWord(s));
    FullAddressReadsBack(isIP, s);
    HopWordRead(isIP, r, AddressWord(s), Inline(AddressOnly(s)));
  }

  lemma InlineHopReadsBack(isIP: IsIP, r: Route, s: Server)
    requires ServerOk(isIP, s) && s.name == "" && HopWritable(s)
    ensures ServerOptions(Options(s)) && RouteWords(isIP, r, WordsOf(s)) == Ok(r.(hops := r.hops + [Inline(s)]))
  {
    OptionsRestore(s);
    InlineAddressReadsBack(isIP, r, s);
    ReadsHopOptions(isIP, r, AddressOnly(s), Options(s));
    RouteInTwo(isIP, r, [AddressWord(s)], Texts(Options(s)));
  }

  /** The words of a hop add that hop. */
  lemma HopReadsBack(isIP: IsIP, r: Route, s: Server)
    requires ServerOk(isIP, s) && HopWritable(s)
    ensures ServerOptions(Options(s)) && RouteWords(isIP, r, HopWords(s)) == Ok(r.(hops := r.hops + [HopOf(s)]))
  {
    OptionsRestore(s);
    if s.name != "" { NamedHopReadsBack(isIP, r, s.name); } else { InlineHopReadsBack(isIP, r, s); }
  }

  predicate ChainWritable(isIP: IsIP, chain: seq<Server>) {
    forall i :: 0 <= i < |chain| ==>
      ServerOk(isIP, chain[i]) && HopWritable(chain[i]) && ServerOptions(Options(chain[i]))
  }

  function HopsOf(chain: seq<Server>): (r: seq<Hop>)
    ensures |r| == |chain| && forall i :: 0 <= i < |chain| ==> r[i] == HopOf(chain[i])
  {
    seq(|chain|, i requires 0 <= i < |chain| => HopOf(chain[i]))
  }

  /** The hops of a chain with arrows between them. */
  function ChainWords(isIP: IsIP, chain: seq<Server>): (r: seq<string>)
    requires ChainWritable(isIP, chain)
    ensures chain != [] ==> r != []
  {
    if chain == [] then []
    else if |chain| == 1 then HopWords(chain[0])
    else HopWords(chain[0]) + ["->"] + ChainWords(isIP, chain[1..])
  }

  type Walker = (Route, string) -> Result<Route, Problem>

  /** step reads one word of a proxy line as the parser does. */
  ghost predicate Walks(isIP: IsIP, step: Walker) {
    forall r, w {:trigger RouteWord(isIP, r, w)} :: step(r, w) == RouteWord(isIP, r, w)
  }

  function Walk(step: Walker, r: Route, words: seq<string>): Result<Route, Problem>
    decreases |words|
  {
    if words == [] then Ok(r)
    else
      var t :- step(r, words[0]);
      Walk(step, t, words[1..])
  }

  lemma {:induction false} RouteIsWalk(isIP: IsIP, step: Walker, r: Route, words: seq<string>)
    requires Walks(isIP, step)
    ensures RouteWords(isIP, r, words) == Walk(step, r, words)
    decreases |words|
  {
    if words != [] {
      var t := RouteWord(isIP, r, words[0]);
      if t.Ok? { RouteIsWalk(isIP, step, t.value, words[1..]); }
    }
  }

  lemma {:induction false} WalkInTwo(step: Walker, r: Route, a: seq<string>, b: seq<string>)
    ensures Walk(step, r, a + b) == var t := Walk(step, r, a); if t.Err? then t else Walk(step, t.value, b)
    decreases |a|
  {
    if a == [] {
      assert a + b == b;
    } else {
      assert (a + b)[0] == a[0] && (a + b)[1..] == a[1..] + b;
      var t := step(r, a[0]);
      if t.Ok? { WalkInTwo(step, t.value, a[1..], b); }
    }
  }

  /** The words add the hops and nothing else. */
  ghost predicate AddsHops(step: Walker, words: seq<string>, hops: seq<Hop>) {
    forall r :: AddsTo(step, r, words, hops)
  }

  predicate AddsTo(step: Walker, r: Route, words: seq<string>, hops: seq<Hop>) {
    Walk(step, r, words) == Ok(r.(hops := r.hops + hops))
  }

  lemma AddsBoth(step: Walker, a: seq<string>, hs: seq<Hop>, b: seq<string>, more: seq<Hop>)
    requires AddsHops(step, a, hs) && AddsHops(step, b, more)
    ensures AddsHops(step, a + b, hs + more)
  {
    forall r ensures AddsTo(step, r, a + b, hs + more) {
      WalkInTwo(step, r, a, b);
      assert AddsTo(step, r, a, hs) && AddsTo(step, r.(hops := r.hops + hs), b, more);
      assert r.hops + hs + more == r.hops + (hs + more);
    }
  }

  lemma HopAdds(isIP: IsIP, step: Walker, s: Server)
    requires Walks(isIP, step) && ServerOk(isIP, s) && HopWritable(s) && ServerOptions(Options(s))
    ensures AddsHops(step, HopWords(s), [HopOf(s)])
  {
    forall r ensures AddsTo(step, r, HopWords(s), [HopOf(s)]) {
      HopReadsBack(isIP, r, s);
      RouteIsWalk(isIP, step, r, HopWords(s));
    }
  }

  lemma ArrowAdds(isIP: IsIP, step: Walker)
    requires Walks(isIP, step)
    ensures AddsHops(step, ["->"], [])
  {
    ArrowIsNoHop();
    forall r ensures AddsTo(step, r, ["->"], []) {
      OneWordRead(isIP, r, "->");
      RouteIsWalk(isIP, step, r, ["->"]);
      assert r.hops + [] == r.hops;
    }
  }

  /** A hop, an arrow and the rest of the chain. */
  lemma AddsOnward(step: Walker, a: seq<string>, h: Hop, b: seq<string>, hs: seq<Hop>)
    requires AddsHops(step, a, [h]) && AddsHops(step, ["->"], []) && AddsHops(step, b, hs)
    ensures AddsHops(step, a + ["->"] + b, [h] + hs)
  {
    AddsBoth(step, a, [h], ["->"], []);
    AddsBoth(step, a + ["->"], [h] + [], b, hs);
    assert [h] + [] == [h];
  }

  lemma NoHopsAdded(step: Walker)
    ensures AddsHops(step, [], [])
  {
    forall r ensures AddsTo(step, r, [], []) { assert r.hops + [] == r.hops; }
  }

  lemma HopsOfMore(chain: seq<Server>)
    requires chain != []
    ensures HopsOf(chain) == [HopOf(chain[0])] + HopsOf(chain[1..])
  {
  }

  lemma {:induction false} ChainAdds(isIP: IsIP, step: Walker, chain: seq<Server>)
    requires Walks(isIP, step) && ChainWritable(isIP, chain)
    ensures AddsHops(step, ChainWords(isIP, chain), HopsOf(chain))
    decreases |chain|
  {
    if chain == [] {
      NoHopsAdded(step);
    } else {
      HopAdds(isIP, step, chain[0]);
      HopsOfMore(chain);
      if |chain| == 1 {
        assert HopsOf(chain) == [HopOf(chain[0])];
      } else {
        ArrowAdds(isIP, step);
        ChainAdds(isIP, step, chain[1..]);
        AddsOnward(step, HopWords(chain[0]), HopOf(chain[0]), ChainWords(isIP, chain[1..]), HopsOf(chain[1..]));
      }
    }
  }

  /** The words of a chain add exactly its hops. */
  lemma ChainReadsBack(isIP: IsIP, r: Route, chain: seq<Server>)
    requires ChainWritable(isIP, chain)
    ensures RouteWords(isIP, r, ChainWords(isIP, chain)) == Ok(r.(hops := r.hops + HopsOf(chain)))
  {
    var step := (t: Route, w: string) => RouteWord(isIP, t, w);
    ChainAdds(isIP, step, chain);
    RouteIsWalk(isIP, step, r, ChainWords(isIP, chain));
    assert AddsTo(step, r, ChainWords(isIP, chain), HopsOf(chain));
  }

  // ---------------------------------------------------------------- proxies

  predicate AuthWritable(user: string, pass: string) {
    if user == "" then pass == "" else ':' !in user
  }

  function AuthWords(user: string, pass: string): seq<string> {
    if user == "" then [] else ["auth=" + user + ":" + pass]
  }

  lemma AuthIsCut(w: string, v: string)
    requires w == "auth=" + v
    ensures CutOption(w) == Setting("auth", v)
  {
    FindAppend("auth", '=', v);
    assert w == "auth" + ['='] + v;
  }

  lemma AuthIsSet(r: Route, v: string, user: string, pass: string)
    requires v == user + [':'] + pass && user != "" && ':' !in user
    ensures RouteAuth(r, v) == Ok(r.(user := user, pass := pass))
  {
    FindAppend(user, ':', pass);
  }

  lemma SettingRead(isIP: IsIP, r: Route, w: string, k: string, v: string)
    requires CutOption(w) == Setting(k, v) && EqualFold(k, "auth")
    ensures RouteWord(isIP, r, w) == RouteAuth(r, v)
  {
  }

  lemma AuthWordRead(isIP: IsIP, r: Route, w: string, user: string, pass: string)
    requires w == "auth=" + user + ":" + pass && user != "" && ':' !in user
    ensures RouteWord(isIP, r, w) == Ok(r.(user := user, pass := pass))
  {
    var v := user + [':'] + pass;
    assert w == "auth=" + v;
    AuthIsCut(w, v);
    SettingRead(isIP, r, w, "auth", v);
    AuthIsSet(r, v, user, pass);
  }

  lemma OneWordGives(isIP: IsIP, r: Route, w: string, t: Route)
    requires RouteWord(isIP, r, w) == Ok(t)
    ensures RouteWords(isIP, r, [w]) == Ok(t)
  {
    OneWordRead(isIP, r, w);
  }

  lemma AuthReadsBack(isIP: IsIP, r: Route, user: string, pass: string)
    requires AuthWritable(user, pass) && r.user == r.pass == ""
    ensures RouteWords(isIP, r, AuthWords(user, pass)) == Ok(r.(user := user, pass := pass))
  {
    if user != "" {
      var w := "auth=" + user + ":" + pass;
      AuthWordRead(isIP, r, w, user, pass);
      OneWordGives(isIP, r, w, r.(user := user, pass := pass));
    }
  }

  function ProxyWords(isIP: IsIP, p: Proxy): seq<string>
    requires ChainWritable(isIP, p.chain)
  {
    ChainWords(isIP, p.chain) + AuthWords(p.user, p.pass)
  }

  function RouteOf(p: Proxy): Route {
    Route(HopsOf(p.chain), p.user, p.pass)
  }

  /** The words of a proxy read back as its hops and credentials. */
  lemma ProxyReadsBack(isIP: IsIP, p: Proxy)
    requires ChainWritable(isIP, p.chain) && p.chain != [] && AuthWritable(p.user, p.pass)
    ensures ParseRoute(isIP, ProxyWords(isIP, p)) == Ok(RouteOf(p))
  {
    var r0 := Route([], "", "");
    ChainReadsBack(isIP, r0, p.chain);
    assert [] + HopsOf(p.chain) == HopsOf(p.chain);
    AuthReadsBack(isIP, Route(HopsOf(p.chain), "", ""), p.user, p.pass);
    RouteInTwo(isIP, r0, ChainWords(isIP, p.chain), AuthWords(p.user, p.pass));
  }
}
