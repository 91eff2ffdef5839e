/** What the HTTP side of a proxy port does with a request: absolute-form targets, credentials and dialling. */
module HttpServe {
  import opened Basics
  import opened Text
  import opened BufReader
  import opened HttpHead
  import opened HttpForward
  import opened HttpRewrite
  import opened HttpAgain

  // ---------------------------------------------------------------- absolute-form targets

  const SCHEME := "http://"

  datatype Url = Url(authority: string, path: string)

  predicate PathStart(c: char) {
    c == '/' || c == '?'
  }

  /** strings.IndexAny(s, "/?"), or |s|. */
  function AuthorityEnd(s: string): (r: nat)
    ensures r <= |s|
  {
    if s == "" || PathStart(s[0]) then 0 else 1 + AuthorityEnd(s[1..])
  }

  lemma {:induction false} AuthorityEndIsFirst(s: string)
    ensures AuthorityEnd(s) < |s| ==> PathStart(s[AuthorityEnd(s)])
    ensures forall j :: 0 <= j < AuthorityEnd(s) ==> !PathStart(s[j])
    decreases |s|
  {
    if s != "" && !PathStart(s[0]) {
      AuthorityEndIsFirst(s[1..]);
      forall j | 0 < j < AuthorityEnd(s) ensures !PathStart(s[j]) { assert s[j] == s[1..][j - 1]; }
    }
  }

  /** The path in origin-form. */
  function PathOf(p: string): string {
    if p == "" then "/" else if p[0] == '?' then "/" + p else p
  }

  predicate HasScheme(target: string) {
    |target| > |SCHEME| && EqualFold(target[..|SCHEME|], SCHEME)
  }

  function SplitRest(rest: string): Option<Url> {
    var i := AuthorityEnd(rest);
    var authority := rest[..i];
    var host := authority[FindLast(authority, '@') + 1..];
    if host == "" then None else Some(Url(host, PathOf(rest[i..])))
  }

  function SplitProxyURL(target: string): Option<Url> {
    if !HasScheme(target) then None else SplitRest(target[|SCHEME|..])
  }

  predicate NoPathStart(s: string) {
    forall i :: 0 <= i < |s| ==> !PathStart(s[i])
  }

  /** rest is user information (with its `@`) or nothing, then the authority, then the path and query or nothing. */
  predicate Spells(rest: string, userinfo: string, authority: string, p: string) {
    && rest == userinfo + authority + p
    && NoPathStart(userinfo) && (userinfo != "" ==> Last(userinfo) == '@')
    && NoPathStart(authority) && '@' !in authority && authority != ""
    && (p != "" ==> PathStart(p[0]))
  }

  lemma AuthorityAndPath(rest: string) returns (a: string, p: string)
    ensures a == rest[..AuthorityEnd(rest)] && p == rest[AuthorityEnd(rest)..]
    ensures rest == a + p && NoPathStart(a) && (p != "" ==> PathStart(p[0]))
  {
    AuthorityEndIsFirst(rest);
    a, p := rest[..AuthorityEnd(rest)], rest[AuthorityEnd(rest)..];
  }

  lemma NoPathStartParts(a: string, k: nat)
    requires NoPathStart(a) && k <= |a|
    ensures a == a[..k] + a[k..] && NoPathStart(a[..k]) && NoPathStart(a[k..])
  {
  }

  lemma UserinfoAndHost(a: string) returns (userinfo: string, host: string)
    requires NoPathStart(a)
    ensures host == a[FindLast(a, '@') + 1..] && a == userinfo + host
    ensures NoPathStart(userinfo) && (userinfo != "" ==> Last(userinfo) == '@')
    ensures NoPathStart(host) && '@' !in host
  {
    var k := FindLast(a, '@') + 1;
    FindLastIsLast(a, '@');
    assert '@' !in a[k..];
    NoPathStartParts(a, k);
    userinfo, host := a[..k], a[k..];
  }

  lemma SplitRestSpells(rest: string) returns (userinfo: string, p: string)
    requires SplitRest(rest).Some?
    ensures Spells(rest, userinfo, SplitRest(rest).value.authority, p) && SplitRest(rest).value.path == PathOf(p)
  {
    var a, path := AuthorityAndPath(rest);
    var u, host := UserinfoAndHost(a);
    userinfo, p := u, path;
  }

  lemma SpelledIsSplit(rest: string, userinfo: string, authority: string, p: string)
    requires Spells(rest, userinfo, authority, p)
    ensures SplitRest(rest) == Some(Url(authority, PathOf(p)))
  {
    var a := userinfo + authority;
    AuthorityEndIsFirst(rest);
    assert AuthorityEnd(rest) == |a| by {
      assert p != "" ==> rest[|a|] == p[0];
      assert forall j :: 0 <= j < |a| ==> rest[j] == a[j];
    }
    assert rest[..|a|] == a && rest[|a|..] == p;
    if userinfo == "" {
      FindLastAbsent(a, '@');
      assert a[0..] == authority;
    } else {
      var u := userinfo[..|userinfo| - 1];
      assert userinfo == u + ['@'];
      assert a == u + ['@'] + authority;
      FindLastAppend(u, '@', authority);
      assert a[|u| + 1..] == authority;
    }
  }

  /** splitProxyURL finds exactly the authority and path that the target spells. */
  lemma SplitIsSpelling(target: string, authority: string, path: string)
    ensures SplitProxyURL(target) == Some(Url(authority, path))
            <==> HasScheme(target) && exists u, p :: Spells(target[|SCHEME|..], u, authority, p) && path == PathOf(p)
  {
    if HasScheme(target) {
      var rest := target[|SCHEME|..];
      if SplitProxyURL(target) == Some(Url(authority, path)) {
        var u, p := SplitRestSpells(rest);
      }
      if exists u, p :: Spells(rest, u, authority, p) && path == PathOf(p) {
        var u, p :| Spells(rest, u, authority, p) && path == PathOf(p);
        SpelledIsSplit(rest, u, authority, p);
      }
    }
  }

  /** What is split from a request's target fits into a request line and a header line. */
  lemma SplitIsPlain(target: string)
    requires ' ' !in target && '\n' !in target && SplitProxyURL(target).Some?
    ensures var u := SplitProxyURL(target).value;
      ' ' !in u.path && '\n' !in u.path && '\n' !in u.authority && u.path != "" && u.path[0] == '/'
  {
    var rest := target[|SCHEME|..];
    var userinfo, p := SplitRestSpells(rest);
    assert forall c :: c in rest ==> c in target;
    var u := SplitProxyURL(target).value;
    assert forall c :: c in p || c in u.authority ==> c in rest;
  }

  // ---------------------------------------------------------------- credentials

  /** base64.StdEncoding.DecodeString */
  type Decode = string -> Option<string>

  datatype Credentials = Credentials(user: string, pass: string)

  predicate CheckAuth(want: Credentials, user: string, pass: string) {
    user == want.user && pass == want.pass
  }

  predicate CheckBasicAuth(decode: Decode, want: Credentials, header: string) {
    var c := Cut(header, ' ');
    if !c.found || !EqualFold(c.before, "Basic") then false
    else match decode(TrimSpace(c.after))
      case None => false
      case Some(raw) => CheckAuth(want, Cut(raw, ':').before, Cut(raw, ':').after)
  }

  /** The Basic header of a client that knows the credentials is accepted, and one with other credentials is not. */
  lemma BasicReadsBack(decode: Decode, want: Credentials, text: string, user: string, pass: string)
    requires Trimmed(text) && decode(text) == Some(user + ":" + pass) && ':' !in user
    ensures CheckBasicAuth(decode, want, "Basic " + text) <==> want == Credentials(user, pass)
  {
    FindAppend("Basic", ' ', text);
    assert "Basic " + text == "Basic" + [' '] + text;
    TrimmedStays(text);
    FindAppend(user, ':', pass);
    assert user + ":" + pass == user + [':'] + pass;
  }

  /** A header that is accepted decodes to the configured user and password. */
  lemma AcceptedBasic(decode: Decode, want: Credentials, header: string)
    requires CheckBasicAuth(decode, want, header)
    ensures ':' !in want.user
    ensures var raw := decode(TrimSpace(Cut(header, ' ').after));
      raw == Some(want.user + ":" + want.pass) || (raw == Some(want.user) && want.pass == "")
  {
    var raw := decode(TrimSpace(Cut(header, ' ').after)).value;
    FindIsFirst(raw, ':');
    if Cut(raw, ':').found { CutIsOk(raw, ':'); }
  }

  // ---------------------------------------------------------------- serveHTTP

  datatype Action =
    | Reply(code: nat)
    | StatusPage
    | Connect(target: string)
    | Fetch(target: string, text: string)

  function ConnectTarget(target: string): string {
    if SplitHostPort(target).Some? then target else JoinHostPort(target, "443")
  }

  /** strings.Trim(s, "[]") */
  function TrimBrackets(s: string): string
    decreases |s|
  {
    if s != "" && (s[0] == '[' || s[0] == ']') then TrimBrackets(s[1..])
    else if s != "" && (Last(s) == '[' || Last(s) == ']') then TrimBrackets(s[..|s| - 1])
    else s
  }

  function FetchTarget(authority: string): string {
    if SplitHostPort(authority).Some? then authority else JoinHostPort(TrimBrackets(authority), "80")
  }

  lemma {:induction false} BracketsTrimmed(host: string)
    requires NoBrackets(host)
    ensures TrimBrackets(host) == host && TrimBrackets("[" + host + "]") == host
  {
    assert host != "" ==> host[0] in host && Last(host) in host;
    var s := "[" + host + "]";
    assert s[1..] == host + "]";
    assert (host + "]")[..|host|] == host;
    assert host == "" ==> (host + "]")[1..] == "";
    assert Last(host + "]") == ']';
  }

  /** The target dialled: as written when it has a port, port 80 for a bare host or a bracketed address. */
  lemma FetchTargets(host: string, port: string)
    requires NoBrackets(host) && NoBrackets(port) && ':' !in port
    ensures FetchTarget(JoinHostPort(host, port)) == JoinHostPort(host, port)
    ensures ':' !in host ==> FetchTarget(host) == JoinHostPort(host, "80")
    ensures FetchTarget("[" + host + "]") == JoinHostPort(host, "80")
  {
    SplitOfJoin(host, port);
    BracketsTrimmed(host);
    if ':' !in host { FindLastAbsent(host, ':'); }
    BracketsAreNoPort(host);
  }

  lemma BracketsAreNoPort(host: string)
    requires NoBrackets(host)
    ensures SplitHostPort("[" + host + "]").None?
  {
    var s := "[" + host + "]";
    FindAppend("[" + host, ']', "");
    assert s == ("[" + host) + [']'] + "";
    FindLastIsLast(s, ':');
  }

  /** What serveHTTP does with a head it has read. */
  function ActionFor(decode: Decode, auth: Credentials, h: Head): Action {
    if auth.user != "" && !CheckBasicAuth(decode, auth, HeaderOf(h.lines, "Proxy-Authorization")) then Reply(407)
    else Admitted(h)
  }

  /** And once the credentials are in order. */
  function Admitted(h: Head): Action {
    if EqualFold(h.method_, "CONNECT") then Connect(ConnectTarget(h.target))
    else match SplitProxyURL(h.target)
      case None => if HasPrefix(h.target, "/") then StatusPage else Reply(400)
      case Some(u) => Fetch(FetchTarget(u.authority), ForwardOf(h, u.path, u.authority))
  }

  /** How serveHTTP ends: the reply sent, or the relay entered and what the target has been sent so far. */
  datatype Ending =
    | Hangup
    | Answered(code: nat)
    | Relaying(target: string, toClient: string, toTarget: string)

  const ESTABLISHED := "HTTP/1.1 200 Connection Established\r\n\r\n"

  /** A link on which writing may fail. */
  datatype Link = Link(ok: bool)

  function EndingOf(a: Action, dial: string -> bool, client: Link, target: Link): Ending {
    match a
    case Reply(code) => Answered(code)
    case StatusPage => Answered(200)
    case Connect(t) =>
      if !dial(t) then Answered(502) else if !client.ok then Hangup else Relaying(t, ESTABLISHED, "")
    case Fetch(t, text) =>
      if !dial(t) then Answered(502) else if !target.ok then Hangup else Relaying(t, "", text)
  }

  /** A stream that ends inside the head is left alone; one that fails there, as by its deadline, is answered 400. */
  function ServeHTTPOf(decode: Decode, auth: Credentials, stream: string, eof: bool, dial: string -> bool,
                       client: Link, target: Link): Ending {
    match HeadOf(stream, MAX)
    case Err(e) => if e == ReadFailed && eof then Hangup else Answered(400)
    case Ok(q) => EndingOf(ActionFor(decode, auth, q.head), dial, client, target)
  }

  /** The target that dial is asked for, if it is. */
  function DialledBy(a: Action): Option<string> {
    match a
    case Connect(t) => Some(t)
    case Fetch(t, _) => Some(t)
    case _ => None
  }

  function DialledFor(decode: Decode, auth: Credentials, stream: string): Option<string> {
    match HeadOf(stream, MAX)
    case Err(_) => None
    case Ok(q) => DialledBy(ActionFor(decode, auth, q.head))
  }

  /** serveHTTP once the head is read and the credentials are in order. */
  method Admit(h: Head, dial: string -> bool, client: Link, target: Link) returns (r: Ending, dialled: Option<string>)
    ensures r == EndingOf(Admitted(h), dial, client, target) && dialled == DialledBy(Admitted(h))
  {
    if EqualFold(h.method_, "CONNECT") {
      var t := ConnectTarget(h.target);
      if !dial(t) { return Answered(502), Some(t); }
      if !client.ok { return Hangup, Some(t); }
      return Relaying(t, ESTABLISHED, ""), Some(t);
    }
    var u := SplitProxyURL(h.target);
    if u.None? {
      return Answered(if HasPrefix(h.target, "/") then 200 else 400), None;
    }
    var t := FetchTarget(u.value.authority);
    if !dial(t) { return Answered(502), Some(t); }
    var text := Forward(h, u.value.path, u.value.authority);
    if !target.ok { return Hangup, Some(t); }
    return Relaying(t, "", text), Some(t);
  }

  /** serveHTTP once the head is read. */
  method Serve(decode: Decode, auth: Credentials, h: Head, dial: string -> bool, client: Link, target: Link)
    returns (r: Ending, dialled: Option<string>)
    ensures r == EndingOf(ActionFor(decode, auth, h), dial, client, target)
    ensures dialled == DialledBy(ActionFor(decode, auth, h))
  {
    if auth.user != "" {
      var v := Header(h, "Proxy-Authorization");
      if !CheckBasicAuth(decode, auth, v) { return Answered(407), None; }
    }
    r, dialled := Admit(h, dial, client, target);
  }

  /** serveHTTP: `dialled` is the target given to dial, if any; when it relays, br stands right after the head. */
  method ServeHTTP(decode: Decode, auth: Credentials, br: Reader, dial: string -> bool, client: Link, target: Link)
    returns (r: Ending, dialled: Option<string>)
    requires br.Valid()
    modifies br
    ensures br.Valid()
    ensures r == ServeHTTPOf(decode, auth, old(br.Rest()), br.eof, dial, client, target)
    ensures dialled == DialledFor(decode, auth, old(br.Rest()))
    ensures r.Relaying? ==> HeadOf(old(br.Rest()), MAX).Ok? && br.Rest() == HeadOf(old(br.Rest()), MAX).value.rest
  {
    var head := ReadHTTPHead(br);
    if head.Err? {
      return if head.error == ReadFailed && br.eof then Hangup else Answered(400), None;
    }
    r, dialled := Serve(decode, auth, head.value, dial, client, target);
  }

  /**
   * With credentials configured, nothing is dialled unless the request carries them: its Proxy-Authorization header
   * decodes to that user and password. A request that does not is answered 407.
   */
  lemma CredentialsGate(decode: Decode, auth: Credentials, stream: string)
    requires HeadOf(stream, MAX).Ok? && auth.user != ""
    ensures var header := HeaderOf(HeadOf(stream, MAX).value.head.lines, "Proxy-Authorization");
      var raw := decode(TrimSpace(Cut(header, ' ').after));
      && (ActionFor(decode, auth, HeadOf(stream, MAX).value.head) == Reply(407) <==>
          !CheckBasicAuth(decode, auth, header))
      && (DialledFor(decode, auth, stream).Some? ==>
        raw == Some(auth.user + ":" + auth.pass) || (raw == Some(auth.user) && auth.pass == ""))
  {
    var header := HeaderOf(HeadOf(stream, MAX).value.head.lines, "Proxy-Authorization");
    if CheckBasicAuth(decode, auth, header) { AcceptedBasic(decode, auth, header); }
  }

  /**
   * A plain request that is relayed: the target gets a request that reads as the same method and protocol, the path in
   * origin-form, and the rewritten header; reading it consumes exactly the text sent.
   */
  lemma FetchedRequestReadsBack(decode: Decode, auth: Credentials, stream: string, more: string, max: nat)
    requires HeadOf(stream, MAX).Ok? && ActionFor(decode, auth, HeadOf(stream, MAX).value.head).Fetch?
    requires max >= |ActionFor(decode, auth, HeadOf(stream, MAX).value.head).text|
    ensures var h := HeadOf(stream, MAX).value.head;
      var u := SplitProxyURL(h.target);
      && u.Some? && u.value.path != "" && u.value.path[0] == '/'
      && HeadOf(ActionFor(decode, auth, h).text + more, max)
         == Ok(Request(Head(h.method_, u.value.path, h.proto, Rewritten(h.lines, Chomp(u.value.authority))), more))
  {
    var h := HeadOf(stream, MAX).value.head;
    ReadHeadIsOk(stream, MAX);
    var u := SplitProxyURL(h.target).value;
    SplitIsPlain(h.target);
    ForwardReadsBack(h, u.path, u.authority, more, max);
  }

  /** The request of CarriageReturnInTarget. */
  const ODD := Head("GET", "http://h\r", "HTTP/1.1", [])

  lemma BareHeadReadsBack(h: Head, stream: string, max: nat)
    requires HeadOk(h) && h.lines == [] && |stream| <= max
    requires stream == RequestLine(h, h.target) + "\r\n" + "\r\n"
    ensures HeadOf(stream, max) == Ok(Request(h, ""))
  {
    var line := RequestLine(h, h.target);
    RequestLineReadsBack(h, h.target, []);
    RenderOne(line);
    assert [line] + [] == [line];
    assert Render([line] + []) + "\r\n" + "" == stream;
    HeadReadsBack(line, [], [], "", max);
  }

  lemma OddIsOk()
    ensures HeadOk(ODD)
  {
  }

  lemma OddText(stream: string)
    requires stream == "GET http://h\r HTTP/1.1\r\n\r\n"
    ensures stream == RequestLine(ODD, ODD.target) + "\r\n" + "\r\n"
  {
  }

  lemma OddRequestIsRead(stream: string)
    requires stream == "GET http://h\r HTTP/1.1\r\n\r\n"
    ensures HeadOf(stream, MAX) == Ok(Request(ODD, "")) && HeadOk(ODD)
  {
    OddIsOk();
    OddText(stream);
    BareHeadReadsBack(ODD, stream, MAX);
  }

  lemma BareHostIsSplit(rest: string)
    requires rest != "" && NoPathStart(rest) && '@' !in rest
    ensures SplitRest(rest) == Some(Url(rest, "/"))
  {
    assert "" + rest + "" == rest;
    SpelledIsSplit(rest, "", rest, "");
  }

  lemma OddHostIsChomped()
    ensures Chomp("h\r") == "h"
  {
    ChompEnd("h", "\r");
    assert "h" + "\r" == "h\r";
  }

  lemma OddTargetIsSplit()
    ensures SplitProxyURL(ODD.target) == Some(Url("h\r", "/"))
  {
    var rest := "h\r";
    BareHostIsSplit(rest);
    SchemeIsCut(ODD.target, rest);
  }

  lemma SchemeIsCut(target: string, rest: string)
    requires target == SCHEME + rest && rest != ""
    ensures SplitProxyURL(target) == SplitRest(rest)
  {
    assert target[|SCHEME|..] == rest && target[..|SCHEME|] == SCHEME;
  }

  /**
   * Where forwarding again does not give the same bytes: a target ends in a carriage return and there is no Host line.
   * The forwarded text t is read as h', and whatever authority h' is forwarded with, the result is not t.
   */
  lemma CarriageReturnInTarget(stream: string, other: string)
    requires stream == "GET http://h\r HTTP/1.1\r\n\r\n"
    ensures HeadOf(stream, MAX) == Ok(Request(ODD, "")) && SplitProxyURL(ODD.target) == Some(Url("h\r", "/"))
    ensures var t := ForwardOf(ODD, "/", "h\r");
      |t| <= MAX && HeadOf(t, MAX).Ok? && ForwardOf(HeadOf(t, MAX).value.head, "/", other) != t
  {
    OddRequestIsRead(stream);
    OddTargetIsSplit();
    OddHostIsChomped();
    OddForwardIsShort();
    var t := ForwardOf(ODD, "/", "h\r");
    ForwardReadsBack(ODD, "/", "h\r", "", MAX);
    assert t + "" == t;
    ForwardAgain(ODD, "/", "h\r", other);
  }

  lemma OddForwardIsShort()
    ensures |ForwardOf(ODD, "/", "h\r")| <= MAX
  {
    RenderLength(RequestLine(ODD, "/"), [], HostLine(false, "h\r"), CloseLine(false));
    AddedLines(false, false, "h\r");
  }
}
