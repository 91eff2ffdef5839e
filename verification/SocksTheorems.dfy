/** What the SOCKS5 conversation guarantees. */
module SocksTheorems {
  import opened Basics
  import opened Text
  import opened Socks

  // ---------------------------------------------------------------- encodings

  predicate Short(s: string) {
    |s| < 256
  }

  function LengthText(s: string): string
    requires Short(s)
  {
    [B(|s|)] + s
  }

  predicate AddressFits(a: Address) {
    match a
    case IPv4(b) => |b| == 4
    case IPv6(b) => |b| == 16
    case Domain(name) => Short(name)
  }

  function AddressKind(a: Address): char {
    match a case IPv4(_) => B(1) case IPv6(_) => B(4) case Domain(_) => B(3)
  }

  function AddressText(a: Address): string
    requires AddressFits(a)
  {
    match a case IPv4(b) => b case IPv6(b) => b case Domain(name) => LengthText(name)
  }

  /** Two bytes, the more significant first. */
  function PortText(port: nat): string
    requires port < 65536
  {
    [B(port / 256), B(port % 256)]
  }

  /** A request as section 4 of RFC 1928 lays it out. */
  function RequestText(command: char, reserved: char, a: Address, port: nat): string
    requires AddressFits(a) && port < 65536
  {
    [B(5), command, reserved, AddressKind(a)] + AddressText(a) + PortText(port)
  }

  /** The sub-negotiation of section 2 of RFC 1929. */
  function AuthText(user: string, pass: string): string
    requires Short(user) && Short(pass)
  {
    [B(1)] + LengthText(user) + LengthText(pass)
  }

  function MethodsText(version: char, methods: string): string
    requires Short(methods)
  {
    [version] + LengthText(methods)
  }

  // ---------------------------------------------------------------- parsing inverts encoding

  lemma FirstBytesBack(text: string, rest: string)
    ensures FirstBytes(text + rest, |text|) == Some(Field(text, rest))
  {
    assert (text + rest)[..|text|] == text && (text + rest)[|text|..] == rest;
  }

  lemma LengthFieldBack(text: string, rest: string)
    requires Short(text)
    ensures LengthField(LengthText(text) + rest) == Some(Field(text, rest))
  {
    assert (LengthText(text) + rest)[1..] == text + rest;
    FirstBytesBack(text, rest);
  }

  /** A field is read exactly when it was written. */
  lemma LengthFieldIs(stream: string, text: string, rest: string)
    requires forall i :: 0 <= i < |stream| ==> stream[i] < '\U{100}'
    ensures LengthField(stream) == Some(Field(text, rest)) <==> Short(text) && stream == LengthText(text) + rest
  {
    if LengthField(stream) == Some(Field(text, rest)) {
      assert stream == [stream[0]] + (text + rest);
      assert |text| == stream[0] as nat;
    }
    if Short(text) && stream == LengthText(text) + rest { LengthFieldBack(text, rest); }
  }

  lemma AddressBack(a: Address, rest: string)
    requires AddressFits(a)
    ensures AddressOf(AddressKind(a), AddressText(a) + rest) == Ok(AddressField(a, rest))
  {
    match a
    case IPv4(b) => FirstBytesBack(b, rest);
    case IPv6(b) => FirstBytesBack(b, rest);
    case Domain(name) => LengthFieldBack(name, rest);
  }

  lemma PortBack(port: nat)
    requires port < 65536
    ensures PortOf(PortText(port)) == port
  {
  }

  /** Reading a written request gives it back and consumes exactly its bytes, for all three kinds of address. */
  lemma RequestReadsBack(command: char, reserved: char, a: Address, port: nat, rest: string)
    requires AddressFits(a) && port < 65536
    ensures RequestOf(RequestText(command, reserved, a, port) + rest) == Ok(Request(command, a, port, rest))
  {
    var tail := PortText(port) + rest;
    var s := RequestText(command, reserved, a, port) + rest;
    assert s == [B(5), command, reserved, AddressKind(a)] + (AddressText(a) + tail);
    assert s[4..] == AddressText(a) + tail;
    AddressBack(a, tail);
    FirstBytesBack(PortText(port), rest);
    PortBack(port);
  }

  predicate Bytes(s: string) {
    forall i :: 0 <= i < |s| ==> s[i] < '\U{100}'
  }

  lemma AddressIsWritten(kind: char, stream: string)
    requires Bytes(stream)
    ensures var r := AddressOf(kind, stream);
      r.Ok? ==> AddressFits(r.value.address) && kind == AddressKind(r.value.address)
                && stream == AddressText(r.value.address) + r.value.rest
  {
    var r := AddressOf(kind, stream);
    if r.Ok? && kind == B(3) {
      LengthFieldIs(stream, r.value.address.name, r.value.rest);
    }
  }

  lemma PortIsWritten(two: string)
    requires |two| == 2 && Bytes(two)
    ensures PortOf(two) < 65536 && PortText(PortOf(two)) == two
  {
    var a, b := two[0] as nat, two[1] as nat;
    assert (a * 256 + b) / 256 == a && (a * 256 + b) % 256 == b;
  }

  lemma RequestPieces(stream: string, middle: string, two: string, rest: string)
    requires |stream| >= 4 && stream[4..] == middle + (two + rest)
    ensures stream == [stream[0], stream[1], stream[2], stream[3]] + middle + two + rest
  {
    assert stream == [stream[0], stream[1], stream[2], stream[3]] + stream[4..];
  }

  /** Whatever is read as a request was written as that request: nothing else is accepted. */
  lemma RequestIsWritten(stream: string)
    requires Bytes(stream) && RequestOf(stream).Ok?
    ensures var q := RequestOf(stream).value;
      AddressFits(q.address) && q.port < 65536
          && stream == RequestText(q.command, stream[2], q.address, q.port) + q.rest
  {
    AddressIsWritten(stream[3], stream[4..]);
    var a := AddressOf(stream[3], stream[4..]).value;
    var two, rest := a.rest[..2], a.rest[2..];
    assert Bytes(two) by { assert forall i :: 0 <= i < 2 ==> two[i] in stream[4..]; }
    PortIsWritten(two);
    assert a.rest == two + rest;
    RequestPieces(stream, AddressText(a.address), two, rest);
  }

  lemma AuthBack(s: Setup, user: string, pass: string, rest: string)
    requires Short(user) && Short(pass)
    ensures AuthOf(s, AuthText(user, pass) + rest)
            == if user == s.user && pass == s.pass then Granted(rest) else Refused
  {
    var t := AuthText(user, pass) + rest;
    assert t[1..] == LengthText(user) + (LengthText(pass) + rest);
    LengthFieldBack(user, LengthText(pass) + rest);
    LengthFieldBack(pass, rest);
  }

  lemma GrantedText(stream: string, user: string, middle: string, pass: string, rest: string)
    requires Bytes(stream) && stream != "" && LengthField(stream[1..]) == Some(Field(user, middle))
    requires LengthField(middle) == Some(Field(pass, rest))
    ensures Short(user) && Short(pass) && stream == [stream[0]] + LengthText(user) + LengthText(pass) + rest
  {
    LengthFieldIs(stream[1..], user, middle);
    assert Bytes(middle) by { assert middle == stream[1..][|LengthText(user)|..]; }
    LengthFieldIs(middle, pass, rest);
    assert stream == [stream[0]] + (LengthText(user) + (LengthText(pass) + rest));
  }

  /** Authentication is granted exactly to the sub-negotiation that carries the configured user and password. */
  lemma GrantedIsWritten(s: Setup, stream: string, rest: string)
    requires Bytes(stream)
    ensures AuthOf(s, stream) == Granted(rest)
            <==> Short(s.user) && Short(s.pass) && stream == AuthText(s.user, s.pass) + rest
  {
    if AuthOf(s, stream) == Granted(rest) {
      GrantedText(stream, s.user, LengthField(stream[1..]).value.rest, s.pass, rest);
    }
    if Short(s.user) && Short(s.pass) && stream == AuthText(s.user, s.pass) + rest {
      AuthBack(s, s.user, s.pass, rest);
    }
  }

  lemma MethodsBack(version: char, methods: string, rest: string)
    requires Short(methods)
    ensures Methods(MethodsText(version, methods) + rest) == Some(Field(methods, rest))
  {
    assert (MethodsText(version, methods) + rest)[1..] == LengthText(methods) + rest;
    LengthFieldBack(methods, rest);
  }

  lemma MethodsAreWritten(stream: string)
    requires Bytes(stream) && Methods(stream).Some?
    ensures var m := Methods(stream).value; Short(m.text) && stream == MethodsText(stream[0], m.text) + m.rest
  {
    var m := Methods(stream).value;
    LengthFieldIs(stream[1..], m.text, m.rest);
    assert stream == [stream[0]] + stream[1..];
  }

  // ---------------------------------------------------------------- the gate

  /** The bytes that precede the request: the methods offered, and the credentials where they are configured. */
  predicate Opens(s: Setup, opening: string, methods: string) {
    && Short(methods) && B(MethodFor(s)) in methods && opening != ""
    && (if s.user == "" then opening == MethodsText(opening[0], methods)
        else Short(s.user) && Short(s.pass) && opening == MethodsText(opening[0], methods) + AuthText(s.user, s.pass))
  }

  /** How the conversation gets past the greeting. */
  lemma GreetingPassed(s: Setup, w: World, stream: string) returns (m: Field, rest: string)
    requires GreetingOf(s, w, stream).rest.Some?
    ensures Methods(stream) == Some(m) && B(MethodFor(s)) in m.text && GreetingOf(s, w, stream).rest == Some(rest)
    ensures if s.user == "" then rest == m.rest else AuthOf(s, m.rest) == Granted(rest)
  {
    m, rest := Methods(stream).value, GreetingOf(s, w, stream).rest.value;
  }

  lemma OpeningText(s: Setup, stream: string, m: Field, rest: string) returns (opening: string)
    requires Bytes(stream) && stream != "" && Short(m.text) && stream == MethodsText(stream[0], m.text) + m.rest
    requires B(MethodFor(s)) in m.text
    requires if s.user == "" then rest == m.rest else AuthOf(s, m.rest) == Granted(rest)
    ensures Opens(s, opening, m.text) && stream == opening + rest
  {
    var first := MethodsText(stream[0], m.text);
    opening := first;
    if s.user != "" {
      assert Bytes(m.rest) by { assert m.rest == stream[|first|..]; }
      GrantedIsWritten(s, m.rest, rest);
      opening := first + AuthText(s.user, s.pass);
      assert first + AuthText(s.user, s.pass) + rest == first + (AuthText(s.user, s.pass) + rest);
    }
  }

  /** The conversation gets past the greeting only by the right opening, credentials included. */
  lemma OnlyTheRightOpening(s: Setup, w: World, stream: string) returns (opening: string, methods: string)
    requires Bytes(stream) && GreetingOf(s, w, stream).rest.Some?
    ensures Opens(s, opening, methods) && stream == opening + GreetingOf(s, w, stream).rest.value
  {
    var m, rest := GreetingPassed(s, w, stream);
    MethodsAreWritten(stream);
    opening := OpeningText(s, stream, m, rest);
    methods := m.text;
  }

  /** And the right opening does get past it, with the whole rest of the stream. */
  lemma TheRightOpeningPasses(s: Setup, w: World, opening: string, methods: string, rest: string)
    requires Opens(s, opening, methods) && w.alive > 0
    ensures GreetingOf(s, w, opening + rest)
            == Greeting(if w.alive == 1 && s.user != "" then [Choice(2)] else Welcome(s), Some(rest))
  {
    if s.user == "" {
      MethodIsChosen(s, w, opening[0], methods, rest);
    } else {
      var auth := AuthText(s.user, s.pass) + rest;
      assert opening + rest == MethodsText(opening[0], methods) + auth;
      MethodIsChosen(s, w, opening[0], methods, auth);
      AuthIsGranted(s, w, [Choice(2)], rest);
    }
  }

  lemma MethodIsChosen(s: Setup, w: World, version: char, methods: string, rest: string)
    requires Short(methods) && B(MethodFor(s)) in methods && w.alive > 0
    ensures ChoiceStage(s, w, MethodsText(version, methods) + rest) == Greeting([Choice(MethodFor(s))], Some(rest))
  {
    MethodsBack(version, methods, rest);
  }

  lemma AuthIsGranted(s: Setup, w: World, sent: seq<string>, rest: string)
    requires Short(s.user) && Short(s.pass)
    ensures AuthStage(s, w, sent, AuthText(s.user, s.pass) + rest) == Greeting(Send(w, sent, Status(0)), Some(rest))
  {
    AuthBack(s, s.user, s.pass, rest);
  }

  /** How a target comes to be dialled. */
  lemma DialReached(s: Setup, w: World, stream: string) returns (text: string, q: Request)
    requires RunOf(s, w, stream).dialled.Some?
    ensures GreetingOf(s, w, stream).rest == Some(text) && RequestOf(text) == Ok(q) && q.command == B(1)
    ensures RunOf(s, w, stream).dialled == Some(TargetOf(s, q)) && RelayedFrom(s, w, stream) == Some(q.rest)
  {
    text := GreetingOf(s, w, stream).rest.value;
    q := RequestOf(text).value;
  }

  /**
   * Nothing is dialled unless the client's bytes are the right opening - with the configured user and password, where
   * they are configured - and then a CONNECT request; and what is dialled is the address and port of that request.
   */
  lemma DialIsEarned(s: Setup, w: World, stream: string)
    returns (opening: string, methods: string, reserved: char, q: Request)
    requires Bytes(stream) && RunOf(s, w, stream).dialled.Some?
    ensures Opens(s, opening, methods) && AddressFits(q.address) && q.port < 65536
    ensures stream == opening + (RequestText(B(1), reserved, q.address, q.port) + q.rest)
    ensures RunOf(s, w, stream).dialled == Some(TargetOf(s, q)) && RelayedFrom(s, w, stream) == Some(q.rest)
  {
    var text;
    text, q := DialReached(s, w, stream);
    opening, methods := OnlyTheRightOpening(s, w, stream);
    assert Bytes(text) by { assert text == stream[|opening|..]; }
    RequestIsWritten(text);
    reserved := text[2];
  }

  // ---------------------------------------------------------------- a conversation that goes well

  lemma RequestServed(s: Setup, w: World, stream: string, sent: seq<string>, text: string, q: Request)
    requires GreetingOf(s, w, stream) == Greeting(sent, Some(text)) && |sent| < w.alive
    requires RequestOf(text) == Ok(q) && q.command == B(1) && w.dial(TargetOf(s, q)) == None
    ensures RunOf(s, w, stream) == Run(sent + [ReplyMsg(0)], Some(TargetOf(s, q)), true)
    ensures RelayedFrom(s, w, stream) == Some(q.rest)
  {
  }

  /** The answers to a right opening. */
  function Welcome(s: Setup): seq<string> {
    if s.user == "" then [Choice(0)] else [Choice(2), Status(0)]
  }

  /**
   * A client that opens rightly and asks for a reachable address is connected to it: the answers are those of the
   * protocol, and every byte after the request is left for the relay.
   */
  lemma Conversation(s: Setup, w: World, opening: string, methods: string, reserved: char, q: Request, stream: string)
    requires Opens(s, opening, methods) && AddressFits(q.address) && q.port < 65536 && q.command == B(1)
    requires stream == opening + (RequestText(B(1), reserved, q.address, q.port) + q.rest)
    requires w.alive >= 3 && w.dial(TargetOf(s, q)) == None
    ensures RunOf(s, w, stream) == Run(Welcome(s) + [ReplyMsg(0)], Some(TargetOf(s, q)), true)
    ensures RelayedFrom(s, w, stream) == Some(q.rest)
  {
    var text := RequestText(B(1), reserved, q.address, q.port) + q.rest;
    TheRightOpeningPasses(s, w, opening, methods, text);
    RequestReadsBack(B(1), reserved, q.address, q.port, q.rest);
    RequestServed(s, w, stream, Welcome(s), text, q);
  }

  // ---------------------------------------------------------------- the answers

  predicate IsReply(msg: string) {
    |msg| == 10
  }

  predicate NoReplies(sent: seq<string>) {
    forall i :: 0 <= i < |sent| ==> !IsReply(sent[i])
  }

  lemma GreetingHasNoReply(s: Setup, w: World, stream: string)
    ensures var g := GreetingOf(s, w, stream); NoReplies(g.sent) && |g.sent| <= 2 && |g.sent| <= w.alive
  {
    if Methods(stream).Some? && s.user != "" {
      match AuthOf(s, Methods(stream).value.rest)
      case Silent =>
      case Refused =>
      case Granted(rest) =>
    }
  }

  predicate Replied(w: World, before: seq<string>, r: Run, code: nat) {
    code < 256 && r.sent == before + [ReplyMsg(code)]
        && (code == 0 ==> r.dialled.Some? && w.dial(r.dialled.value) == None)
  }

  /** What the request stage adds: at most one reply, saying success only when the target was reached. */
  ghost predicate Answered(w: World, before: seq<string>, r: Run) {
    && (r.sent == before || exists code :: Replied(w, before, r, code))
    && (r.relaying ==> r.sent == before + [ReplyMsg(0)])
    && |r.sent| <= w.alive
  }

  lemma RequestIsAnswered(s: Setup, w: World, sent: seq<string>, text: string)
    requires |sent| <= w.alive
    ensures Answered(w, sent, RunRequest(s, w, sent, text))
  {
    var r := RunRequest(s, w, sent, text);
    if r.sent != sent { assert Replied(w, sent, r, Last(r.sent)[1] as nat); }
  }

  /** At most one reply is sent, it is the last thing sent, and it says success only when the target was reached. */
  lemma OneFinalReply(s: Setup, w: World, stream: string) returns (before: seq<string>)
    ensures NoReplies(before) && |before| <= 2 && Answered(w, before, RunOf(s, w, stream))
  {
    var g := GreetingOf(s, w, stream);
    before := g.sent;
    GreetingHasNoReply(s, w, stream);
    if g.rest.Some? { RequestIsAnswered(s, w, g.sent, g.rest.value); }
  }

  /** Whoever is relayed has been welcomed and told of the success, and nothing else. */
  lemma RelayedAnswers(s: Setup, w: World, stream: string)
    requires RunOf(s, w, stream).relaying
    ensures RunOf(s, w, stream).sent == Welcome(s) + [ReplyMsg(0)]
  {
    WelcomedIfAlive(s, w, stream);
    var g := GreetingOf(s, w, stream);
    RequestIsAnswered(s, w, g.sent, g.rest.value);
  }

  lemma WelcomedIfAlive(s: Setup, w: World, stream: string)
    requires GreetingOf(s, w, stream).rest.Some? && |GreetingOf(s, w, stream).sent| < w.alive
    ensures GreetingOf(s, w, stream).sent == Welcome(s)
  {
  }
}
