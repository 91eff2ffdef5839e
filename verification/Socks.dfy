/** The SOCKS5 side of a proxy port (RFC 1928, RFC 1929). A character is a byte. */
module Socks {
  import opened Basics
  import opened Text
  import opened BufReader

  /** net.IP.String on 4 or 16 bytes. */
  type IPString = string -> string

  datatype Setup = Setup(ipString: IPString, user: string, pass: string)

  function B(n: nat): char
    requires n < 256
  {
    n as char
  }

  // ---------------------------------------------------------------- what a stream begins with

  datatype Field = Field(text: string, rest: string)

  /** The first n bytes. */
  function FirstBytes(stream: string, n: nat): Option<Field> {
    if |stream| < n then None else Some(Field(stream[..n], stream[n..]))
  }

  /** A length byte and that many bytes. */
  function LengthField(stream: string): Option<Field> {
    if stream == "" then None else FirstBytes(stream[1..], stream[0] as nat)
  }

  /** The method list; the version byte was looked at before. */
  function Methods(stream: string): Option<Field> {
    if stream == "" then None else LengthField(stream[1..])
  }

  datatype AuthResult = Silent | Refused | Granted(rest: string)

  function AuthOf(s: Setup, stream: string): AuthResult {
    if stream == "" || stream[0] != B(1) then Silent
    else match LengthField(stream[1..])
      case None => Refused
      case Some(u) => match LengthField(u.rest)
        case None => Refused
        case Some(p) => if u.text == s.user && p.text == s.pass then Granted(p.rest) else Refused
  }

  datatype Address = IPv4(bytes: string) | IPv6(bytes: string) | Domain(name: string)

  datatype Request = Request(command: char, address: Address, port: nat, rest: string)

  datatype RequestError = Broken | UnsupportedAddress

  datatype AddressField = AddressField(address: Address, rest: string)

  function AddressOf(kind: char, stream: string): Result<AddressField, RequestError> {
    if kind == B(1) then
      match FirstBytes(stream, 4) case None => Err(Broken) case Some(f) => Ok(AddressField(IPv4(f.text), f.rest))
    else if kind == B(4) then
      match FirstBytes(stream, 16) case None => Err(Broken) case Some(f) => Ok(AddressField(IPv6(f.text), f.rest))
    else if kind == B(3) then
      match LengthField(stream) case None => Err(Broken) case Some(f) => Ok(AddressField(Domain(f.text), f.rest))
    else Err(UnsupportedAddress)
  }

  function PortOf(two: string): nat
    requires |two| == 2
  {
    two[0] as nat * 256 + two[1] as nat
  }

  function RequestOf(stream: string): Result<Request, RequestError> {
    if |stream| < 4 || stream[0] != B(5) then Err(Broken)
    else
      var a :- AddressOf(stream[3], stream[4..]);
      match FirstBytes(a.rest, 2)
      case None => Err(Broken)
      case Some(p) => Ok(Request(stream[1], a.address, PortOf(p.text), p.rest))
  }

  function HostOf(s: Setup, a: Address): string {
    match a
    case IPv4(b) => s.ipString(b)
    case IPv6(b) => s.ipString(b)
    case Domain(name) => name
  }

  function TargetOf(s: Setup, q: Request): string {
    JoinHostPort(HostOf(s, q.address), Itoa(q.port))
  }

  // ---------------------------------------------------------------- a whole conversation

  /** What the client was sent, write by write, the target dialled, and whether the relay was entered. */
  datatype Run = Run(sent: seq<string>, dialled: Option<string>, relaying: bool)

  /** Why a dial failed: the last server refused the channel, or something else. */
  datatype DialError = Other | ChannelRefused(prohibited: bool, message: string)

  type Dial = string -> Option<DialError>

  predicate Contains(s: string, sub: string) {
    exists i :: 0 <= i <= |s| && HasPrefix(s[i..], sub)
  }

  function SocksErrorCode(e: DialError): (code: nat)
    ensures code < 256 && code != 0
  {
    match e
    case Other => 1
    case ChannelRefused(prohibited, message) =>
      if prohibited then 2 else if Contains(ToLower(message), "refused") then 5 else 4
  }

  /** The outside: how many writes get through, and how each dial ends. */
  datatype World = World(alive: nat, dial: Dial)

  function Send(w: World, sent: seq<string>, msg: string): seq<string> {
    if |sent| < w.alive then sent + [msg] else sent
  }

  function ReplyMsg(code: nat): string
    requires code < 256
  {
    [B(5), B(code), B(0), B(1), B(0), B(0), B(0), B(0), B(0), B(0)]
  }

  function Choice(method_: nat): string
    requires method_ < 256
  {
    [B(5), B(method_)]
  }

  function Status(code: nat): string
    requires code < 256
  {
    [B(1), B(code)]
  }

  function MethodFor(s: Setup): (m: nat)
    ensures m < 256
  {
    if s.user != "" then 2 else 0
  }

  /** From the request on. */
  function RunRequest(s: Setup, w: World, sent: seq<string>, stream: string): Run {
    match RequestOf(stream)
    case Err(Broken) => Run(sent, None, false)
    case Err(UnsupportedAddress) => Run(Send(w, sent, ReplyMsg(8)), None, false)
    case Ok(q) =>
      if q.command != B(1) then Run(Send(w, sent, ReplyMsg(7)), None, false)
      else
        var t := TargetOf(s, q);
        match w.dial(t)
        case Some(e) => Run(Send(w, sent, ReplyMsg(SocksErrorCode(e))), Some(t), false)
        case None => Run(Send(w, sent, ReplyMsg(0)), Some(t), |sent| < w.alive)
  }

  /** What was sent while the method was chosen and checked, and the stream after it if that went well. */
  datatype Greeting = Greeting(sent: seq<string>, rest: Option<string>)

  function AuthStage(s: Setup, w: World, sent: seq<string>, stream: string): Greeting {
    match AuthOf(s, stream)
    case Silent => Greeting(sent, None)
    case Refused => Greeting(Send(w, sent, Status(1)), None)
    case Granted(rest) => Greeting(Send(w, sent, Status(0)), Some(rest))
  }

  function ChoiceStage(s: Setup, w: World, stream: string): Greeting {
    match Methods(stream)
    case None => Greeting([], None)
    case Some(m) =>
      if B(MethodFor(s)) !in m.text then Greeting(Send(w, [], Choice(255)), None)
      else if w.alive == 0 then Greeting([], None)
      else Greeting([Choice(MethodFor(s))], Some(m.rest))
  }

  function GreetingOf(s: Setup, w: World, stream: string): Greeting {
    var c := ChoiceStage(s, w, stream);
    if c.rest.None? || s.user == "" then c else AuthStage(s, w, c.sent, c.rest.value)
  }

  function RunOf(s: Setup, w: World, stream: string): Run {
    var g := GreetingOf(s, w, stream);
    if g.rest.None? then Run(g.sent, None, false) else RunRequest(s, w, g.sent, g.rest.value)
  }

  /** What of the stream is left for the relay. */
  function RelayedFrom(s: Setup, w: World, stream: string): Option<string> {
    var rest :- GreetingOf(s, w, stream).rest;
    match RequestOf(rest) case Ok(q) => Some(q.rest) case Err(_) => None
  }

  lemma GreetingIgnoresDial(s: Setup, w: World, w': World, stream: string)
    requires w.alive == w'.alive
    ensures GreetingOf(s, w, stream) == GreetingOf(s, w', stream)
  {
  }

  // ---------------------------------------------------------------- serveSOCKS

  /** The client side of a connection: its stream, and what it has been sent. */
  class Client {
    const br: Reader
    var sent: seq<string>
    const alive: nat

    constructor (br: Reader, alive: nat)
      ensures this.br == br && this.alive == alive && sent == []
    {
      this.br, this.alive, this.sent := br, alive, [];
    }

    method Write(msg: string) returns (ok: bool)
      modifies this
      ensures ok <==> |old(sent)| < alive
      ensures sent == if ok then old(sent) + [msg] else old(sent)
    {
      ok := |sent| < alive;
      if ok { sent := sent + [msg]; }
    }

    /** One byte and that many more. */
    method ReadField() returns (f: Option<string>)
      requires br.Valid()
      modifies br
      ensures br.Valid()
      ensures match LengthField(old(br.Rest()))
              case None => f == None
              case Some(l) => f == Some(l.text) && br.Rest() == l.rest
    {
      var n := br.ReadByte();
      if n.None? { return None; }
      f := br.ReadFull(n.value as nat);
    }

    /** socksAuth */
    method Authenticate(s: Setup) returns (ok: bool)
      requires br.Valid()
      modifies this, br
      ensures br.Valid()
      ensures var g := AuthStage(s, World(alive, _ => None), old(sent), old(br.Rest()));
        sent == g.sent && (ok <==> g.rest.Some?) && (ok ==> br.Rest() == g.rest.value)
    {
      var ver := br.ReadByte();
      if ver.None? || ver.value != B(1) { return false; }
      var user := ReadField();
      var pass := ReadField();
      ok := user.Some? && pass.Some? && user.value == s.user && pass.value == s.pass;
      var _ := Write(Status(if ok then 0 else 1));
    }

    /** The address of a request. */
    method ReadAddress(kind: char) returns (a: Result<Address, RequestError>)
      requires br.Valid()
      modifies br
      ensures br.Valid()
      ensures match AddressOf(kind, old(br.Rest()))
              case Err(e) => a == Err(e)
              case Ok(f) => a == Ok(f.address) && br.Rest() == f.rest
    {
      if kind == B(1) || kind == B(4) {
        var ip := br.ReadFull(if kind == B(4) then 16 else 4);
        if ip.None? { return Err(Broken); }
        return Ok(if kind == B(4) then IPv6(ip.value) else IPv4(ip.value));
      }
      if kind == B(3) {
        var name := ReadField();
        if name.None? { return Err(Broken); }
        return Ok(Domain(name.value));
      }
      return Err(UnsupportedAddress);
    }

    method ReadRequest() returns (q: Result<Request, RequestError>)
      requires br.Valid()
      modifies br
      ensures br.Valid()
      ensures match RequestOf(old(br.Rest()))
              case Err(e) => q == Err(e)
              case Ok(r) => q == Ok(r.(rest := "")) && br.Rest() == r.rest
    {
      var req := br.ReadFull(4);
      if req.None? || req.value[0] != B(5) { return Err(Broken); }
      var a := ReadAddress(req.value[3]);
      if a.Err? { return Err(a.error); }
      var port := br.ReadFull(2);
      if port.None? { return Err(Broken); }
      q := Ok(Request(req.value[1], a.value, PortOf(port.value), ""));
    }

    /** The choice of the authentication method. */
    method Choose(s: Setup) returns (ok: bool)
      requires br.Valid() && sent == []
      modifies this, br
      ensures br.Valid()
      ensures var g := ChoiceStage(s, World(alive, _ => None), old(br.Rest()));
        sent == g.sent && (ok <==> g.rest.Some?) && (ok ==> br.Rest() == g.rest.value)
    {
      var ver := br.ReadByte();
      if ver.None? { return false; }
      var methods := ReadField();
      if methods.None? { return false; }
      if B(MethodFor(s)) !in methods.value {
        var _ := Write(Choice(255));
        return false;
      }
      ok := Write(Choice(MethodFor(s)));
    }

    /** And the authentication. */
    method Greet(s: Setup) returns (ok: bool)
      requires br.Valid() && sent == []
      modifies this, br
      ensures br.Valid()
      ensures var g := GreetingOf(s, World(alive, _ => None), old(br.Rest()));
        sent == g.sent && (ok <==> g.rest.Some?) && (ok ==> br.Rest() == g.rest.value)
    {
      ok := Choose(s);
      if ok && s.user != "" { ok := Authenticate(s); }
    }

    /** serveSOCKS; `relaying` says that the relay is entered, with br right after the request. */
    method Serve(s: Setup, dial: Dial) returns (dialled: Option<string>, relaying: bool)
      requires br.Valid() && sent == []
      modifies this, br
      ensures br.Valid()
      ensures Run(sent, dialled, relaying) == RunOf(s, World(alive, dial), old(br.Rest()))
      ensures relaying ==> Some(br.Rest()) == RelayedFrom(s, World(alive, dial), old(br.Rest()))
    {
      GreetingIgnoresDial(s, World(alive, _ => None), World(alive, dial), br.Rest());
      var ok := Greet(s);
      if !ok { return None, false; }
      dialled, relaying := ServeRequest(s, dial);
    }

    /** The rest of serveSOCKS. */
    method ServeRequest(s: Setup, dial: Dial) returns (dialled: Option<string>, relaying: bool)
      requires br.Valid()
      modifies this, br
      ensures br.Valid()
      ensures Run(sent, dialled, relaying) == RunRequest(s, World(alive, dial), old(sent), old(br.Rest()))
      ensures relaying ==> RequestOf(old(br.Rest())).Ok? && br.Rest() == RequestOf(old(br.Rest())).value.rest
    {
      dialled, relaying := None, false;
      var q := ReadRequest();
      if q == Err(UnsupportedAddress) {
        var _ := Write(ReplyMsg(8));
        return;
      }
      if q.Err? { return; }
      if q.value.command != B(1) {
        var _ := Write(ReplyMsg(7));
        return;
      }
      var target := TargetOf(s, q.value);
      dialled := Some(target);
      var failed := dial(target);
      if failed.Some? {
        var _ := Write(ReplyMsg(SocksErrorCode(failed.value)));
        return;
      }
      relaying := Write(ReplyMsg(0));
    }
  }
}
