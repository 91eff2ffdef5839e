/** One client connection from its first byte to the relay: which bytes reach the target. */
module Connection {
  import opened Basics
  import opened Text
  import BufReader
  import HttpHead
  import HttpServe
  import Socks
  import SocksTheorems
  import Relay

  /** What the proxy port is configured with and how the outside behaves. */
  datatype Port = Port(setup: Socks.Setup, decode: HttpServe.Decode, dial: Socks.Dial, toClient: HttpServe.Link,
                       toTarget: HttpServe.Link)

  function Reachable(p: Port): string -> bool {
    (t: string) => p.dial(t).None?
  }

  function Wanted(p: Port): HttpServe.Credentials {
    HttpServe.Credentials(p.setup.user, p.setup.pass)
  }

  /** What is written to the target and to the client before the relay, and what of the client's stream is left. */
  datatype Handover = Handover(sent: string, answered: string, rest: string)

  function HttpHandover(p: Port, stream: string): Option<Handover> {
    match HttpHead.HeadOf(stream, HttpHead.MAX)
    case Err(_) => None
    case Ok(q) =>
      var action := HttpServe.ActionFor(p.decode, Wanted(p), q.head);
      match HttpServe.EndingOf(action, Reachable(p), p.toClient, p.toTarget)
      case Relaying(_, answer, text) => Some(Handover(text, answer, q.rest))
      case _ => None
  }

  function SocksHandover(p: Port, alive: nat, stream: string): Option<Handover> {
    var w := Socks.World(alive, p.dial);
    var r := Socks.RunOf(p.setup, w, stream);
    if !r.relaying then None
    else
      var rest :- Socks.RelayedFrom(p.setup, w, stream);
      Some(Handover("", Concat(r.sent), rest))
  }

  /** The first byte decides the protocol: 5 is SOCKS5, 4 is turned away, anything else is HTTP. */
  function HandoverOf(p: Port, alive: nat, stream: string): Option<Handover> {
    if stream == "" || stream[0] == '\U{4}' then None
    else if stream[0] == '\U{5}' then SocksHandover(p, alive, stream)
    else HttpHandover(p, stream)
  }

  /** f is what Handle makes of the client's stream, and `target` what the target will deliver. */
  predicate FlowOf(f: Relay.Flow, h: Handover, target: string) {
    f.sent == h.sent && f.answered == h.answered && f.early + f.client == h.rest && f.target == target
  }

  /**
   * handle, up to the relay. The target will deliver `target`. What is handed over depends on the client's stream
   * alone: the bytes already buffered and those still to arrive make up exactly what the protocol left.
   */
  method Handle(c: Socks.Client, p: Port, target: string) returns (f: Option<Relay.Flow>)
    requires c.br.Valid() && c.sent == []
    modifies c, c.br
    ensures match HandoverOf(p, c.alive, old(c.br.Rest()))
            case None => f == None
            case Some(h) => f.Some? && FlowOf(f.value, h, target)
  {
    f := None;
    var first := c.br.Peek();
    if first.None? || first.value == '\U{4}' { return; }
    var sent, answered := "", "";
    if first.value == '\U{5}' {
      var dialled, relaying := c.Serve(p.setup, p.dial);
      if !relaying { return; }
      answered := Concat(c.sent);
    } else {
      var r, dialled := HttpServe.ServeHTTP(p.decode, Wanted(p), c.br, Reachable(p), p.toClient, p.toTarget);
      if !r.Relaying? { return; }
      sent, answered := r.toTarget, r.toClient;
    }
    var segments := c.br.segments;
    var early := c.br.Drain();
    f := Some(Relay.Flow(sent, answered, early, Concat(segments), target));
  }

  /**
   * End to end: whatever the segments in which the client's stream arrives, and however the relay's steps interleave,
   * the target is only ever given a beginning of the forwarded head (if any) and everything the client sent after the
   * handshake; and all of it once that direction ends without error.
   */
  lemma TargetGetsTheStream(p: Port, alive: nat, stream: string, f: Relay.Flow, target: string, run: seq<Relay.Action>)
    requires HandoverOf(p, alive, stream).Some? && Relay.After(f, run).Some?
    requires FlowOf(f, HandoverOf(p, alive, stream).value, target)
    ensures var h, s := HandoverOf(p, alive, stream).value, Relay.After(f, run).value;
      && Relay.ToTarget(f, s) <= h.sent + h.rest
      && (s.up.status == Relay.Closed(true) ==> Relay.ToTarget(f, s) == h.sent + h.rest)
  {
    Relay.OnlyBeginnings(f, run);
    Relay.CleanEndIsComplete(f, run);
  }

  /** What a client that is relayed has been told by then. */
  function Answers(p: Port, stream: string): string {
    if stream != "" && stream[0] == '\U{5}' then Concat(SocksTheorems.Welcome(p.setup) + [Socks.ReplyMsg(0)])
    else match HttpHead.HeadOf(stream, HttpHead.MAX)
      case Ok(q) => if EqualFold(q.head.method_, "CONNECT") then HttpServe.ESTABLISHED else ""
      case Err(_) => ""
  }

  /** The way back: the client is only ever given its handshake answers and a beginning of what the target sends. */
  lemma ClientGetsTheStream(p: Port, alive: nat, stream: string, f: Relay.Flow, target: string, run: seq<Relay.Action>)
    requires HandoverOf(p, alive, stream).Some? && Relay.After(f, run).Some?
    requires FlowOf(f, HandoverOf(p, alive, stream).value, target)
    ensures var s := Relay.After(f, run).value;
      && Relay.ToClient(f, s) <= Answers(p, stream) + target
      && (s.down.status == Relay.Closed(true) ==> Relay.ToClient(f, s) == Answers(p, stream) + target)
  {
    AnswersAre(p, alive, stream);
    Relay.OnlyBeginnings(f, run);
    Relay.CleanEndIsComplete(f, run);
  }

  lemma AnswersAre(p: Port, alive: nat, stream: string)
    requires HandoverOf(p, alive, stream).Some?
    ensures HandoverOf(p, alive, stream).value.answered == Answers(p, stream)
  {
    if stream[0] == '\U{5}' {
      SocksTheorems.RelayedAnswers(p.setup, Socks.World(alive, p.dial), stream);
    }
  }
}
