/**
 * The tunnel of tunnel.go as an interleaved state machine.  Every lock section,
 * every channel operation and every arm of a select is one step of one actor:
 * the start-up call, the maintain goroutine, the accept loop, any number of
 * connection handlers (each with its request in waitClient/dial), and any
 * number of Stop and Reconnect callers.
 *
 * The broadcast channel `changed` is named by its position in the published
 * history: the current channel is |hist| - 1, and publishing closes it and
 * makes |hist| the next one, so a channel is closed exactly when a later
 * status exists (TunnelRecord relates this to a real close-and-replace).
 */
module TunnelModel {
  import opened Basics

  type Client = nat
  type ConnId = nat

  const SECOND: nat := 1000

  datatype Phase = Connecting | Connected | Failed | Stopped

  datatype Error = Error(text: string)

  const ERR_STOPPED := Error("stopped")
  const ERR_TIMEOUT := Error("timeout")

  /** What setState publishes under the lock. */
  datatype Status = Status(phase: Phase, err: Option<Error>, client: Option<Client>)

  function ErrText(e: Option<Error>): string {
    match e
    case None => ""
    case Some(x) => x.text
  }

  predicate Failing(st: Status) {
    st.phase == Failed || (st.phase == Connecting && st.err.Some?)
  }

  /** The status setState stores: a retry keeps the error of the failure it follows. */
  function Successor(cur: Status, phase: Phase, err: Option<Error>, client: Option<Client>): Status {
    var kept := if phase == Connecting && err.None? && cur.phase == Failed then cur.err else err;
    Status(phase, kept, client)
  }

  /** Whether setState calls onChange. */
  predicate Noticed(cur: Status, next: Status) {
    cur.phase != next.phase || ErrText(cur.err) != ErrText(next.err)
  }

  // ---------------------------------------------------------------- program counters

  datatype StartPc = TNew | TFlag(e: Error) | TPublish(e: Error) | TCallback | TDone

  datatype MaintPc =
    | MIdle                                        // goroutine not started
    | MCheck                                       // loop condition
    | MPublishConnecting
    | MDial(up: seq<Client>)                       // dialChain, clients opened so far
    | MUnwind(up: seq<Client>, e: Error)           // dialChain closes them after a failed hop
    | MDialed(up: seq<Client>, err: Option<Error>)
    | MAbort(up: seq<Client>)                      // cancelled while dialing: close and return
    | MPublishFailed(e: Error)
    | MWait(entered: nat)
    | MDrain(up: seq<Client>)
    | MPublishConnected(up: seq<Client>)
    | MWatch(up: seq<Client>, since: nat)
    | MUnpublish(up: seq<Client>, since: nat)
    | MClose(up: seq<Client>, since: nat)
    | MAfter(since: nat)
    | MReturn                                      // deferred wg.Done
    | MDone

  datatype ServePc = VIdle | VAccept | VSpawn(conn: ConnId) | VReturn | VDone

  /** What waitClient read under the lock. */
  datatype Snap = Snap(status: Status, chan: nat)

  /** How waitClient came to return: from the status it read, or because its context ended. */
  datatype Cause = FromStatus | ContextEnded

  // `began`, `seen` and `at` are history: the channel current when the call began,
  // when a connection attempt was last observed, and when the result was read.
  datatype HandlerPc =
    | HTrack
    | HServe
    | HSnap(attempted: bool, seen: nat, began: nat)
    | HNotify(snap: Snap, attempted: bool, seen: nat, began: nat)
    | HBlock(snap: Snap, attempted: bool, seen: nat, began: nat)
    | HReturn(client: Option<Client>, err: Option<Error>, at: nat, began: nat, cause: Cause)
    | HDialing(via: Client)
    | HReport(via: Client)
    | HRelay
    | HUntrack
    | HClose
    | HExit

  datatype StopPc = PCancel | PListener | PSweep | PWait | PPublish | PCallback | PDone

  datatype ReconnectPc = RRead | RSendReconnect | RSendRetry

  // ---------------------------------------------------------------- state

  /** Clients are numbered as dialHop creates them; chainOf[c] is the dial that opened c. */
  datatype Ledger = Ledger(chainOf: seq<nat>, closes: seq<Client>)

  /** The local variables of maintain that drive the retry delay, with counters since the last reset. */
  datatype Backoff = Backoff(delay: nat, waits: nat, timed: nat, slept: nat, dials: nat, rested: bool)

  datatype Notice = Failure | Recovery | Forgotten

  datatype Config = Config(hops: nat, maxRetryDelay: nat, stableAfter: nat)

  /** The three one-slot channels. */
  datatype Signals = Signals(retry: bool, reconnect: bool, broken: Option<Client>)

  /** Start-up, cancellation, listener, WaitGroup counter, Stop callers. */
  datatype Life = Life(start: StartPc, listenFail: bool, cancelled: bool, lnOpen: bool, wg: int,
                       stops: map<nat, StopPc>)

  /** The maintain goroutine; cb: its onChange callback is due. */
  datatype Maint = Maint(pc: MaintPc, cb: bool, led: Ledger, back: Backoff)

  /** The accept loop, the connection handlers, t.conns and the connections closed so far. */
  datatype Conns = Conns(serve: ServePc, hs: map<ConnId, HandlerPc>, tracked: set<ConnId>, closed: set<ConnId>,
                         nextId: nat)

  /** What App remembers about this tunnel and the notices it has shown. */
  datatype Notices = Notices(notified: bool, log: seq<Notice>)

  datatype State = State(hist: seq<Status>, sig: Signals, life: Life, mt: Maint, cn: Conns,
                         recs: map<nat, ReconnectPc>, now: nat, app: Notices)
  {
    /** The published status. */
    function Cur(): Status
      requires |hist| > 0
    {
      Last(hist)
    }

    /** The identity of the current broadcast channel. */
    function Chan(): nat
      requires |hist| > 0
    {
      |hist| - 1
    }
  }

  function Init(): State {
    State([Status(Connecting, None, None)], Signals(false, false, None),
          Life(TNew, false, false, false, 0, map[]),
          Maint(MIdle, false, Ledger([], []), Backoff(SECOND, 0, 0, 0, 0, false)),
          Conns(VIdle, map[], {}, {}, 0), map[], 0, Notices(false, []))
  }

  // ---------------------------------------------------------------- actions

  datatype StartAct = ListenOk | ListenFails(e: Error) | StartGo

  datatype MaintAct =
    | MGo                          // the only next step of the current program counter
    | HopUp | HopFails(e: Error)
    | WaitCancelled | WaitRetry | WaitTimer
    | WatchCancelled | WatchReconnect | WatchBroken | WatchLost | WatchBeat
    | MaintCallback

  datatype ServeAct = Accepts | AcceptFails | ServeGo

  datatype HandlerAct = HGo | Finish | CallDial | Woken | Expired | TargetUp | TargetFails | LinkFails

  datatype Act =
    | StartStep(sa: StartAct)
    | MaintStep(ma: MaintAct)
    | ServeStep(va: ServeAct)
    | HandlerStep(conn: ConnId, ha: HandlerAct)
    | StopStep(id: nat)
    | ReconnectStep(rid: nat)
    | Tick(d: nat)

  // ---------------------------------------------------------------- shared effects

  /** setState: store, close `changed`, replace it. */
  function Publish(hist: seq<Status>, phase: Phase, err: Option<Error>, client: Option<Client>): seq<Status>
    requires |hist| > 0
  {
    hist + [Successor(Last(hist), phase, err, client)]
  }

  /** Whether the last publication runs the callback. */
  predicate Announced(hist: seq<Status>)
    requires |hist| > 1
  {
    Noticed(hist[|hist| - 2], Last(hist))
  }

  /** App.onTunnelChange, reading the status st. */
  function OnChange(app: Notices, st: Status): Notices {
    match st.phase
    case Failed => if app.notified then app else Notices(true, app.log + [Failure])
    case Connected => if app.notified then Notices(false, app.log + [Recovery]) else app
    case Stopped => Notices(false, app.log + [Forgotten])
    case Connecting => app
  }

  function OpenClient(l: Ledger, dial: nat): Ledger {
    l.(chainOf := l.chainOf + [dial])
  }

  function CloseClient(l: Ledger, c: Client): Ledger {
    l.(closes := l.closes + [c])
  }

  /** The end of `wait`: the delay doubles up to the cap. */
  function EndWait(c: Config, b: Backoff): Backoff {
    b.(delay := if b.delay * 2 < c.maxRetryDelay then b.delay * 2 else c.maxRetryDelay,
       waits := b.waits + 1, rested := true)
  }

  function EndTimedWait(c: Config, b: Backoff, elapsed: nat): Backoff {
    EndWait(c, b).(timed := b.timed + 1, slept := b.slept + elapsed)
  }

  function ResetDelay(b: Backoff): Backoff {
    b.(delay := SECOND, waits := 0, timed := 0, slept := 0, rested := true)
  }

  // ---------------------------------------------------------------- steps

  function StartNext(s: State, a: StartAct): Option<State>
    requires |s.hist| > 0
  {
    match (s.life.start, a)
    case (TNew, ListenOk) =>
      Some(s.(life := s.life.(start := TDone, lnOpen := true, wg := s.life.wg + 2),
              mt := s.mt.(pc := MCheck), cn := s.cn.(serve := VAccept)))
    case (TNew, ListenFails(e)) => Some(s.(life := s.life.(start := TFlag(e))))
    case (TFlag(e), StartGo) => Some(s.(life := s.life.(start := TPublish(e), listenFail := true)))
    case (TPublish(e), StartGo) =>
      var h := Publish(s.hist, Failed, Some(e), None);
      Some(s.(hist := h, life := s.life.(start := if Announced(h) then TCallback else TDone)))
    case (TCallback, StartGo) =>
      Some(s.(app := OnChange(s.app, s.Cur()), life := s.life.(start := TDone)))
    case _ => None
  }

  function Goto(s: State, pc: MaintPc): State {
    s.(mt := s.mt.(pc := pc))
  }

  /** maintain calls setState and goes on at pc, with the callback due if something changed. */
  function MaintPublish(s: State, phase: Phase, err: Option<Error>, client: Option<Client>, pc: MaintPc): State
    requires |s.hist| > 0
  {
    var h := Publish(s.hist, phase, err, client);
    s.(hist := h, mt := s.mt.(pc := pc, cb := Announced(h)))
  }

  /** One iteration of closeClients, which works from the exit backwards. */
  function MaintClose(s: State, c: Client, pc: MaintPc): State {
    s.(mt := s.mt.(pc := pc, led := CloseClient(s.mt.led, c)))
  }

  function MaintNext(c: Config, s: State, a: MaintAct): Option<State>
    requires |s.hist| > 0
  {
    if s.mt.cb then
      if a == MaintCallback then Some(s.(app := OnChange(s.app, s.Cur()), mt := s.mt.(cb := false))) else None
    else match s.mt.pc
    case MDial(up) => DialNext(c, s, a, up)
    case MWait(entered) => WaitNext(c, s, a, entered)
    case MWatch(up, since) => WatchNext(s, a, up, since)
    case _ => if a == MGo then MaintGo(c, s) else None
  }

  /** The program counters of maintain that have one next step. */
  function MaintGo(c: Config, s: State): Option<State>
    requires |s.hist| > 0
  {
    match s.mt.pc
    case MCheck => Some(Goto(s, if s.life.cancelled then MReturn else MPublishConnecting))
    case MPublishConnecting =>
      var t := MaintPublish(s, Connecting, None, None, MDial([]));
      Some(t.(mt := t.mt.(back := t.mt.back.(dials := t.mt.back.dials + 1, rested := false))))
    case MUnwind(up, e) =>
      if |up| == 0 then Some(Goto(s, MDialed([], Some(e))))
      else Some(MaintClose(s, Last(up), MUnwind(up[..|up| - 1], e)))
    case MDialed(up, err) =>
      Some(Goto(s, if s.life.cancelled then MAbort(up)
                   else if err.Some? then MPublishFailed(err.value)
                   else MDrain(up)))
    case MAbort(up) =>
      if |up| == 0 then Some(Goto(s, MReturn))
      else Some(MaintClose(s, Last(up), MAbort(up[..|up| - 1])))
    case MPublishFailed(e) => Some(MaintPublish(s, Failed, Some(e), None, MWait(s.now)))
    case MDrain(up) => Some(Goto(s, MPublishConnected(up)).(sig := s.sig.(reconnect := false)))
    case MPublishConnected(up) =>
      if |up| == 0 then None                       // clients[len(clients)-1] would panic
      else Some(MaintPublish(s, Connected, None, Some(Last(up)), MWatch(up, s.now)))
    case MUnpublish(up, since) => Some(MaintPublish(s, Connecting, None, None, MClose(up, since)))
    case MClose(up, since) =>
      if |up| == 0 then Some(Goto(s, MAfter(since)))
      else Some(MaintClose(s, Last(up), MClose(up[..|up| - 1], since)))
    case MAfter(since) =>
      if s.life.cancelled then Some(Goto(s, MReturn))
      else if s.now >= since + c.stableAfter then Some(s.(mt := s.mt.(pc := MCheck, back := ResetDelay(s.mt.back))))
      else Some(Goto(s, MWait(s.now)))
    case MReturn => Some(Goto(s, MDone).(life := s.life.(wg := s.life.wg - 1)))
    case _ => None
  }

  /** One hop of dialChain; the chain is complete when every configured hop is up. */
  function DialNext(c: Config, s: State, a: MaintAct, up: seq<Client>): Option<State> {
    match a
    case HopUp =>
      var up' := up + [|s.mt.led.chainOf|];
      Some(s.(mt := s.mt.(pc := if |up'| >= c.hops then MDialed(up', None) else MDial(up'),
                          led := OpenClient(s.mt.led, s.mt.back.dials))))
    case HopFails(e) => Some(Goto(s, MUnwind(up, e)))
    case _ => None
  }

  /** The three arms of `wait`. */
  function WaitNext(c: Config, s: State, a: MaintAct, entered: nat): Option<State> {
    match a
    case WaitCancelled => if s.life.cancelled then Some(Goto(s, MReturn)) else None
    case WaitRetry =>
      if !s.sig.retry then None
      else Some(s.(sig := s.sig.(retry := false), mt := s.mt.(pc := MCheck, back := EndWait(c, s.mt.back))))
    case WaitTimer =>
      if s.now < entered + s.mt.back.delay then None
      else Some(s.(mt := s.mt.(pc := MCheck, back := EndTimedWait(c, s.mt.back, s.now - entered))))
    case _ => None
  }

  /** The arms of `watch`; WatchLost is the client closing or a failed heartbeat. */
  function WatchNext(s: State, a: MaintAct, up: seq<Client>, since: nat): Option<State> {
    match a
    case WatchCancelled => if s.life.cancelled then Some(Goto(s, MUnpublish(up, since))) else None
    case WatchReconnect =>
      if s.sig.reconnect then Some(Goto(s, MUnpublish(up, since)).(sig := s.sig.(reconnect := false))) else None
    case WatchBroken =>
      if s.sig.broken.None? then None
      else
        var pc := if |up| > 0 && s.sig.broken.value == Last(up) then MUnpublish(up, since) else s.mt.pc;
        Some(Goto(s, pc).(sig := s.sig.(broken := None)))
    case WatchLost => Some(Goto(s, MUnpublish(up, since)))
    case WatchBeat => Some(s)
    case _ => None
  }

  function ServeNext(s: State, a: ServeAct): Option<State> {
    match (s.cn.serve, a)
    case (VAccept, Accepts) =>
      if s.life.lnOpen then Some(s.(cn := s.cn.(serve := VSpawn(s.cn.nextId), nextId := s.cn.nextId + 1))) else None
    case (VAccept, AcceptFails) =>
      Some(s.(cn := s.cn.(serve := if s.life.cancelled || !s.life.lnOpen then VReturn else VAccept)))
    case (VSpawn(conn), ServeGo) =>
      Some(s.(cn := s.cn.(serve := VAccept, hs := s.cn.hs[conn := HTrack]), life := s.life.(wg := s.life.wg + 1)))
    case (VReturn, ServeGo) =>
      Some(s.(cn := s.cn.(serve := VDone), life := s.life.(wg := s.life.wg - 1)))
    case _ => None
  }

  /** The lock section of waitClient followed by its switch. */
  function Read(s: State, attempted: bool, seen: nat, began: nat): HandlerPc
    requires |s.hist| > 0
  {
    var cur := s.Cur();
    var snap := Snap(cur, s.Chan());
    if cur.client.Some? then HReturn(cur.client, None, s.Chan(), began, FromStatus)
    else if cur.phase == Stopped then HReturn(None, Some(ERR_STOPPED), s.Chan(), began, FromStatus)
    else if cur.phase == Failed && attempted then HReturn(None, cur.err, s.Chan(), began, FromStatus)
    else if cur.phase == Failed then HNotify(snap, attempted, seen, began)
    else if cur.phase == Connecting then HBlock(snap, true, s.Chan(), began)
    else HBlock(snap, attempted, seen, began)
  }

  function HandlerGoto(s: State, conn: ConnId, pc: HandlerPc): State {
    s.(cn := s.cn.(hs := s.cn.hs[conn := pc]))
  }

  /** The request inside dial: waitClient, then DialContext through the client. */
  function RequestNext(s: State, conn: ConnId, pc: HandlerPc, a: HandlerAct): Option<State>
    requires |s.hist| > 0
  {
    match pc
    case HSnap(attempted, seen, began) =>
      if a == HGo then Some(HandlerGoto(s, conn, Read(s, attempted, seen, began))) else None
    case HNotify(snap, attempted, seen, began) =>
      if a != HGo then None
      else Some(HandlerGoto(s, conn, HBlock(snap, attempted, seen, began)).(sig := s.sig.(retry := true)))
    case HBlock(snap, attempted, seen, began) =>
      if a == Woken && snap.chan < s.Chan() then Some(HandlerGoto(s, conn, HSnap(attempted, seen, began)))
      else if a == Expired then
        var err := if snap.status.err.Some? then snap.status.err else Some(ERR_TIMEOUT);
        Some(HandlerGoto(s, conn, HReturn(None, err, snap.chan, began, ContextEnded)))
      else None
    case HReturn(client, err, at, began, cause) =>
      if a != HGo then None
      else if err.Some? then Some(HandlerGoto(s, conn, HUntrack))
      else if client.Some? then Some(HandlerGoto(s, conn, HDialing(client.value)))
      else None                                    // the nil client would be dereferenced here
    case HDialing(via) =>
      if a == TargetUp then Some(HandlerGoto(s, conn, HRelay))
      else if a == TargetFails then Some(HandlerGoto(s, conn, HUntrack))
      else if a == LinkFails && !s.life.cancelled then Some(HandlerGoto(s, conn, HReport(via)))
      else None
    case HReport(via) =>
      if a != HGo then None
      else
        var broken := if s.sig.broken.None? then Some(via) else s.sig.broken;
        Some(HandlerGoto(s, conn, HUntrack).(sig := s.sig.(broken := broken)))
    case _ => None
  }

  /** handle: track, serve, untrack, close, wg.Done. */
  function HandlerNext(s: State, conn: ConnId, a: HandlerAct): Option<State>
    requires |s.hist| > 0
  {
    if conn !in s.cn.hs then None
    else match s.cn.hs[conn]
    case HTrack =>
      if a != HGo then None
      else if s.life.cancelled then Some(HandlerGoto(s, conn, HClose))
      else Some(s.(cn := s.cn.(hs := s.cn.hs[conn := HServe], tracked := s.cn.tracked + {conn})))
    case HServe =>
      if a == Finish then Some(HandlerGoto(s, conn, HUntrack))
      else if a == CallDial then Some(HandlerGoto(s, conn, HSnap(false, 0, s.Chan())))
      else None
    case HRelay => if a == Finish then Some(HandlerGoto(s, conn, HUntrack)) else None
    case HUntrack =>
      if a != HGo then None
      else Some(s.(cn := s.cn.(hs := s.cn.hs[conn := HClose], tracked := s.cn.tracked - {conn})))
    case HClose =>
      if a != HGo then None
      else Some(s.(cn := s.cn.(hs := s.cn.hs[conn := HExit], closed := s.cn.closed + {conn})))
    case HExit =>
      if a != HGo then None
      else Some(s.(cn := s.cn.(hs := s.cn.hs - {conn}), life := s.life.(wg := s.life.wg - 1)))
    case pc => RequestNext(s, conn, pc, a)
  }

  function StopGoto(s: State, id: nat, pc: StopPc): State {
    s.(life := s.life.(stops := s.life.stops[id := pc]))
  }

  /** A Stop caller; Start has completed before any of them begins. */
  function StopNext(s: State, id: nat): Option<State>
    requires |s.hist| > 0
  {
    if id !in s.life.stops then
      if s.life.start.TDone? then Some(StopGoto(s, id, PCancel)) else None
    else match s.life.stops[id]
    case PCancel => Some(s.(life := s.life.(cancelled := true, stops := s.life.stops[id := PListener])))
    case PListener => Some(s.(life := s.life.(lnOpen := false, stops := s.life.stops[id := PSweep])))
    case PSweep => Some(StopGoto(s, id, PWait).(cn := s.cn.(closed := s.cn.closed + s.cn.tracked)))
    case PWait => if s.life.wg == 0 then Some(StopGoto(s, id, PPublish)) else None
    case PPublish =>
      var h := Publish(s.hist, Stopped, None, None);
      Some(StopGoto(s, id, if Announced(h) then PCallback else PDone).(hist := h))
    case PCallback => Some(StopGoto(s, id, PDone).(app := OnChange(s.app, s.Cur())))
    case PDone => None
  }

  function ReconnectNext(s: State, id: nat): Option<State>
    requires |s.hist| > 0
  {
    if id !in s.recs then Some(s.(recs := s.recs[id := RRead]))
    else match s.recs[id]
    case RRead =>
      (match s.Cur().phase
       case Connected => Some(s.(recs := s.recs[id := RSendReconnect]))
       case Failed => Some(s.(recs := s.recs[id := RSendRetry]))
       case _ => Some(s.(recs := s.recs - {id})))
    case RSendReconnect => Some(s.(sig := s.sig.(reconnect := true), recs := s.recs - {id}))
    case RSendRetry => Some(s.(sig := s.sig.(retry := true), recs := s.recs - {id}))
  }

  function Next(c: Config, s: State, a: Act): Option<State>
    requires |s.hist| > 0
  {
    match a
    case StartStep(sa) => StartNext(s, sa)
    case MaintStep(ma) => MaintNext(c, s, ma)
    case ServeStep(va) => ServeNext(s, va)
    case HandlerStep(conn, ha) => HandlerNext(s, conn, ha)
    case StopStep(id) => StopNext(s, id)
    case ReconnectStep(rid) => ReconnectNext(s, rid)
    case Tick(d) => Some(s.(now := s.now + d))
  }

  // ---------------------------------------------------------------- runs

  /** t follows s by the actions. */
  ghost predicate Runs(c: Config, s: State, acts: seq<Act>, t: State)
    decreases |acts|
  {
    if acts == [] then s == t
    else
      && |s.hist| > 0
      && Next(c, s, acts[0]).Some?
      && Runs(c, Next(c, s, acts[0]).value, acts[1..], t)
  }

  ghost predicate Reachable(c: Config, s: State) {
    exists acts :: Runs(c, Init(), acts, s)
  }
}
