/** What every step of the tunnel keeps, for any number of requests and callers. */
module TunnelInvariants {
  import opened Basics
  import opened TunnelModel

  ghost predicate ConfigOk(c: Config) {
    c.hops >= 1 && c.maxRetryDelay >= SECOND
  }

  // ---------------------------------------------------------------- control

  predicate StatusOk(st: Status) {
    && (st.phase == Failed ==> st.err.Some?)
    && (st.client.Some? <==> st.phase == Connected)
  }

  ghost predicate HistOk(s: State) {
    && |s.hist| > 0
    && s.hist[0] == Status(Connecting, None, None)
    && forall i :: 0 <= i < |s.hist| ==> StatusOk(s.hist[i])
  }

  predicate Clean(st: Status) {
    st.phase == Connecting && st.err.None?
  }

  predicate Alive(pc: MaintPc) {
    !pc.MIdle? && !pc.MDone?
  }

  predicate Serving(pc: ServePc) {
    !pc.VIdle? && !pc.VDone?
  }

  /** No goroutine of the tunnel is left. */
  ghost predicate Quiet(s: State) {
    !Alive(s.mt.pc) && !Serving(s.cn.serve) && s.cn.hs == map[]
  }

  /** What the published status can be at each point of maintain. */
  ghost predicate PhaseAt(pc: MaintPc, cur: Status) {
    match pc
    case MIdle => cur.phase != Connected
    case MCheck => cur.phase == Failed || Clean(cur)
    case MPublishConnecting => cur.phase == Failed || Clean(cur)
    case MDial(up) => cur.phase == Connecting
    case MUnwind(up, e) => cur.phase == Connecting
    case MDialed(up, err) => cur.phase == Connecting && (err.Some? ==> up == []) && (err.None? ==> |up| > 0)
    case MAbort(up) => cur.phase == Connecting
    case MPublishFailed(e) => cur.phase == Connecting
    case MWait(entered) => cur.phase == Failed || Clean(cur)
    case MDrain(up) => cur.phase == Connecting && |up| > 0
    case MPublishConnected(up) => cur.phase == Connecting && |up| > 0
    case MWatch(up, since) => |up| > 0 && cur.client == Some(Last(up))
    case MUnpublish(up, since) => |up| > 0 && cur.client == Some(Last(up))
    case MClose(up, since) => Clean(cur)
    case MAfter(since) => Clean(cur)
    case MReturn => cur.phase == Failed || cur.phase == Connecting
    case MDone => cur.phase != Connected
  }

  ghost predicate StartOk(s: State)
    requires |s.hist| > 0
  {
    && (!s.life.start.TDone? ==>
      s.mt.pc == MIdle && !s.mt.cb && s.cn.serve == VIdle && s.cn.hs == map[] && s.life.stops == map[])
    && (s.life.start.TNew? || s.life.start.TFlag? || s.life.start.TPublish? ==> |s.hist| == 1)
    && (s.life.start.TCallback? ==> |s.hist| == 2 && s.Cur().phase == Failed)
    && (s.mt.pc == MIdle ==> s.cn.serve == VIdle && s.cn.hs == map[])
    && (s.mt.cb ==> s.mt.pc.MDial? || s.mt.pc.MWait? || s.mt.pc.MWatch? || s.mt.pc.MClose?)
  }

  function Rank(pc: StopPc): nat {
    match pc
    case PCancel => 0
    case PListener => 1
    case PSweep => 2
    case PWait => 3
    case PPublish => 4
    case PCallback => 5
    case PDone => 6
  }

  /** What has been done once some Stop caller reached pc. */
  ghost predicate StoppedTo(s: State, pc: StopPc)
    requires |s.hist| > 0
  {
    && (Rank(pc) >= 1 ==> s.life.cancelled)
    && (Rank(pc) >= 2 ==> !s.life.lnOpen)
    && (Rank(pc) >= 3 ==> s.cn.tracked <= s.cn.closed)
    && (Rank(pc) >= 4 ==> Quiet(s))
    && (Rank(pc) >= 5 ==> s.Cur() == Status(Stopped, None, None))
  }

  ghost predicate StopsOk(s: State)
    requires |s.hist| > 0
  {
    && (s.life.stops != map[] ==> s.life.start.TDone?)
    && (forall id :: id in s.life.stops ==> StoppedTo(s, s.life.stops[id]))
    && (s.Cur().phase == Stopped ==> Quiet(s) && s.life.cancelled && !s.mt.cb)
  }

  predicate Tracked(pc: HandlerPc) {
    !pc.HTrack? && !pc.HClose? && !pc.HExit?
  }

  function One(b: bool): nat {
    if b then 1 else 0
  }

  /** The WaitGroup counts the live goroutines; t.conns holds the handlers between track and untrack. */
  ghost predicate CountsOk(s: State) {
    && s.life.wg == One(Alive(s.mt.pc)) + One(Serving(s.cn.serve)) + |s.cn.hs|
    && s.cn.tracked == (set h | h in s.cn.hs && Tracked(s.cn.hs[h]))
    && (forall h :: h in s.cn.hs ==> h < s.cn.nextId)
    && (s.cn.serve.VSpawn? ==> s.cn.serve.conn < s.cn.nextId && s.cn.serve.conn !in s.cn.hs)
  }

  ghost predicate ControlOk(s: State) {
    && HistOk(s)
    && PhaseAt(s.mt.pc, s.Cur())
    && StartOk(s)
    && StopsOk(s)
    && CountsOk(s)
  }

  // ---------------------------------------------------------------- preservation of control

  lemma PublishKeepsHist(s: State, phase: Phase, err: Option<Error>, client: Option<Client>)
    requires HistOk(s)
    requires phase == Failed ==> err.Some?
    requires client.Some? <==> phase == Connected
    ensures HistOk(s.(hist := Publish(s.hist, phase, err, client)))
  {
    assert StatusOk(s.Cur());
  }

  lemma ControlByStart(c: Config, s: State, a: StartAct)
    requires ConfigOk(c) && ControlOk(s) && StartNext(s, a).Some?
    ensures ControlOk(StartNext(s, a).value)
  {
    if s.life.start.TPublish? { PublishKeepsHist(s, Failed, Some(s.life.start.e), None); }
  }

  lemma MaintKeepsHist(c: Config, s: State, a: MaintAct)
    requires HistOk(s) && PhaseAt(s.mt.pc, s.Cur()) && MaintNext(c, s, a).Some?
    ensures HistOk(MaintNext(c, s, a).value)
  {
    match s.mt.pc
    case MPublishConnecting => PublishKeepsHist(s, Connecting, None, None);
    case MUnpublish(up, since) => PublishKeepsHist(s, Connecting, None, None);
    case MPublishFailed(e) => PublishKeepsHist(s, Failed, Some(e), None);
    case MPublishConnected(up) => PublishKeepsHist(s, Connected, None, Some(Last(up)));
    case _ =>
  }

  ghost predicate PhaseOk(s: State) {
    |s.hist| > 0 && PhaseAt(s.mt.pc, s.Cur())
  }

  predicate Publishing(pc: MaintPc) {
    pc.MPublishConnecting? || pc.MPublishFailed? || pc.MPublishConnected? || pc.MUnpublish?
  }

  lemma PublishKeepsPhase(c: Config, s: State)
    requires HistOk(s) && PhaseOk(s) && Publishing(s.mt.pc) && MaintGo(c, s).Some?
    ensures PhaseOk(MaintGo(c, s).value)
  {
    match s.mt.pc
    case MPublishConnecting =>
    case MPublishFailed(e) =>
    case MPublishConnected(up) =>
    case MUnpublish(up, since) =>
  }

  lemma GoKeepsPhase(c: Config, s: State)
    requires HistOk(s) && PhaseOk(s) && MaintGo(c, s).Some?
    ensures PhaseOk(MaintGo(c, s).value)
  {
    if Publishing(s.mt.pc) {
      PublishKeepsPhase(c, s);
    } else {
      match s.mt.pc
      case MUnwind(up, e) =>
      case MAbort(up) =>
      case MClose(up, since) =>
      case MDialed(up, err) =>
      case _ =>
    }
  }

  lemma MaintKeepsPhase(c: Config, s: State, a: MaintAct)
    requires ConfigOk(c) && HistOk(s) && PhaseOk(s) && MaintNext(c, s, a).Some?
    ensures PhaseOk(MaintNext(c, s, a).value)
  {
    if !s.mt.cb {
      match s.mt.pc
      case MDial(up) =>
      case MWait(entered) =>
      case MWatch(up, since) =>
      case _ => GoKeepsPhase(c, s);
    }
  }

  /** t differs from s only in what maintain may write; the WaitGroup falls exactly with the deferred Done. */
  predicate MaintWrites(s: State, t: State) {
    && t.cn == s.cn && t.recs == s.recs && t.now == s.now
    && t.life == s.life.(wg := if s.mt.pc == MReturn && !s.mt.cb then s.life.wg - 1 else s.life.wg)
  }

  lemma GoFrame(c: Config, s: State)
    requires |s.hist| > 0 && !s.mt.cb && MaintGo(c, s).Some?
    ensures MaintWrites(s, MaintGo(c, s).value)
  {
  }

  lemma MaintFrame(c: Config, s: State, a: MaintAct)
    requires |s.hist| > 0 && MaintNext(c, s, a).Some?
    ensures MaintWrites(s, MaintNext(c, s, a).value)
  {
    if !s.mt.cb && !s.mt.pc.MDial? && !s.mt.pc.MWait? && !s.mt.pc.MWatch? { GoFrame(c, s); }
  }

  /** How the program counter of a running maintain may move. */
  predicate PcMoves(mt: Maint, mt': Maint) {
    && Alive(mt.pc) && mt'.pc != MIdle
    && (mt'.pc == MDone <==> mt.pc == MReturn && !mt.cb)
    && (mt'.cb ==> mt'.pc.MDial? || mt'.pc.MWait? || mt'.pc.MWatch? || mt'.pc.MClose?)
  }

  lemma MaintPcMoves(c: Config, s: State, a: MaintAct)
    requires |s.hist| > 0 && StartOk(s) && MaintNext(c, s, a).Some?
    ensures PcMoves(s.mt, MaintNext(c, s, a).value.mt)
    ensures MaintNext(c, s, a).value.mt.pc == MDone ==> MaintNext(c, s, a).value.hist == s.hist
  {
  }

  lemma MaintKeepsRest(s: State, t: State)
    requires ControlOk(s) && HistOk(t) && PhaseOk(t) && MaintWrites(s, t) && PcMoves(s.mt, t.mt)
    requires t.mt.pc == MDone ==> t.hist == s.hist
    ensures ControlOk(t)
  {
    assert s.life.start.TDone? && t.life.start.TDone?;
    forall id | id in t.life.stops ensures StoppedTo(t, t.life.stops[id]) {
      assert StoppedTo(s, s.life.stops[id]);
    }
  }

  lemma ControlByMaint(c: Config, s: State, a: MaintAct)
    requires ConfigOk(c) && ControlOk(s) && MaintNext(c, s, a).Some?
    ensures ControlOk(MaintNext(c, s, a).value)
  {
    MaintKeepsHist(c, s, a);
    MaintKeepsPhase(c, s, a);
    MaintFrame(c, s, a);
    MaintPcMoves(c, s, a);
    MaintKeepsRest(s, MaintNext(c, s, a).value);
  }

  lemma ControlByServe(s: State, a: ServeAct)
    requires ControlOk(s) && ServeNext(s, a).Some?
    ensures ControlOk(ServeNext(s, a).value)
  {
    match s.cn.serve
    case VAccept =>
    case VSpawn(conn) =>
    case _ =>
  }

  /** The part of the state the control invariant looks at. */
  lemma ControlFrame(s: State, t: State)
    requires ControlOk(s)
    requires t.hist == s.hist && t.life == s.life && t.mt == s.mt && t.cn == s.cn
    ensures ControlOk(t)
  {
  }

  /** A handler that moves, with t.conns following it. */
  lemma MoveKeepsControl(s: State, conn: ConnId, pc: HandlerPc, tracked: set<ConnId>, closed: set<ConnId>)
    requires ControlOk(s) && conn in s.cn.hs
    requires tracked == if Tracked(pc) then s.cn.tracked + {conn} else s.cn.tracked - {conn}
    requires s.cn.closed <= closed
    requires conn in tracked ==> conn in s.cn.tracked || !s.life.cancelled
    ensures ControlOk(s.(cn := s.cn.(hs := s.cn.hs[conn := pc], tracked := tracked, closed := closed)))
  {
    var t := s.(cn := s.cn.(hs := s.cn.hs[conn := pc], tracked := tracked, closed := closed));
    assert StopsOk(t);
  }

  lemma ExitKeepsControl(s: State, conn: ConnId)
    requires ControlOk(s) && conn in s.cn.hs && s.cn.hs[conn] == HExit
    ensures ControlOk(s.(cn := s.cn.(hs := s.cn.hs - {conn}), life := s.life.(wg := s.life.wg - 1)))
  {
    SizeAfterRemoval(s.cn.hs, conn);
  }

  lemma SizeAfterRemoval<K, V>(m: map<K, V>, k: K)
    requires k in m
    ensures |m - {k}| == |m| - 1
  {
    assert (m - {k}).Keys == m.Keys - {k};
    assert |(m - {k}).Keys| == |m - {k}|;
  }

  /** A handler step other than the last one only moves the handler, t.conns, the closed connections and a signal. */
  lemma HandlerMoves(s: State, conn: ConnId, a: HandlerAct)
    requires |s.hist| > 0 && conn in s.cn.hs && s.cn.hs[conn] != HExit
    requires HandlerNext(s, conn, a).Some?
    ensures var t := HandlerNext(s, conn, a).value;
      && conn in t.cn.hs
      && t == s.(sig := t.sig,
                 cn := s.cn.(hs := s.cn.hs[conn := t.cn.hs[conn]], tracked := t.cn.tracked, closed := t.cn.closed))
  {
  }

  lemma HandlerTracks(s: State, conn: ConnId, a: HandlerAct)
    requires |s.hist| > 0 && conn in s.cn.hs && s.cn.hs[conn] != HExit
    requires conn in s.cn.tracked <==> Tracked(s.cn.hs[conn])
    requires HandlerNext(s, conn, a).Some?
    ensures var t := HandlerNext(s, conn, a).value;
      && conn in t.cn.hs
      && t.cn.tracked == (if Tracked(t.cn.hs[conn]) then s.cn.tracked + {conn} else s.cn.tracked - {conn})
      && s.cn.closed <= t.cn.closed
      && (conn in t.cn.tracked ==> conn in s.cn.tracked || !s.life.cancelled)
  {
  }

  lemma ControlByHandler(s: State, conn: ConnId, a: HandlerAct)
    requires ControlOk(s) && HandlerNext(s, conn, a).Some?
    ensures ControlOk(HandlerNext(s, conn, a).value)
  {
    if s.cn.hs[conn] == HExit {
      ExitKeepsControl(s, conn);
    } else {
      var t := HandlerNext(s, conn, a).value;
      HandlerMoves(s, conn, a);
      HandlerTracks(s, conn, a);
      MoveKeepsControl(s, conn, t.cn.hs[conn], t.cn.tracked, t.cn.closed);
      ControlFrame(s.(cn := t.cn), t);
    }
  }

  lemma PublishStoppedKeepsControl(s: State, id: nat)
    requires ControlOk(s) && id in s.life.stops && s.life.stops[id] == PPublish
    ensures ControlOk(StopNext(s, id).value)
  {
    PublishKeepsHist(s, Stopped, None, None);
  }

  lemma SweepKeepsControl(s: State, id: nat)
    requires ControlOk(s) && id in s.life.stops && s.life.stops[id] == PSweep
    ensures ControlOk(StopNext(s, id).value)
  {
  }

  /** The Stop steps that only move the caller and raise one of its two flags. */
  lemma StopMoveKeepsControl(s: State, id: nat, pc: StopPc, cancelled: bool, lnOpen: bool)
    requires ControlOk(s) && s.life.start.TDone?
    requires s.life.cancelled ==> cancelled
    requires lnOpen ==> s.life.lnOpen
    requires StoppedTo(s.(life := s.life.(cancelled := cancelled, lnOpen := lnOpen)), pc)
    ensures ControlOk(s.(life := s.life.(cancelled := cancelled, lnOpen := lnOpen, stops := s.life.stops[id := pc])))
  {
  }

  lemma ControlByStop(s: State, id: nat)
    requires ControlOk(s) && StopNext(s, id).Some?
    ensures ControlOk(StopNext(s, id).value)
  {
    if id !in s.life.stops {
      StopMoveKeepsControl(s, id, PCancel, s.life.cancelled, s.life.lnOpen);
    } else {
      var pc := s.life.stops[id];
      assert StoppedTo(s, pc);
      match pc
      case PCancel => StopMoveKeepsControl(s, id, PListener, true, s.life.lnOpen);
      case PListener => StopMoveKeepsControl(s, id, PSweep, s.life.cancelled, false);
      case PSweep => SweepKeepsControl(s, id);
      case PWait => StopMoveKeepsControl(s, id, PPublish, s.life.cancelled, s.life.lnOpen);
      case PPublish => PublishStoppedKeepsControl(s, id);
      case PCallback =>
        StopMoveKeepsControl(s, id, PDone, s.life.cancelled, s.life.lnOpen);
        ControlFrame(StopGoto(s, id, PDone), StopNext(s, id).value);
    }
  }

  lemma ControlKept(c: Config, s: State, a: Act)
    requires ConfigOk(c) && ControlOk(s) && Next(c, s, a).Some?
    ensures ControlOk(Next(c, s, a).value)
  {
    match a
    case StartStep(sa) => ControlByStart(c, s, sa);
    case MaintStep(ma) => ControlByMaint(c, s, ma);
    case ServeStep(va) => ControlByServe(s, va);
    case HandlerStep(conn, ha) => ControlByHandler(s, conn, ha);
    case StopStep(id) => ControlByStop(s, id);
    case ReconnectStep(rid) => ControlFrame(s, ReconnectNext(s, rid).value);
    case Tick(d) => ControlFrame(s, s.(now := s.now + d));
  }
}
