/** Requests in waitClient: what they hold, what they return, and why none misses a wake-up. */
module TunnelRequests {
  import opened Basics
  import opened TunnelModel
  import opened TunnelInvariants

  /** A snapshot is the status published under the channel it came with. */
  ghost predicate SnapOk(hist: seq<Status>, snap: Snap) {
    snap.chan < |hist| && hist[snap.chan] == snap.status
  }

  /** A call that has waited for an attempt saw Connecting after it began. */
  ghost predicate AttemptOk(hist: seq<Status>, attempted: bool, seen: nat, began: nat) {
    began < |hist| && (attempted ==> began <= seen < |hist| && hist[seen].phase == Connecting)
  }

  /** What a returned pair is, and where in the published history it comes from. */
  ghost predicate ReturnOk(hist: seq<Status>, client: Option<Client>, err: Option<Error>, at: nat, began: nat,
                           cause: Cause) {
    && began <= at < |hist|
    && (client.Some? <==> err.None?)
    && (client.Some? ==> hist[at].phase == Connected && hist[at].client == client)
    && (cause == FromStatus && err.Some? ==>
          || (hist[at].phase == Stopped && err == Some(ERR_STOPPED))
          || (hist[at].phase == Failed && hist[at].err == err && began < at))
    && (cause == ContextEnded ==> err == if hist[at].err.Some? then hist[at].err else Some(ERR_TIMEOUT))
  }

  ghost predicate RequestOk(hist: seq<Status>, pc: HandlerPc) {
    match pc
    case HSnap(attempted, seen, began) => AttemptOk(hist, attempted, seen, began)
    case HNotify(snap, attempted, seen, began) =>
      SnapOk(hist, snap) && AttemptOk(hist, attempted, seen, began) && began <= snap.chan && snap.status.phase == Failed
    case HBlock(snap, attempted, seen, began) =>
      SnapOk(hist, snap) && AttemptOk(hist, attempted, seen, began) && began <= snap.chan
      && (snap.status.phase == Failed || snap.status.phase == Connecting)
    case HReturn(client, err, at, began, cause) => ReturnOk(hist, client, err, at, began, cause)
    case _ => true
  }

  ghost predicate RequestsOk(s: State) {
    forall h :: h in s.cn.hs ==> RequestOk(s.hist, s.cn.hs[h])
  }

  /** A request is blocked on the open channel with a failure in hand, past its notify. */
  ghost predicate SitsOnFailure(s: State, pc: HandlerPc) {
    pc.HBlock? && pc.snap.chan + 1 == |s.hist| && pc.snap.status.phase == Failed
  }

  /** While maintain is in `wait`, such a request has its token in the retry slot. */
  ghost predicate WakeOk(s: State) {
    s.mt.pc.MWait? ==> forall h :: h in s.cn.hs && SitsOnFailure(s, s.cn.hs[h]) ==> s.sig.retry
  }

  /** Publishing more statuses does not disturb what a request knows. */
  lemma LongerHistory(hist: seq<Status>, hist': seq<Status>, pc: HandlerPc)
    requires RequestOk(hist, pc) && hist <= hist'
    ensures RequestOk(hist', pc)
  {
  }

  lemma HistGrows(c: Config, s: State, a: Act)
    requires |s.hist| > 0 && Next(c, s, a).Some?
    ensures s.hist <= Next(c, s, a).value.hist
    ensures a.HandlerStep? || a.ServeStep? ==> Next(c, s, a).value.hist == s.hist
  {
    match a
    case HandlerStep(conn, ha) => if s.cn.hs[conn] != HExit { HandlerMoves(s, conn, ha); }
    case _ =>
  }

  lemma ReadIsOk(s: State, attempted: bool, seen: nat, began: nat)
    requires HistOk(s) && AttemptOk(s.hist, attempted, seen, began)
    ensures RequestOk(s.hist, Read(s, attempted, seen, began))
    ensures !SitsOnFailure(s, Read(s, attempted, seen, began))
  {
    assert StatusOk(s.Cur());
  }

  /** The one handler that moves stays in order. */
  lemma MovedHandlerOk(s: State, conn: ConnId, a: HandlerAct)
    requires HistOk(s) && conn in s.cn.hs && s.cn.hs[conn] != HExit && RequestOk(s.hist, s.cn.hs[conn])
    requires HandlerNext(s, conn, a).Some?
    ensures var t := HandlerNext(s, conn, a).value;
      && conn in t.cn.hs
      && RequestOk(s.hist, t.cn.hs[conn])
      && (SitsOnFailure(s, t.cn.hs[conn]) ==> t.sig.retry)
      && (s.sig.retry ==> t.sig.retry)
  {
    match s.cn.hs[conn]
    case HSnap(attempted, seen, began) => ReadIsOk(s, attempted, seen, began);
    case HNotify(snap, attempted, seen, began) =>
    case _ =>
  }

  lemma RequestsByHandler(s: State, conn: ConnId, a: HandlerAct)
    requires ControlOk(s) && RequestsOk(s) && WakeOk(s) && HandlerNext(s, conn, a).Some?
    ensures RequestsOk(HandlerNext(s, conn, a).value) && WakeOk(HandlerNext(s, conn, a).value)
  {
    if s.cn.hs[conn] != HExit {
      HandlerMoves(s, conn, a);
      MovedHandlerOk(s, conn, a);
    }
  }

  /** maintain enters `wait` either with a fresh failure or with none published. */
  lemma WakeByMaint(c: Config, s: State, a: MaintAct)
    requires ControlOk(s) && RequestsOk(s) && WakeOk(s) && MaintNext(c, s, a).Some?
    ensures WakeOk(MaintNext(c, s, a).value)
  {
    var t := MaintNext(c, s, a).value;
    MaintFrame(c, s, a);
    if t.mt.pc.MWait? {
      forall h | h in t.cn.hs && SitsOnFailure(t, t.cn.hs[h]) ensures t.sig.retry {
        assert RequestOk(s.hist, s.cn.hs[h]);
        EnteringWait(c, s, a);
      }
    }
  }

  lemma EnteringWait(c: Config, s: State, a: MaintAct)
    requires ControlOk(s) && MaintNext(c, s, a).Some? && MaintNext(c, s, a).value.mt.pc.MWait?
    ensures var t := MaintNext(c, s, a).value;
      || |t.hist| > |s.hist|
      || (s.mt.pc.MAfter? && t.hist == s.hist && s.Cur().phase == Connecting)
      || (s.mt.pc == t.mt.pc && t.hist == s.hist && t.sig == s.sig)
  {
  }

  lemma OthersKeepHandlers(c: Config, s: State, a: Act)
    requires ControlOk(s) && Next(c, s, a).Some? && !a.HandlerStep?
    ensures var t := Next(c, s, a).value;
      || t.cn.hs == s.cn.hs
      || (s.cn.serve.VSpawn? && t.hist == s.hist && t.mt == s.mt && t.sig == s.sig
          && t.cn.hs == s.cn.hs[s.cn.serve.conn := HTrack])
  {
    match a
    case MaintStep(ma) => MaintFrame(c, s, ma);
    case _ =>
  }

  lemma RequestsKept(c: Config, s: State, a: Act)
    requires ControlOk(s) && RequestsOk(s) && Next(c, s, a).Some?
    requires a.HandlerStep? ==> WakeOk(s)
    ensures RequestsOk(Next(c, s, a).value)
  {
    if a.HandlerStep? {
      RequestsByHandler(s, a.conn, a.ha);
    } else {
      var t := Next(c, s, a).value;
      HistGrows(c, s, a);
      OthersKeepHandlers(c, s, a);
      forall h | h in t.cn.hs ensures RequestOk(t.hist, t.cn.hs[h]) {
        if h in s.cn.hs && t.cn.hs[h] == s.cn.hs[h] { LongerHistory(s.hist, t.hist, s.cn.hs[h]); }
      }
    }
  }

  lemma OthersKeepWake(c: Config, s: State, a: Act)
    requires ControlOk(s) && WakeOk(s) && Next(c, s, a).Some? && !a.HandlerStep? && !a.MaintStep?
    ensures WakeOk(Next(c, s, a).value)
  {
    match a
    case StartStep(sa) =>
    case ServeStep(va) =>
    case StopStep(id) =>
    case ReconnectStep(rid) =>
    case Tick(d) =>
  }

  lemma WakeKept(c: Config, s: State, a: Act)
    requires ControlOk(s) && RequestsOk(s) && WakeOk(s) && Next(c, s, a).Some?
    ensures WakeOk(Next(c, s, a).value)
  {
    match a
    case HandlerStep(conn, ha) => RequestsByHandler(s, conn, ha);
    case MaintStep(ma) => WakeByMaint(c, s, ma);
    case _ => OthersKeepWake(c, s, a);
  }
}
