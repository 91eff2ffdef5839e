/**
 * The promises of the tunnel, for every reachable interleaving of any number of
 * requests and callers.
 */
module TunnelTheorems {
  import opened Basics
  import opened TunnelModel
  import opened TunnelInvariants
  import opened TunnelLedger
  import opened TunnelRequests
  import opened TunnelBackoff
  import opened TunnelNotices

  ghost predicate Inv(c: Config, s: State) {
    && ControlOk(s)
    && LedgerOk(s.mt) && ChainOk(c, s.mt.pc)
    && RequestsOk(s) && WakeOk(s)
    && BackoffOk(c, s.mt.back) && Earned(s.mt) && (s.mt.pc == MIdle ==> s.mt.back.dials == 0)
    && NoticesOk(s)
  }

  lemma InitNotices()
    ensures NoticesOk(Init())
  {
    assert Init().hist[..0] == [];
  }

  lemma InitIsOk(c: Config)
    requires ConfigOk(c)
    ensures Inv(c, Init())
  {
    assert Pow2(0) == 1;
    InitNotices();
  }

  lemma StepKeepsInv(c: Config, s: State, a: Act)
    requires ConfigOk(c) && Inv(c, s) && Next(c, s, a).Some?
    ensures Inv(c, Next(c, s, a).value)
  {
    ControlKept(c, s, a);
    LedgerKept(c, s, a);
    RequestsKept(c, s, a);
    WakeKept(c, s, a);
    BackoffKept(c, s, a);
    NoticesKept(c, s, a);
  }

  lemma {:induction false} RunKeepsInv(c: Config, s: State, acts: seq<Act>, t: State)
    requires ConfigOk(c) && Inv(c, s) && Runs(c, s, acts, t)
    ensures Inv(c, t) && s.hist <= t.hist
    decreases |acts|
  {
    if acts != [] {
      StepKeepsInv(c, s, acts[0]);
      HistGrows(c, s, acts[0]);
      RunKeepsInv(c, Next(c, s, acts[0]).value, acts[1..], t);
    }
  }

  /** Every invariant holds in every reachable state. */
  lemma ReachableIsOk(c: Config, s: State)
    requires ConfigOk(c) && Reachable(c, s)
    ensures Inv(c, s)
  {
    var acts :| Runs(c, Init(), acts, s);
    InitIsOk(c);
    RunKeepsInv(c, Init(), acts, s);
  }

  lemma {:induction false} RunThenStep(c: Config, s: State, acts: seq<Act>, t: State, a: Act)
    requires Runs(c, s, acts, t) && |t.hist| > 0 && Next(c, t, a).Some?
    ensures Runs(c, s, acts + [a], Next(c, t, a).value)
    decreases |acts|
  {
    if acts == [] {
      assert acts + [a] == [a] && [a][1..] == [];
    } else {
      assert (acts + [a])[0] == acts[0] && (acts + [a])[1..] == acts[1..] + [a];
      RunThenStep(c, Next(c, s, acts[0]).value, acts[1..], t, a);
    }
  }

  lemma StepIsReachable(c: Config, s: State, a: Act)
    requires Reachable(c, s) && |s.hist| > 0 && Next(c, s, a).Some?
    ensures Reachable(c, Next(c, s, a).value)
  {
    var acts :| Runs(c, Init(), acts, s);
    RunThenStep(c, Init(), acts, s, a);
  }

  // ---------------------------------------------------------------- requests

  /**
   * No lost wake-up.  A blocked request either sits on a closed channel and can go on at once, or holds
   * exactly the current status; if that is a failure and maintain is in `wait`, its retry arm is ready.
   */
  lemma NoLostWakeup(c: Config, s: State, h: ConnId)
    requires ConfigOk(c) && Reachable(c, s)
    requires h in s.cn.hs && s.cn.hs[h].HBlock?
    ensures |s.hist| > 0 && s.cn.hs[h].snap.chan <= s.Chan()
    ensures s.cn.hs[h].snap.chan < s.Chan() ==> HandlerNext(s, h, Woken).Some?
    ensures s.cn.hs[h].snap.chan == s.Chan() ==>
      s.cn.hs[h].snap.status == s.Cur() && s.Cur().phase in {Failed, Connecting}
    ensures s.cn.hs[h].snap.chan == s.Chan() && s.Cur().phase == Failed && s.mt.pc.MWait? && !s.mt.cb
            ==> s.sig.retry && WaitNext(c, s, WaitRetry, s.mt.pc.entered).Some?
  {
    ReachableIsOk(c, s);
    assert RequestOk(s.hist, s.cn.hs[h]);
  }

  /**
   * waitClient returns a client or an error, never both and never neither; the client was published
   * after the call began, and a connection failure (unless the context ended) strictly after it began.
   */
  lemma WaitClientReturns(c: Config, s: State, h: ConnId)
    requires ConfigOk(c) && Reachable(c, s)
    requires h in s.cn.hs && s.cn.hs[h].HReturn?
    ensures var r := s.cn.hs[h];
      && (r.client.Some? <==> r.err.None?)
      && r.began <= r.at < |s.hist|
      && (r.client.Some? ==> s.hist[r.at].phase == Connected && s.hist[r.at].client == r.client)
      && (r.err.Some? && r.cause == FromStatus && s.hist[r.at].phase != Stopped ==>
            r.began < r.at && s.hist[r.at].phase == Failed && s.hist[r.at].err == r.err)
    ensures |s.hist| > 0 && HandlerNext(s, h, HGo).Some?
  {
    ReachableIsOk(c, s);
    assert RequestOk(s.hist, s.cn.hs[h]);
  }

  /** Every failure ever published carries its error, and a client is published exactly while connected. */
  lemma PublishedStatuses(c: Config, s: State)
    requires ConfigOk(c) && Reachable(c, s)
    ensures forall i :: 0 <= i < |s.hist| ==> StatusOk(s.hist[i])
  {
    ReachableIsOk(c, s);
  }

  // ---------------------------------------------------------------- SSH clients

  ghost predicate Open(l: Ledger, x: Client) {
    x < |l.chainOf| && x !in l.closes
  }

  /**
   * The open clients are exactly those maintain holds, all of one dial and in hop order; no client is
   * closed twice, and a chain is closed from the exit backwards.
   */
  lemma ClientsAreAccountedFor(c: Config, s: State)
    requires ConfigOk(c) && Reachable(c, s)
    ensures forall x :: Open(s.mt.led, x) <==> x in Held(s.mt.pc)
    ensures |Held(s.mt.pc)| <= c.hops
    ensures forall i, j :: 0 <= i < j < |Held(s.mt.pc)| ==> Held(s.mt.pc)[i] < Held(s.mt.pc)[j]
    ensures forall x :: x in Held(s.mt.pc) ==> x < |s.mt.led.chainOf| && s.mt.led.chainOf[x] == s.mt.back.dials
    ensures forall i :: 0 <= i < |s.mt.led.closes| ==> s.mt.led.closes[i] < |s.mt.led.chainOf|
    ensures forall i, j :: 0 <= i < j < |s.mt.led.closes| ==> s.mt.led.closes[i] != s.mt.led.closes[j]
    ensures forall i, j :: 0 <= i < j < |s.mt.led.closes| ==>
      ClosedAfter(s.mt.led, s.mt.led.closes[i], s.mt.led.closes[j])
  {
    ReachableIsOk(c, s);
    var l, up := s.mt.led, Held(s.mt.pc);
    forall x | x in up ensures Open(l, x) && l.chainOf[x] == s.mt.back.dials {
      var j :| 0 <= j < |up| && up[j] == x;
    }
  }

  /** Nothing is open once maintain returns, or before it dials, whichever way it got there. */
  lemma NothingOpenAfterReturn(c: Config, s: State)
    requires ConfigOk(c) && Reachable(c, s)
    requires !Alive(s.mt.pc) || s.mt.pc in {MCheck, MPublishConnecting, MReturn} || s.mt.pc.MWait?
    ensures forall x :: 0 <= x < |s.mt.led.chainOf| ==> x in s.mt.led.closes
  {
    ClientsAreAccountedFor(c, s);
    forall x: nat | x < |s.mt.led.chainOf| ensures x in s.mt.led.closes {
      assert Open(s.mt.led, x) <==> x in Held(s.mt.pc);
    }
  }

  /** A published client is the exit of a complete open chain, so it is unpublished before anything closes it. */
  lemma PublishedClientIsOpen(c: Config, s: State)
    requires ConfigOk(c) && Reachable(c, s)
    requires |s.hist| > 0 && s.Cur().client.Some?
    ensures s.mt.pc.MWatch? || s.mt.pc.MUnpublish?
    ensures |Held(s.mt.pc)| == c.hops > 0 && s.Cur().client == Some(Last(Held(s.mt.pc)))
    ensures Open(s.mt.led, s.Cur().client.value)
  {
    ReachableIsOk(c, s);
    assert StatusOk(s.Cur());
    ClientsAreAccountedFor(c, s);
    assert Last(Held(s.mt.pc)) in Held(s.mt.pc);
    assert Open(s.mt.led, Last(Held(s.mt.pc)));
  }

  // ---------------------------------------------------------------- Stop

  /** The steps that raise the WaitGroup: Start, and the accept loop handing over a connection. */
  lemma OnlyTwoStepsRaise(c: Config, s: State, a: Act)
    requires |s.hist| > 0 && Next(c, s, a).Some? && Next(c, s, a).value.life.wg > s.life.wg
    ensures s.life.start == TNew || s.cn.serve.VSpawn?
  {
    if a.HandlerStep? && s.cn.hs[a.conn] != HExit { HandlerMoves(s, a.conn, a.ha); }
    if a.MaintStep? { MaintFrame(c, s, a.ma); }
  }

  /** The WaitGroup counts the live goroutines, so it is never negative and only raised while positive. */
  lemma WaitGroupCounts(c: Config, s: State, a: Act)
    requires ConfigOk(c) && Reachable(c, s)
    requires |s.hist| > 0 && Next(c, s, a).Some?
    ensures s.life.wg == One(Alive(s.mt.pc)) + One(Serving(s.cn.serve)) + |s.cn.hs|
    ensures Next(c, s, a).value.life.wg > s.life.wg ==> s.life.wg > 0 || s.life.start == TNew
    ensures s.life.wg == 0 <==> Quiet(s)
  {
    ReachableIsOk(c, s);
    if Next(c, s, a).value.life.wg > s.life.wg { OnlyTwoStepsRaise(c, s, a); }
  }

  lemma TrackedNeverGrows(c: Config, s: State, a: Act)
    requires ControlOk(s) && s.life.cancelled && Next(c, s, a).Some?
    ensures Next(c, s, a).value.cn.tracked <= s.cn.tracked
  {
    if a.HandlerStep? && s.cn.hs[a.conn] != HExit { HandlerTracks(s, a.conn, a.ha); }
    if a.MaintStep? { MaintFrame(c, s, a.ma); }
  }

  /** Past Stop's lock section every tracked connection is closed and no step adds one. */
  lemma SweptConnectionsAreClosed(c: Config, s: State, id: nat, a: Act)
    requires ConfigOk(c) && Reachable(c, s)
    requires id in s.life.stops && Rank(s.life.stops[id]) >= Rank(PWait)
    requires |s.hist| > 0 && Next(c, s, a).Some?
    ensures s.cn.tracked <= s.cn.closed
    ensures Next(c, s, a).value.cn.tracked <= s.cn.tracked
  {
    ReachableIsOk(c, s);
    assert StoppedTo(s, s.life.stops[id]);
    TrackedNeverGrows(c, s, a);
  }

  /** What holds once some Stop call has returned. */
  ghost predicate AtRest(s: State) {
    Quiet(s) && s.cn.tracked == {} && s.life.wg == 0 && |s.hist| > 0 && s.Cur() == Status(Stopped, None, None)
  }

  lemma OthersLeaveStops(c: Config, s: State, a: Act)
    requires |s.hist| > 0 && Next(c, s, a).Some? && !a.StopStep?
    ensures Next(c, s, a).value.life.stops == s.life.stops
  {
    if a.MaintStep? { MaintFrame(c, s, a.ma); }
    if a.HandlerStep? && s.cn.hs[a.conn] != HExit { HandlerMoves(s, a.conn, a.ha); }
  }

  lemma ReturnedStopStays(c: Config, s: State, id: nat, a: Act)
    requires |s.hist| > 0 && id in s.life.stops && s.life.stops[id] == PDone && Next(c, s, a).Some?
    ensures id in Next(c, s, a).value.life.stops && Next(c, s, a).value.life.stops[id] == PDone
  {
    if a.StopStep? { StopStepKeepsReturned(s, a.id, id); } else { OthersLeaveStops(c, s, a); }
  }

  /** A Stop caller moves itself only, and none that has returned moves. */
  lemma OnlyTheCallerMoves(s: State, mover: nat)
    requires |s.hist| > 0 && StopNext(s, mover).Some?
    ensures var stops := StopNext(s, mover).value.life.stops;
      mover in stops && stops == s.life.stops[mover := stops[mover]]
    ensures mover in s.life.stops ==> s.life.stops[mover] != PDone
  {
    var t := StopNext(s, mover).value;
    if mover !in s.life.stops {
      assert t.life.stops == s.life.stops[mover := PCancel];
    } else {
      match s.life.stops[mover]
      case PPublish =>
      case PCallback =>
      case _ =>
    }
  }

  lemma StopStepKeepsReturned(s: State, mover: nat, id: nat)
    requires |s.hist| > 0 && id in s.life.stops && s.life.stops[id] == PDone && StopNext(s, mover).Some?
    ensures id in StopNext(s, mover).value.life.stops && StopNext(s, mover).value.life.stops[id] == PDone
  {
    OnlyTheCallerMoves(s, mover);
  }

  lemma {:induction false} RestLasts(c: Config, s: State, id: nat, acts: seq<Act>, t: State)
    requires ConfigOk(c) && Inv(c, s) && id in s.life.stops && s.life.stops[id] == PDone
    requires Runs(c, s, acts, t)
    ensures Inv(c, t) && id in t.life.stops && t.life.stops[id] == PDone
    decreases |acts|
  {
    if acts != [] {
      StepKeepsInv(c, s, acts[0]);
      ReturnedStopStays(c, s, id, acts[0]);
      RestLasts(c, Next(c, s, acts[0]).value, id, acts[1..], t);
    }
  }

  lemma ReturnedIsAtRest(s: State, id: nat)
    requires ControlOk(s) && id in s.life.stops && s.life.stops[id] == PDone
    ensures AtRest(s)
  {
    assert StoppedTo(s, s.life.stops[id]);
  }

  /** When a Stop returns the tunnel is at rest, and it stays at rest along every further run. */
  lemma StopReachesRest(c: Config, s: State, id: nat, acts: seq<Act>, t: State)
    requires ConfigOk(c) && Reachable(c, s) && id in s.life.stops && s.life.stops[id] == PDone
    requires Runs(c, s, acts, t)
    ensures AtRest(s) && AtRest(t)
  {
    ReachableIsOk(c, s);
    RestLasts(c, s, id, acts, t);
    ReturnedIsAtRest(s, id);
    ReturnedIsAtRest(t, id);
  }

  // ---------------------------------------------------------------- streaks and delays

  /** Failing() is exactly "a failure since the last Connected or Stopped", in every status ever published. */
  lemma FailingIsTheStreak(c: Config, s: State)
    requires ConfigOk(c) && Reachable(c, s)
    ensures |s.hist| > 0 && Failing(s.Cur()) == InStreak(s.hist)
    ensures forall k :: 0 < k < |s.hist| && s.hist[k].phase == Connecting && s.hist[k - 1].phase == Connected ==>
      !Failing(s.hist[k])
    ensures forall k :: 0 < k < |s.hist| && s.hist[k].phase == Connecting && Failing(s.hist[k - 1]) ==>
      Failing(s.hist[k])
  {
    ReachableIsOk(c, s);
  }

  /** Notices alternate, and whenever no callback is due there has been exactly one failure notice per streak. */
  lemma OneNoticePerStreak(c: Config, s: State)
    requires ConfigOk(c) && Reachable(c, s)
    ensures Alternates(s.app.log)
    ensures |s.hist| > 0
    ensures !Pending(s) ==> Failures(s.app.log) == Streaks(s.hist)
    ensures !Pending(s) && s.Cur().phase != Stopped ==> (s.app.notified <==> Failing(s.Cur()))
  {
    ReachableIsOk(c, s);
  }

  /** The delay is min(2^waits s, cap); the default cap makes n >= 5 timed waits cost at least 31 + 30 (n - 5) s. */
  lemma DelayIsExponential(c: Config, s: State)
    requires ConfigOk(c) && Reachable(c, s)
    ensures s.mt.back.delay == Min(Pow2(s.mt.back.waits) * SECOND, c.maxRetryDelay)
    ensures SECOND <= s.mt.back.delay <= c.maxRetryDelay
    ensures c.maxRetryDelay == 30 * SECOND && s.mt.back.timed >= 5
            ==> s.mt.back.slept >= 31 * SECOND + 30 * SECOND * (s.mt.back.timed - 5)
  {
    ReachableIsOk(c, s);
    DelayBounds(c.maxRetryDelay, s.mt.back.waits);
    if c.maxRetryDelay == 30 * SECOND && s.mt.back.timed >= 5 { DefaultTotal(s.mt.back.timed); }
  }

  /** A step that entitles maintain to dial again: the end of a wait, or of a connection that lived stableAfter. */
  predicate EarnsDial(c: Config, s: State, a: Act) {
    && a.MaintStep? && !s.mt.cb
    && match s.mt.pc
       case MWait(entered) => (a.ma == WaitRetry && s.sig.retry)
           || (a.ma == WaitTimer && s.now >= entered + s.mt.back.delay)
       case MAfter(since) => a.ma == MGo && s.now >= since + c.stableAfter
       case _ => false
  }

  /** Some step of the run from s earns a dial. */
  ghost predicate EarnedWithin(c: Config, s: State, acts: seq<Act>)
    decreases |acts|
  {
    && acts != [] && |s.hist| > 0 && Next(c, s, acts[0]).Some?
    && (EarnsDial(c, s, acts[0]) || EarnedWithin(c, Next(c, s, acts[0]).value, acts[1..]))
  }

  lemma RestIsEarned(c: Config, s: State, a: Act)
    requires ControlOk(s) && Next(c, s, a).Some?
    ensures var t := Next(c, s, a).value;
      && (!s.mt.back.rested && t.mt.back.rested ==> EarnsDial(c, s, a))
      && t.mt.back.dials >= s.mt.back.dials
  {
    if !a.MaintStep? { OthersLeaveMaint(c, s, a); }
  }

  lemma {:induction false} RunEarnsRest(c: Config, s: State, acts: seq<Act>, t: State)
    requires ConfigOk(c) && Inv(c, s) && Runs(c, s, acts, t)
    ensures !s.mt.back.rested && t.mt.back.rested ==> EarnedWithin(c, s, acts)
    ensures t.mt.back.dials >= s.mt.back.dials
    decreases |acts|
  {
    if acts != [] {
      RestIsEarned(c, s, acts[0]);
      StepKeepsInv(c, s, acts[0]);
      RunEarnsRest(c, Next(c, s, acts[0]).value, acts[1..], t);
    }
  }

  /** In every run, between the beginnings of two dials a wait ends or a connection ends that lived stableAfter. */
  lemma DialsAreEarned(c: Config, s: State, acts: seq<Act>, t: State)
    requires ConfigOk(c) && Reachable(c, s) && s.mt.pc == MPublishConnecting
    requires Runs(c, s, acts, t) && acts != [] && acts[0] == MaintStep(MGo) && t.mt.pc == MPublishConnecting
    ensures EarnedWithin(c, Next(c, s, acts[0]).value, acts[1..])
  {
    ReachableIsOk(c, s);
    var u := Next(c, s, acts[0]).value;
    StepKeepsInv(c, s, acts[0]);
    RunKeepsInv(c, u, acts[1..], t);
    RunEarnsRest(c, u, acts[1..], t);
  }
}
