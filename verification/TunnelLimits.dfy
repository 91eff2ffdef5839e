/** Where a request does sit out a wait: after a connection that was lost too soon, when the state is Connecting. */
module TunnelLimits {
  import opened Basics
  import opened TunnelModel
  import opened TunnelInvariants
  import opened TunnelTheorems

  /** A request is blocked on the current status while maintain waits. */
  ghost predicate BlockedDuringWait(s: State, h: ConnId) {
    && |s.hist| > 0 && h in s.cn.hs && s.cn.hs[h].HBlock? && s.cn.hs[h].snap.chan == s.Chan()
    && s.mt.pc.MWait? && !s.mt.cb
  }

  lemma Go(c: Config, s: State, a: Act) returns (t: State)
    requires Reachable(c, s) && |s.hist| > 0 && Next(c, s, a).Some?
    ensures t == Next(c, s, a).value && Reachable(c, t)
  {
    t := Next(c, s, a).value;
    StepIsReachable(c, s, a);
  }

  lemma Started(c: Config) returns (s: State)
    ensures Reachable(c, s)
    ensures s == Init().(life := Init().life.(start := TDone, lnOpen := true, wg := 2),
                         mt := Init().mt.(pc := MCheck), cn := Init().cn.(serve := VAccept))
  {
    assert Runs(c, Init(), [], Init());
    s := Go(c, Init(), StartStep(ListenOk));
  }

  /** Nothing has been accepted yet, nobody asked for a retry, and the tunnel is not stopped. */
  ghost predicate Untouched(s: State) {
    && |s.hist| > 0 && s.now == 0 && !s.sig.retry && !s.life.cancelled && s.life.lnOpen
    && s.cn == Conns(VAccept, map[], {}, {}, 0)
  }

  /** All hops come up, one after the other. */
  lemma DialledOnce(c: Config) returns (s: State)
    requires c.hops >= 1
    ensures Reachable(c, s) && Untouched(s) && s.Cur() == Status(Connecting, None, None)
    ensures s.mt.pc.MDialed? && |s.mt.pc.up| == c.hops && s.mt.pc.err.None? && !s.mt.cb
  {
    s := Started(c);
    s := Go(c, s, MaintStep(MGo));
    s := Go(c, s, MaintStep(MGo));
    while s.mt.pc.MDial?
      invariant Reachable(c, s) && Untouched(s) && s.Cur() == Status(Connecting, None, None) && !s.mt.cb
      invariant (s.mt.pc.MDial? && |s.mt.pc.up| < c.hops)
                || (s.mt.pc.MDialed? && |s.mt.pc.up| == c.hops && s.mt.pc.err.None?)
      decreases if s.mt.pc.MDial? then c.hops - |s.mt.pc.up| else 0
    {
      s := Go(c, s, MaintStep(HopUp));
    }
  }

  /** The chain is published. */
  lemma ConnectedOnce(c: Config) returns (s: State)
    requires c.hops >= 1
    ensures Reachable(c, s) && Untouched(s) && s.Cur().phase == Connected && s.Cur().err.None?
    ensures s.mt.pc.MWatch? && s.mt.pc.since == 0 && !s.mt.cb
  {
    s := DialledOnce(c);
    s := Go(c, s, MaintStep(MGo));
    s := Go(c, s, MaintStep(MGo));
    s := Go(c, s, MaintStep(MGo));
    s := Go(c, s, MaintStep(MaintCallback));
  }

  /** The connection is lost at once. */
  lemma LostAtOnce(c: Config) returns (s: State)
    requires c.hops >= 1
    ensures Reachable(c, s) && Untouched(s) && s.Cur() == Status(Connecting, None, None)
    ensures s.mt.pc.MClose? && s.mt.pc.since == 0 && !s.mt.cb
  {
    s := ConnectedOnce(c);
    s := Go(c, s, MaintStep(WatchLost));
    s := Go(c, s, MaintStep(MGo));
    s := Go(c, s, MaintStep(MaintCallback));
  }

  /** maintain closes the chain and then waits, in state Connecting. */
  lemma LostTooSoon(c: Config) returns (s: State)
    requires c.hops >= 1 && c.stableAfter > 0
    ensures Reachable(c, s) && Untouched(s) && s.Cur() == Status(Connecting, None, None)
    ensures s.mt.pc.MWait? && !s.mt.cb
  {
    s := LostAtOnce(c);
    while s.mt.pc.MClose?
      invariant Reachable(c, s) && Untouched(s) && s.Cur() == Status(Connecting, None, None) && !s.mt.cb
      invariant (s.mt.pc.MClose? || s.mt.pc.MAfter?) && s.mt.pc.since == 0
      decreases if s.mt.pc.MClose? then 1 + |s.mt.pc.up| else 0
    {
      s := Go(c, s, MaintStep(MGo));
    }
    s := Go(c, s, MaintStep(MGo));
  }

  lemma RequestArrives(c: Config, s0: State) returns (s: State)
    requires Reachable(c, s0) && Untouched(s0) && s0.Cur() == Status(Connecting, None, None)
    ensures Reachable(c, s) && s.hist == s0.hist && s.mt == s0.mt && s.sig == s0.sig
    ensures 0 in s.cn.hs && s.cn.hs[0] == HBlock(Snap(s.Cur(), s.Chan()), true, s.Chan(), s.Chan())
  {
    s := Go(c, s0, ServeStep(Accepts));
    s := Go(c, s, ServeStep(ServeGo));
    s := Go(c, s, HandlerStep(0, HGo));
    s := Go(c, s, HandlerStep(0, CallDial));
    s := Go(c, s, HandlerStep(0, HGo));
  }

  /** A run in which a request blocks during a wait and nothing will cut the wait short for it. */
  lemma RequestSitsOutTheWait(c: Config) returns (s: State)
    requires c.hops >= 1 && c.stableAfter > 0
    ensures Reachable(c, s) && BlockedDuringWait(s, 0) && s.Cur().phase == Connecting && !s.sig.retry
  {
    s := LostTooSoon(c);
    s := RequestArrives(c, s);
  }

  /**
   * A wait is cut short for every request that blocks during it exactly when the published state is Failed: of the
   * two states a wait can happen in, Failed guarantees the token and Connecting does not.
   */
  lemma WaitIsCutShortWhenFailed(c: Config, phase: Phase)
    requires ConfigOk(c) && c.stableAfter > 0 && phase in {Failed, Connecting}
    ensures (forall s, h :: Reachable(c, s) && BlockedDuringWait(s, h) && s.Cur().phase == phase ==> s.sig.retry)
            <==> phase == Failed
  {
    if phase == Failed {
      forall s, h | Reachable(c, s) && BlockedDuringWait(s, h) && s.Cur().phase == phase ensures s.sig.retry {
        NoLostWakeup(c, s, h);
      }
    } else {
      var s := RequestSitsOutTheWait(c);
      assert BlockedDuringWait(s, 0);
    }
  }
}
