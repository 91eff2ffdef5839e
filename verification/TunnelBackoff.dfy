/** The retry delay of maintain: its exact value, the time it costs, and what separates two dials. */
module TunnelBackoff {
  import opened Basics
  import opened TunnelModel
  import opened TunnelInvariants
  import opened TunnelLedger

  function Pow2(k: nat): nat {
    if k == 0 then 1 else 2 * Pow2(k - 1)
  }

  /** The delay after k waits since the last reset. */
  function DelayAfter(cap: nat, k: nat): nat {
    if Pow2(k) * SECOND < cap then Pow2(k) * SECOND else cap
  }

  /** The first n delays added up. */
  function TotalDelay(cap: nat, n: nat): nat {
    if n == 0 then 0 else TotalDelay(cap, n - 1) + DelayAfter(cap, n - 1)
  }

  lemma {:induction false} Pow2Monotone(i: nat, j: nat)
    requires i <= j
    ensures Pow2(i) <= Pow2(j)
    decreases j
  {
    if i < j { Pow2Monotone(i, j - 1); }
  }

  lemma DelayMonotone(cap: nat, i: nat, j: nat)
    requires i <= j
    ensures DelayAfter(cap, i) <= DelayAfter(cap, j)
  {
    Pow2Monotone(i, j);
  }

  lemma DelayBounds(cap: nat, k: nat)
    requires cap >= SECOND
    ensures SECOND <= DelayAfter(cap, k) <= cap
  {
    Pow2Monotone(0, k);
  }

  /** Doubling with the cap follows the closed form. */
  lemma DelayDoubles(cap: nat, k: nat)
    requires cap >= SECOND
    ensures DelayAfter(cap, k + 1) == if DelayAfter(cap, k) * 2 < cap then DelayAfter(cap, k) * 2 else cap
  {
  }

  ghost predicate BackoffOk(c: Config, b: Backoff) {
    && b.delay == DelayAfter(c.maxRetryDelay, b.waits)
    && b.timed <= b.waits
    && b.slept >= TotalDelay(c.maxRetryDelay, b.timed)
  }

  /** A new dial has to be earned: by a completed wait, or by a connection that lived long enough. */
  ghost predicate Earned(mt: Maint) {
    (mt.pc == MCheck || mt.pc == MPublishConnecting) && mt.back.dials > 0 ==> mt.back.rested
  }

  lemma WaitKeepsBackoff(c: Config, b: Backoff, elapsed: nat)
    requires ConfigOk(c) && BackoffOk(c, b)
    ensures BackoffOk(c, EndWait(c, b))
    ensures elapsed >= b.delay ==> BackoffOk(c, EndTimedWait(c, b, elapsed))
  {
    DelayDoubles(c.maxRetryDelay, b.waits);
    DelayMonotone(c.maxRetryDelay, b.timed, b.waits);
  }

  /** The four ways a step of maintain treats the delay. */
  lemma BackoffMoves(c: Config, s: State, a: MaintAct)
    requires |s.hist| > 0 && MaintNext(c, s, a).Some?
    ensures var b, b' := s.mt.back, MaintNext(c, s, a).value.mt.back;
      || b' == b
      || b' == EndWait(c, b)
      || (s.mt.pc.MWait? && s.now >= s.mt.pc.entered + b.delay && b' == EndTimedWait(c, b, s.now - s.mt.pc.entered))
      || b' == ResetDelay(b)
      || b' == b.(dials := b.dials + 1, rested := false)
  {
  }

  lemma EarnedByMaint(c: Config, s: State, a: MaintAct)
    requires |s.hist| > 0 && Earned(s.mt) && MaintNext(c, s, a).Some?
    ensures Earned(MaintNext(c, s, a).value.mt)
  {
  }

  lemma BackoffKept(c: Config, s: State, a: Act)
    requires ConfigOk(c) && ControlOk(s) && BackoffOk(c, s.mt.back) && Earned(s.mt) && Next(c, s, a).Some?
    requires s.mt.pc == MIdle ==> s.mt.back.dials == 0
    ensures BackoffOk(c, Next(c, s, a).value.mt.back) && Earned(Next(c, s, a).value.mt)
    ensures Next(c, s, a).value.mt.pc == MIdle ==> Next(c, s, a).value.mt.back.dials == 0
  {
    if a.MaintStep? {
      BackoffMoves(c, s, a.ma);
      EarnedByMaint(c, s, a.ma);
      MaintPcMoves(c, s, a.ma);
      WaitKeepsBackoff(c, s.mt.back, if s.mt.pc.MWait? && s.now >= s.mt.pc.entered then s.now - s.mt.pc.entered else 0);
      Pow2Monotone(0, 0);
    } else {
      OthersLeaveMaint(c, s, a);
    }
  }

  /** With the default cap, n timer-expired waits since a reset cost 1+2+4+8+16 s and then 30 s each. */
  lemma {:induction false} DefaultTotal(n: nat)
    requires n >= 5
    ensures TotalDelay(30 * SECOND, n) == 31 * SECOND + 30 * SECOND * (n - 5)
    decreases n
  {
    if n == 5 {
      assert Pow2(4) == 16;
      assert TotalDelay(30 * SECOND, 1) == SECOND;
      assert TotalDelay(30 * SECOND, 2) == 3 * SECOND;
      assert TotalDelay(30 * SECOND, 3) == 7 * SECOND;
      assert TotalDelay(30 * SECOND, 4) == 15 * SECOND;
    } else {
      DefaultTotal(n - 1);
      assert Pow2(5) == 32;
      Pow2Monotone(5, n - 1);
    }
  }
}
