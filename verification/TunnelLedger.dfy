/** Which SSH clients are open at each point of maintain, and in what order they are closed. */
module TunnelLedger {
  import opened Basics
  import opened TunnelModel
  import opened TunnelInvariants

  /** The clients maintain still has to close at this point. */
  function Held(pc: MaintPc): seq<Client> {
    match pc
    case MDial(up) => up
    case MUnwind(up, e) => up
    case MDialed(up, err) => up
    case MAbort(up) => up
    case MDrain(up) => up
    case MPublishConnected(up) => up
    case MWatch(up, since) => up
    case MUnpublish(up, since) => up
    case MClose(up, since) => up
    case _ => []
  }

  /** Every client is held or closed; the held ones belong to the current dial, in hop order. */
  ghost predicate HeldOk(l: Ledger, up: seq<Client>, dials: nat) {
    && (forall j :: 0 <= j < |up| ==> up[j] < |l.chainOf| && l.chainOf[up[j]] == dials)
    && (forall i, j :: 0 <= i < j < |up| ==> up[i] < up[j])
    && (forall c :: 0 <= c < |l.chainOf| ==> c in up || c in l.closes)
    && (forall c :: 0 <= c < |l.chainOf| ==> l.chainOf[c] <= dials)
  }

  /** c has been closed and d not: if both are of one chain, c is the later hop. */
  predicate ClosedAfter(l: Ledger, c: Client, d: Client) {
    c < |l.chainOf| && d < |l.chainOf| && l.chainOf[c] == l.chainOf[d] ==> c > d
  }

  /** Within one chain clients are closed in decreasing order, after those still held. */
  ghost predicate ClosesOk(l: Ledger, up: seq<Client>) {
    && (forall i :: 0 <= i < |l.closes| ==> l.closes[i] < |l.chainOf|)
    && (forall i, j :: 0 <= i < j < |l.closes| && l.chainOf[l.closes[i]] == l.chainOf[l.closes[j]] ==>
      l.closes[i] > l.closes[j])
    && (forall i, j :: 0 <= i < |l.closes| && 0 <= j < |up| ==> ClosedAfter(l, l.closes[i], up[j]))
  }

  /** No client of the chain being dialled has been closed while it is still growing. */
  ghost predicate GrowingOk(l: Ledger, dials: nat) {
    forall i :: 0 <= i < |l.closes| && l.closes[i] < |l.chainOf| ==> l.chainOf[l.closes[i]] < dials
  }

  ghost predicate LedgerOk(mt: Maint) {
    && HeldOk(mt.led, Held(mt.pc), mt.back.dials)
    && ClosesOk(mt.led, Held(mt.pc))
    && (mt.pc.MDial? ==> GrowingOk(mt.led, mt.back.dials))
  }

  /** dialChain either has fewer clients than hops or hands over the whole chain. */
  predicate ChainOk(c: Config, pc: MaintPc) {
    match pc
    case MDial(up) => |up| < c.hops
    case MUnwind(up, e) => |up| < c.hops
    case MDialed(up, err) => |up| == if err.Some? then 0 else c.hops
    case MDrain(up) => |up| == c.hops
    case MPublishConnected(up) => |up| == c.hops
    case MWatch(up, since) => |up| == c.hops
    case MUnpublish(up, since) => |up| == c.hops
    case _ => |Held(pc)| <= c.hops
  }

  lemma OpenKeepsLedger(l: Ledger, up: seq<Client>, dials: nat)
    requires HeldOk(l, up, dials) && ClosesOk(l, up) && GrowingOk(l, dials)
    ensures HeldOk(OpenClient(l, dials), up + [|l.chainOf|], dials)
    ensures ClosesOk(OpenClient(l, dials), up + [|l.chainOf|])
    ensures GrowingOk(OpenClient(l, dials), dials)
  {
    var l', up' := OpenClient(l, dials), up + [|l.chainOf|];
    assert forall c :: 0 <= c < |l.chainOf| ==> l'.chainOf[c] == l.chainOf[c];
    forall c | 0 <= c < |l'.chainOf| ensures c in up' || c in l'.closes {
      if c < |l.chainOf| {
        assert c in up || c in l.closes;
      } else {
        assert up'[|up|] == c;
      }
    }
  }

  lemma CloseKeepsLedger(l: Ledger, up: seq<Client>, dials: nat)
    requires |up| > 0 && HeldOk(l, up, dials) && ClosesOk(l, up)
    ensures HeldOk(CloseClient(l, Last(up)), up[..|up| - 1], dials)
    ensures ClosesOk(CloseClient(l, Last(up)), up[..|up| - 1])
  {
    var l', up' := CloseClient(l, Last(up)), up[..|up| - 1];
    assert up == up' + [Last(up)];
    assert l'.closes[|l.closes|] == Last(up);
    forall c | 0 <= c < |l'.chainOf| ensures c in up' || c in l'.closes {
      assert c in up || c in l.closes;
    }
  }

  /** How one step of maintain moves the clients: it opens one, closes the last one held, starts a dial, or none. */
  datatype Move = Opens | Closes | Begins | Stays

  ghost predicate Moved(mt: Maint, mt': Maint, v: Move) {
    var up, up' := Held(mt.pc), Held(mt'.pc);
    match v
    case Opens =>
      mt.pc.MDial? && up' == up + [|mt.led.chainOf|] && mt'.led == OpenClient(mt.led, mt.back.dials)
          && mt'.back == mt.back
    case Closes =>
      |up| > 0 && up' == up[..|up| - 1] && mt'.led == CloseClient(mt.led, Last(up)) && mt'.back == mt.back
          && !mt'.pc.MDial?
    case Begins =>
      up == up' == [] && mt'.led == mt.led && mt'.back.dials == mt.back.dials + 1
    case Stays =>
      up' == up && mt'.led == mt.led && mt'.back.dials == mt.back.dials && (mt'.pc.MDial? ==> mt.pc.MDial?)
  }

  predicate Closing(pc: MaintPc) {
    pc.MUnwind? || pc.MAbort? || pc.MClose?
  }

  lemma ClosingMoves(c: Config, s: State)
    requires |s.hist| > 0 && Closing(s.mt.pc) && MaintGo(c, s).Some?
    ensures Moved(s.mt, MaintGo(c, s).value.mt, if Held(s.mt.pc) != [] then Closes else Stays)
  {
    match s.mt.pc
    case MUnwind(up, e) =>
    case MAbort(up) =>
    case MClose(up, since) =>
  }

  lemma GoMoves(c: Config, s: State) returns (v: Move)
    requires |s.hist| > 0 && PhaseAt(s.mt.pc, s.Cur()) && MaintGo(c, s).Some?
    ensures Moved(s.mt, MaintGo(c, s).value.mt, v)
  {
    if Closing(s.mt.pc) {
      ClosingMoves(c, s);
      return if Held(s.mt.pc) != [] then Closes else Stays;
    }
    match s.mt.pc
    case MPublishConnecting => return Begins;
    case MPublishConnected(up) => return Stays;
    case MPublishFailed(e) => return Stays;
    case MUnpublish(up, since) => return Stays;
    case _ => return Stays;
  }

  lemma DialMoves(c: Config, s: State, a: MaintAct, up: seq<Client>)
    requires |s.hist| > 0 && s.mt.pc == MDial(up) && DialNext(c, s, a, up).Some?
    ensures Moved(s.mt, DialNext(c, s, a, up).value.mt, if a == HopUp then Opens else Stays)
  {
  }

  lemma MaintMoves(c: Config, s: State, a: MaintAct) returns (v: Move)
    requires |s.hist| > 0 && PhaseAt(s.mt.pc, s.Cur()) && MaintNext(c, s, a).Some?
    ensures Moved(s.mt, MaintNext(c, s, a).value.mt, v)
  {
    if s.mt.cb { return Stays; }
    match s.mt.pc
    case MDial(up) =>
      DialMoves(c, s, a, up);
      return if a == HopUp then Opens else Stays;
    case MWait(entered) => return Stays;
    case MWatch(up, since) => return Stays;
    case _ => v := GoMoves(c, s);
  }

  lemma MoveKeepsLedger(mt: Maint, mt': Maint, v: Move)
    requires LedgerOk(mt) && Moved(mt, mt', v)
    ensures LedgerOk(mt')
  {
    match v
    case Opens => OpenKeepsLedger(mt.led, Held(mt.pc), mt.back.dials);
    case Closes => CloseKeepsLedger(mt.led, Held(mt.pc), mt.back.dials);
    case Begins =>
    case Stays =>
  }

  lemma ChainByMaint(c: Config, s: State, a: MaintAct)
    requires ConfigOk(c) && |s.hist| > 0 && ChainOk(c, s.mt.pc) && MaintNext(c, s, a).Some?
    ensures ChainOk(c, MaintNext(c, s, a).value.mt.pc)
  {
  }

  lemma OthersLeaveMaint(c: Config, s: State, a: Act)
    requires |s.hist| > 0 && Next(c, s, a).Some? && !a.MaintStep?
    ensures var t := Next(c, s, a).value;
      t.mt == s.mt || (a.StartStep? && s.life.start.TNew? && t.mt == s.mt.(pc := MCheck))
  {
    match a
    case HandlerStep(conn, ha) => if s.cn.hs[conn] != HExit { HandlerMoves(s, conn, ha); }
    case _ =>
  }

  lemma LedgerKept(c: Config, s: State, a: Act)
    requires ConfigOk(c) && ControlOk(s) && LedgerOk(s.mt) && ChainOk(c, s.mt.pc) && Next(c, s, a).Some?
    ensures LedgerOk(Next(c, s, a).value.mt) && ChainOk(c, Next(c, s, a).value.mt.pc)
  {
    if a.MaintStep? {
      var v := MaintMoves(c, s, a.ma);
      MoveKeepsLedger(s.mt, MaintNext(c, s, a.ma).value.mt, v);
      ChainByMaint(c, s, a.ma);
    } else {
      OthersLeaveMaint(c, s, a);
    }
  }
}
