/**
 * Stop is never stuck: from every reachable interleaving in which a Stop call
 * is under way, the goroutines of the tunnel alone can finish and let it return.
 */
module TunnelShutdown {
  import opened Basics
  import opened TunnelModel
  import opened TunnelInvariants
  import opened TunnelRequests
  import opened TunnelTheorems

  /** t follows s, and the Stop call `id` has not moved in between. */
  ghost predicate Drains(c: Config, s: State, acts: seq<Act>, t: State, id: nat) {
    Runs(c, s, acts, t) && Reachable(c, t) && Stopping(t, id)
  }

  /** The call waits on the WaitGroup, so everything is cancelled. */
  ghost predicate Stopping(s: State, id: nat) {
    |s.hist| > 0 && s.life.cancelled && id in s.life.stops && s.life.stops[id] == PWait
  }

  lemma Prepend(c: Config, s: State, a: Act, acts: seq<Act>, t: State)
    requires |s.hist| > 0 && Next(c, s, a).Some? && Runs(c, Next(c, s, a).value, acts, t)
    ensures Runs(c, s, [a] + acts, t)
  {
    assert ([a] + acts)[1..] == acts;
  }

  lemma {:induction false} Append(c: Config, s: State, acts: seq<Act>, t: State, acts': seq<Act>, u: State)
    requires Runs(c, s, acts, t) && Runs(c, t, acts', u)
    ensures Runs(c, s, acts + acts', u)
    decreases |acts|
  {
    if acts == [] {
      assert acts + acts' == acts';
    } else {
      assert (acts + acts')[0] == acts[0] && (acts + acts')[1..] == acts[1..] + acts';
      Append(c, Next(c, s, acts[0]).value, acts[1..], t, acts', u);
    }
  }

  lemma StillStopping(c: Config, s: State, a: Act, id: nat)
    requires ConfigOk(c) && Reachable(c, s) && Stopping(s, id) && Next(c, s, a).Some? && !a.StopStep?
    ensures Reachable(c, Next(c, s, a).value) && Stopping(Next(c, s, a).value, id)
  {
    StepIsReachable(c, s, a);
    OthersLeaveStops(c, s, a);
    StopsAreInOrder(c, Next(c, s, a).value, id);
  }

  lemma StopsAreInOrder(c: Config, s: State, id: nat)
    requires ConfigOk(c) && Reachable(c, s) && id in s.life.stops
    ensures |s.hist| > 0 && StoppedTo(s, s.life.stops[id])
  {
    ReachableIsOk(c, s);
  }

  // ---------------------------------------------------------------- maintain

  /** How far maintain is from returning once the context is cancelled. */
  function Ahead(pc: MaintPc): nat {
    match pc
    case MIdle => 0
    case MDone => 0
    case MReturn => 1
    case MCheck => 2
    case MWait(entered) => 2
    case MAfter(since) => 2
    case MAbort(up) => 2 + |up|
    case MClose(up, since) => 3 + |up|
    case MDialed(up, err) => 3 + |up|
    case MPublishFailed(e) => 3
    case MUnwind(up, e) => 4 + |up|
    case MUnpublish(up, since) => 4 + |up|
    case MDial(up) => 5 + |up|
    case MWatch(up, since) => 5 + |up|
    case MPublishConnecting => 6
    case MPublishConnected(up) => 6 + |up|
    case MDrain(up) => 7 + |up|
  }

  function MaintLeft(mt: Maint): nat {
    2 * Ahead(mt.pc) + One(mt.cb)
  }

  /** The step maintain takes towards its return. */
  function MaintExit(mt: Maint): MaintAct {
    if mt.cb then MaintCallback
    else match mt.pc
      case MDial(up) => HopFails(ERR_STOPPED)
      case MWait(entered) => WaitCancelled
      case MWatch(up, since) => WatchCancelled
      case _ => MGo
  }

  lemma GoAdvances(c: Config, s: State)
    requires ControlOk(s) && s.life.cancelled && Alive(s.mt.pc) && !s.mt.cb
    requires !s.mt.pc.MDial? && !s.mt.pc.MWait? && !s.mt.pc.MWatch?
    ensures MaintGo(c, s).Some? && MaintLeft(MaintGo(c, s).value.mt) < MaintLeft(s.mt)
  {
    match s.mt.pc
    case MUnwind(up, e) =>
    case MAbort(up) =>
    case MClose(up, since) =>
    case MDialed(up, err) =>
    case MPublishConnected(up) =>
    case _ =>
  }

  lemma MaintExitAdvances(c: Config, s: State)
    requires ControlOk(s) && s.life.cancelled && Alive(s.mt.pc)
    ensures MaintNext(c, s, MaintExit(s.mt)).Some?
    ensures MaintLeft(MaintNext(c, s, MaintExit(s.mt)).value.mt) < MaintLeft(s.mt)
  {
    if !s.mt.cb && !s.mt.pc.MDial? && !s.mt.pc.MWait? && !s.mt.pc.MWatch? { GoAdvances(c, s); }
  }

  lemma MaintExitStep(c: Config, s: State, id: nat) returns (a: Act, t: State)
    requires ConfigOk(c) && Reachable(c, s) && Stopping(s, id) && Alive(s.mt.pc)
    ensures Next(c, s, a) == Some(t) && Reachable(c, t) && Stopping(t, id)
    ensures MaintLeft(t.mt) < MaintLeft(s.mt)
  {
    ReachableIsOk(c, s);
    a := MaintStep(MaintExit(s.mt));
    MaintExitAdvances(c, s);
    t := MaintNext(c, s, MaintExit(s.mt)).value;
    StillStopping(c, s, a, id);
  }

  lemma {:induction false} MaintainCanReturn(c: Config, s: State, id: nat) returns (acts: seq<Act>, t: State)
    requires ConfigOk(c) && Reachable(c, s) && Stopping(s, id)
    ensures Drains(c, s, acts, t, id) && !Alive(t.mt.pc)
    decreases MaintLeft(s.mt)
  {
    if !Alive(s.mt.pc) { return [], s; }
    var a, u := MaintExitStep(c, s, id);
    acts, t := MaintainCanReturn(c, u, id);
    Prepend(c, s, a, acts, t);
    acts := [a] + acts;
  }

  // ---------------------------------------------------------------- the accept loop

  function ServeLeft(pc: ServePc): nat {
    match pc
    case VSpawn(conn) => 3
    case VAccept => 2
    case VReturn => 1
    case _ => 0
  }

  lemma ServeExitStep(c: Config, s: State, id: nat) returns (a: Act, t: State)
    requires ConfigOk(c) && Reachable(c, s) && Stopping(s, id) && Serving(s.cn.serve)
    ensures Next(c, s, a) == Some(t) && Reachable(c, t) && Stopping(t, id)
    ensures t.mt == s.mt && ServeLeft(t.cn.serve) < ServeLeft(s.cn.serve)
  {
    var va := if s.cn.serve == VAccept then AcceptFails else ServeGo;
    a := ServeStep(va);
    t := ServeNext(s, va).value;
    StillStopping(c, s, a, id);
  }

  lemma {:induction false} ServeCanReturn(c: Config, s: State, id: nat) returns (acts: seq<Act>, t: State)
    requires ConfigOk(c) && Reachable(c, s) && Stopping(s, id) && !Alive(s.mt.pc)
    ensures Drains(c, s, acts, t, id) && !Alive(t.mt.pc) && !Serving(t.cn.serve)
    decreases ServeLeft(s.cn.serve)
  {
    if !Serving(s.cn.serve) { return [], s; }
    var a, u := ServeExitStep(c, s, id);
    acts, t := ServeCanReturn(c, u, id);
    Prepend(c, s, a, acts, t);
    acts := [a] + acts;
  }

  // ---------------------------------------------------------------- handlers

  function HandlerLeft(pc: HandlerPc): nat {
    match pc
    case HTrack => 9
    case HSnap(attempted, seen, began) => 8
    case HNotify(snap, attempted, seen, began) => 7
    case HBlock(snap, attempted, seen, began) => 6
    case HReturn(client, err, at, began, cause) => 5
    case HServe => 4
    case HDialing(via) => 4
    case HReport(via) => 4
    case HRelay => 4
    case HUntrack => 3
    case HClose => 2
    case HExit => 1
  }

  function HandlerLeaves(pc: HandlerPc): HandlerAct {
    match pc
    case HServe => Finish
    case HRelay => Finish
    case HBlock(snap, attempted, seen, began) => Expired
    case HDialing(via) => TargetFails
    case _ => HGo
  }

  lemma HandlerLeavesAdvances(s: State, h: ConnId)
    requires RequestsOk(s) && |s.hist| > 0 && s.life.cancelled && h in s.cn.hs
    ensures HandlerNext(s, h, HandlerLeaves(s.cn.hs[h])).Some?
    ensures var t := HandlerNext(s, h, HandlerLeaves(s.cn.hs[h])).value;
      if s.cn.hs[h] == HExit then t.cn.hs == s.cn.hs - {h}
      else h in t.cn.hs && HandlerLeft(t.cn.hs[h]) < HandlerLeft(s.cn.hs[h])
  {
    assert RequestOk(s.hist, s.cn.hs[h]);
  }

  lemma HandlerFrame(s: State, h: ConnId, a: HandlerAct)
    requires |s.hist| > 0 && h in s.cn.hs && HandlerNext(s, h, a).Some?
    ensures var t := HandlerNext(s, h, a).value;
      t.mt == s.mt && t.cn.serve == s.cn.serve && t.cn.hs - {h} == s.cn.hs - {h}
  {
    if s.cn.hs[h] != HExit { HandlerMoves(s, h, a); }
  }

  /** One step of handler h on its way out. */
  lemma HandlerLeavesOnce(c: Config, s: State, id: nat, h: ConnId) returns (a: Act, t: State)
    requires ConfigOk(c) && Reachable(c, s) && Stopping(s, id) && h in s.cn.hs
    ensures Next(c, s, a) == Some(t) && Reachable(c, t) && Stopping(t, id)
    ensures t.mt == s.mt && t.cn.serve == s.cn.serve && t.cn.hs - {h} == s.cn.hs - {h}
    ensures if s.cn.hs[h] == HExit then h !in t.cn.hs
      else h in t.cn.hs && HandlerLeft(t.cn.hs[h]) < HandlerLeft(s.cn.hs[h])
  {
    a := HandlerStep(h, HandlerLeaves(s.cn.hs[h]));
    ReachableIsOk(c, s);
    HandlerLeavesAdvances(s, h);
    t := HandlerNext(s, h, HandlerLeaves(s.cn.hs[h])).value;
    HandlerFrame(s, h, HandlerLeaves(s.cn.hs[h]));
    StillStopping(c, s, a, id);
  }

  /** Handler h runs to its end; the others stay where they are. */
  lemma {:induction false} HandlerCanReturn(c: Config, s: State, id: nat, h: ConnId) returns (acts: seq<Act>, t: State)
    requires ConfigOk(c) && Reachable(c, s) && Stopping(s, id) && h in s.cn.hs
    ensures Drains(c, s, acts, t, id) && t.mt == s.mt && t.cn.serve == s.cn.serve
    ensures t.cn.hs == s.cn.hs - {h}
    decreases HandlerLeft(s.cn.hs[h])
  {
    var a, u := HandlerLeavesOnce(c, s, id, h);
    if s.cn.hs[h] == HExit {
      assert u.cn.hs == u.cn.hs - {h};
      acts, t := [], u;
    } else {
      acts, t := HandlerCanReturn(c, u, id, h);
    }
    Prepend(c, s, a, acts, t);
    acts := [a] + acts;
  }

  lemma {:induction false} HandlersCanReturn(c: Config, s: State, id: nat) returns (acts: seq<Act>, t: State)
    requires ConfigOk(c) && Reachable(c, s) && Stopping(s, id) && !Alive(s.mt.pc) && !Serving(s.cn.serve)
    ensures Drains(c, s, acts, t, id) && Quiet(t)
    decreases |s.cn.hs|
  {
    if s.cn.hs == map[] { return [], s; }
    var h :| h in s.cn.hs;
    var acts1, u := HandlerCanReturn(c, s, id, h);
    SizeAfterRemoval(s.cn.hs, h);
    var acts2;
    acts2, t := HandlersCanReturn(c, u, id);
    Append(c, s, acts1, u, acts2, t);
    acts := acts1 + acts2;
  }

  // ---------------------------------------------------------------- Stop itself

  /** Nothing but an unfinished goroutine blocks the caller. */
  predicate CallerFree(s: State, id: nat) {
    |s.hist| > 0 && id in s.life.stops && s.life.stops[id] != PDone && (s.life.stops[id] == PWait ==> s.life.wg == 0)
  }

  lemma CallerMoves(s: State, id: nat)
    requires CallerFree(s, id)
    ensures StopNext(s, id).Some?
    ensures var t := StopNext(s, id).value;
      id in t.life.stops && Rank(t.life.stops[id]) > Rank(s.life.stops[id]) && t.life.wg == s.life.wg
  {
  }

  lemma CallerStep(c: Config, s: State, id: nat) returns (t: State)
    requires ConfigOk(c) && Reachable(c, s) && CallerFree(s, id)
    ensures Next(c, s, StopStep(id)) == Some(t) && Reachable(c, t)
    ensures id in t.life.stops && Rank(t.life.stops[id]) > Rank(s.life.stops[id]) && t.life.wg == s.life.wg
  {
    CallerMoves(s, id);
    t := StopNext(s, id).value;
    StepIsReachable(c, s, StopStep(id));
  }

  /** The caller goes on until it has returned, or waits for the goroutines. */
  lemma {:induction false} CallerAdvances(c: Config, s: State, id: nat) returns (acts: seq<Act>, t: State)
    requires ConfigOk(c) && Reachable(c, s) && id in s.life.stops
    ensures Runs(c, s, acts, t) && Reachable(c, t) && |t.hist| > 0 && id in t.life.stops && !CallerFree(t, id)
    ensures t.life.wg == s.life.wg
    decreases Rank(PDone) - Rank(s.life.stops[id])
  {
    StopsAreInOrder(c, s, id);
    if !CallerFree(s, id) { return [], s; }
    var u := CallerStep(c, s, id);
    acts, t := CallerAdvances(c, u, id);
    Prepend(c, s, StopStep(id), acts, t);
    acts := [StopStep(id)] + acts;
  }

  /** All goroutines of the tunnel finish while the caller waits. */
  lemma GoroutinesCanReturn(c: Config, s: State, id: nat) returns (acts: seq<Act>, t: State)
    requires ConfigOk(c) && Reachable(c, s) && Stopping(s, id)
    ensures Drains(c, s, acts, t, id) && t.life.wg == 0
  {
    var acts1, s1 := MaintainCanReturn(c, s, id);
    var acts2, s2 := ServeCanReturn(c, s1, id);
    var acts3;
    acts3, t := HandlersCanReturn(c, s2, id);
    ReachableIsOk(c, t);
    Append(c, s1, acts2, s2, acts3, t);
    Append(c, s, acts1, s1, acts2 + acts3, t);
    acts := acts1 + (acts2 + acts3);
  }

  lemma WaitingStopCanReturn(c: Config, s: State, id: nat) returns (acts: seq<Act>, t: State)
    requires ConfigOk(c) && Reachable(c, s) && Stopping(s, id)
    ensures Runs(c, s, acts, t) && id in t.life.stops && t.life.stops[id] == PDone
  {
    var acts1, u := GoroutinesCanReturn(c, s, id);
    var acts2;
    acts2, t := CallerAdvances(c, u, id);
    Append(c, s, acts1, u, acts2, t);
    acts := acts1 + acts2;
  }

  /** No reachable interleaving leaves a Stop call that cannot return. */
  lemma StopCanAlwaysReturn(c: Config, s: State, id: nat)
    requires ConfigOk(c) && Reachable(c, s) && id in s.life.stops
    ensures exists acts, t :: Runs(c, s, acts, t) && id in t.life.stops && t.life.stops[id] == PDone
  {
    var acts1, u := CallerAdvances(c, s, id);
    if u.life.stops[id] == PWait {
      StopsAreInOrder(c, u, id);
      var acts2, t := WaitingStopCanReturn(c, u, id);
      Append(c, s, acts1, u, acts2, t);
    }
  }
}
