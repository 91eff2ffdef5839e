/** Failure streaks of the published status, and the notices App shows for them. */
module TunnelNotices {
  import opened Basics
  import opened TunnelModel
  import opened TunnelInvariants

  /** A streak runs from a Failed to the next Connected or Stopped. */
  function InStreak(hist: seq<Status>): bool {
    if hist == [] then false
    else match Last(hist).phase
      case Failed => true
      case Connecting => InStreak(hist[..|hist| - 1])
      case _ => false
  }

  /** How many streaks have begun. */
  function Streaks(hist: seq<Status>): nat {
    if hist == [] then 0
    else Streaks(hist[..|hist| - 1]) + if InStreak(hist) && !InStreak(hist[..|hist| - 1]) then 1 else 0
  }

  function Failures(log: seq<Notice>): nat {
    if log == [] then 0 else Failures(log[..|log| - 1]) + if Last(log) == Failure then 1 else 0
  }

  /** Failure and recovery alternate; a stop starts afresh. */
  predicate Alternates(log: seq<Notice>) {
    && (forall i :: 0 <= i < |log| && log[i] == Recovery ==> i > 0 && log[i - 1] == Failure)
    && (forall i :: 0 < i < |log| && log[i] == Failure ==> log[i - 1] != Failure)
  }

  predicate Pending(s: State) {
    s.mt.cb || s.life.start.TCallback?
  }

  ghost predicate StopPending(s: State) {
    exists id :: id in s.life.stops && s.life.stops[id] == PCallback
  }

  /** The history up to the last status whose callback has run. */
  function Seen(s: State): seq<Status>
    requires |s.hist| > 0
  {
    if Pending(s) then s.hist[..|s.hist| - 1] else s.hist
  }

  ghost predicate NoticesOk(s: State) {
    && |s.hist| > 0
    && Alternates(s.app.log)
    && (s.app.notified <==> |s.app.log| > 0 && Last(s.app.log) == Failure)
    && Failing(s.Cur()) == InStreak(s.hist)
    && (forall k :: 0 < k < |s.hist| && s.hist[k].phase == Connecting ==> Failing(s.hist[k]) == Failing(s.hist[k - 1]))
    && Failures(s.app.log) == Streaks(Seen(s))
    && (Pending(s) ==> |s.hist| > 1 && s.Cur().phase != Stopped && !StopPending(s))
    && (s.Cur().phase != Stopped ==> s.app.notified == InStreak(Seen(s)))
    && (s.Cur().phase == Stopped ==> StopPending(s) || !s.app.notified)
  }

  lemma StreakStep(hist: seq<Status>, next: Status)
    ensures InStreak(hist + [next]) == (next.phase == Failed || (next.phase == Connecting && InStreak(hist)))
    ensures Streaks(hist + [next]) == Streaks(hist) + One(next.phase == Failed && !InStreak(hist))
  {
    assert (hist + [next])[..|hist|] == hist;
  }

  lemma FailureStep(log: seq<Notice>, n: Notice)
    ensures Failures(log + [n]) == Failures(log) + One(n == Failure)
  {
    assert (log + [n])[..|log|] == log;
  }

  /** Publishing outside Stop keeps everything, whether or not a callback follows. */
  lemma PublishKeepsNotices(s: State, t: State, phase: Phase, err: Option<Error>, client: Option<Client>)
    requires HistOk(s) && NoticesOk(s) && !Pending(s) && !StopPending(s) && !StopPending(t)
    requires s.Cur().phase != Stopped && phase != Stopped
    requires phase == Failed ==> err.Some?
    requires phase == Connecting ==> err.None? && (s.Cur().phase == Connecting ==> Clean(s.Cur()))
    requires t.hist == Publish(s.hist, phase, err, client) && t.app == s.app
    requires Pending(t) == Announced(t.hist)
    ensures NoticesOk(t)
  {
    StreakStep(s.hist, Successor(s.Cur(), phase, err, client));
    assert t.hist[..|t.hist| - 1] == s.hist;
    assert StatusOk(s.Cur());
  }

  /** The notices shown so far, and whether the last one was a failure. */
  ghost predicate LogOk(app: Notices) {
    Alternates(app.log) && (app.notified <==> |app.log| > 0 && Last(app.log) == Failure)
  }

  /** What the callback adds for a status other than Stopped. */
  lemma CallbackShows(app: Notices, st: Status)
    requires LogOk(app) && st.phase != Stopped
    ensures var app' := OnChange(app, st);
      && LogOk(app')
      && Failures(app'.log) == Failures(app.log) + One(st.phase == Failed && !app.notified)
      && app'.notified == (st.phase == Failed || (st.phase == Connecting && app.notified))
  {
    match st.phase
    case Failed =>
      FailureStep(app.log, Failure);
      if !app.notified { AlternatesOn(app.log, Failure); }
    case Connected =>
      FailureStep(app.log, Recovery);
      if app.notified { AlternatesOn(app.log, Recovery); }
    case Connecting =>
  }

  lemma AlternatesOn(log: seq<Notice>, n: Notice)
    requires Alternates(log)
    requires n == Recovery ==> log != [] && Last(log) == Failure
    requires n == Failure ==> log == [] || Last(log) != Failure
    ensures Alternates(log + [n])
  {
    var more := log + [n];
    assert forall i :: 0 <= i < |log| ==> more[i] == log[i];
  }

  /** The callback catches up with the status it was due for. */
  lemma CallbackKeepsNotices(s: State, t: State)
    requires HistOk(s) && NoticesOk(s) && Pending(s) && !Pending(t)
    requires t.hist == s.hist && t.app == OnChange(s.app, s.Cur()) && t.life.stops == s.life.stops
    ensures NoticesOk(t)
  {
    var before := Seen(s);
    StreakStep(before, s.Cur());
    assert s.hist == before + [s.Cur()];
    CallbackShows(s.app, s.Cur());
  }

  lemma NoticesByStart(s: State, a: StartAct)
    requires ControlOk(s) && NoticesOk(s) && StartNext(s, a).Some?
    ensures NoticesOk(StartNext(s, a).value)
  {
    var t := StartNext(s, a).value;
    match s.life.start
    case TPublish(e) => PublishKeepsNotices(s, t, Failed, Some(e), None);
    case TCallback => CallbackKeepsNotices(s, t);
    case _ =>
  }

  lemma NotStopping(s: State)
    requires ControlOk(s) && (Alive(s.mt.pc) || s.life.start != TDone)
    ensures !StopPending(s) && s.Cur().phase != Stopped
  {
  }

  /** The statuses maintain publishes. */
  lemma MaintPublishes(c: Config, s: State, a: MaintAct)
    requires |s.hist| > 0 && !s.mt.cb && MaintNext(c, s, a).Some?
    ensures var t := MaintNext(c, s, a).value;
      || (t.hist == s.hist && !t.mt.cb)
      || (|t.hist| == |s.hist| + 1 && t.mt.cb == Announced(t.hist)
          && ((s.mt.pc.MPublishFailed? && t.hist == Publish(s.hist, Failed, Some(s.mt.pc.e), None))
              || (s.mt.pc.MPublishConnected? && |s.mt.pc.up| > 0
                  && t.hist == Publish(s.hist, Connected, None, Some(Last(s.mt.pc.up))))
              || ((s.mt.pc.MPublishConnecting? || s.mt.pc.MUnpublish?)
                  && t.hist == Publish(s.hist, Connecting, None, None))))
  {
    match s.mt.pc
    case MPublishFailed(e) =>
    case MPublishConnected(up) =>
    case MPublishConnecting =>
    case MUnpublish(up, since) =>
    case _ =>
  }

  lemma MaintNotices(c: Config, s: State, a: MaintAct)
    requires |s.hist| > 0 && MaintNext(c, s, a).Some?
    ensures var t := MaintNext(c, s, a).value;
      if s.mt.cb then t.hist == s.hist && !t.mt.cb && t.app == OnChange(s.app, s.Cur())
      else t.app == s.app
  {
  }

  lemma NoticesByMaint(c: Config, s: State, a: MaintAct)
    requires ControlOk(s) && NoticesOk(s) && MaintNext(c, s, a).Some?
    ensures NoticesOk(MaintNext(c, s, a).value)
  {
    var t := MaintNext(c, s, a).value;
    MaintPcMoves(c, s, a);
    MaintFrame(c, s, a);
    MaintNotices(c, s, a);
    NotStopping(s);
    if s.mt.cb {
      CallbackKeepsNotices(s, t);
    } else {
      MaintPublishes(c, s, a);
      if t.hist != s.hist {
        match s.mt.pc
        case MPublishFailed(e) => PublishKeepsNotices(s, t, Failed, Some(e), None);
        case MPublishConnected(up) => PublishKeepsNotices(s, t, Connected, None, Some(Last(up)));
        case _ => PublishKeepsNotices(s, t, Connecting, None, None);
      }
    }
  }

  /** What publishing Stopped changes. */
  lemma PublishStoppedDoes(s: State, id: nat)
    requires |s.hist| > 0 && id in s.life.stops && s.life.stops[id] == PPublish
    ensures var t := StopNext(s, id).value;
      && t.hist == Publish(s.hist, Stopped, None, None) && t.app == s.app && t.mt == s.mt
      && t.life.start == s.life.start && Pending(t) == Pending(s)
      && (StopPending(s) || Announced(t.hist) ==> StopPending(t))
  {
    var t := StopNext(s, id).value;
    if Announced(t.hist) {
      assert t.life.stops[id] == PCallback;
    } else if StopPending(s) {
      var k :| k in s.life.stops && s.life.stops[k] == PCallback;
      assert k in t.life.stops && t.life.stops[k] == PCallback;
    }
  }

  lemma StoppedKeepsNotices(s: State, t: State)
    requires HistOk(s) && NoticesOk(s) && !Pending(s) && !Pending(t)
    requires t.hist == Publish(s.hist, Stopped, None, None) && t.app == s.app
    requires StopPending(s) || Announced(t.hist) ==> StopPending(t)
    ensures NoticesOk(t)
  {
    StreakStep(s.hist, t.Cur());
    assert t.hist[..|t.hist| - 1] == s.hist;
  }

  lemma PublishStoppedKeepsNotices(s: State, id: nat)
    requires ControlOk(s) && NoticesOk(s) && id in s.life.stops && s.life.stops[id] == PPublish
    ensures NoticesOk(StopNext(s, id).value)
  {
    assert StoppedTo(s, s.life.stops[id]);
    PublishStoppedDoes(s, id);
    StoppedKeepsNotices(s, StopNext(s, id).value);
  }

  lemma StopCallbackKeepsNotices(s: State, id: nat)
    requires ControlOk(s) && NoticesOk(s) && id in s.life.stops && s.life.stops[id] == PCallback
    ensures NoticesOk(StopNext(s, id).value)
  {
    var t := StopNext(s, id).value;
    assert StoppedTo(s, s.life.stops[id]);
    assert t.hist == s.hist && t.app == Notices(false, s.app.log + [Forgotten]) && Pending(t) == Pending(s);
    FailureStep(s.app.log, Forgotten);
    AlternatesOn(s.app.log, Forgotten);
  }

  lemma NoticesFrame(s: State, t: State)
    requires |s.hist| > 0 && NoticesOk(s)
    requires t.hist == s.hist && t.app == s.app && Pending(t) == Pending(s) && StopPending(t) == StopPending(s)
    ensures NoticesOk(t)
  {
  }

  /** A Stop caller that neither publishes nor calls back moves no callback. */
  lemma StopMoves(s: State, id: nat)
    requires |s.hist| > 0 && StopNext(s, id).Some?
    requires id in s.life.stops ==> s.life.stops[id] != PPublish && s.life.stops[id] != PCallback
    ensures var t := StopNext(s, id).value;
      && t.hist == s.hist && t.app == s.app && t.mt == s.mt && t.life.start == s.life.start
      && StopPending(t) == StopPending(s)
  {
    var t := StopNext(s, id).value;
    assert id in t.life.stops && t.life.stops == s.life.stops[id := t.life.stops[id]] && t.life.stops[id] != PCallback;
    if StopPending(s) {
      var k :| k in s.life.stops && s.life.stops[k] == PCallback;
      assert k in t.life.stops && t.life.stops[k] == PCallback;
    }
  }

  lemma NoticesByStop(s: State, id: nat)
    requires ControlOk(s) && NoticesOk(s) && StopNext(s, id).Some?
    ensures NoticesOk(StopNext(s, id).value)
  {
    if id in s.life.stops && s.life.stops[id] == PPublish {
      PublishStoppedKeepsNotices(s, id);
    } else if id in s.life.stops && s.life.stops[id] == PCallback {
      StopCallbackKeepsNotices(s, id);
    } else {
      StopMoves(s, id);
      NoticesFrame(s, StopNext(s, id).value);
    }
  }

  lemma OthersLeaveNotices(c: Config, s: State, a: Act)
    requires |s.hist| > 0 && Next(c, s, a).Some?
    requires !a.StartStep? && !a.MaintStep? && !a.StopStep?
    ensures var t := Next(c, s, a).value;
      && t.hist == s.hist && t.app == s.app && t.mt == s.mt
      && t.life.start == s.life.start && t.life.stops == s.life.stops
  {
    if a.HandlerStep? && s.cn.hs[a.conn] != HExit { HandlerMoves(s, a.conn, a.ha); }
  }

  lemma NoticesKept(c: Config, s: State, a: Act)
    requires ControlOk(s) && NoticesOk(s) && Next(c, s, a).Some?
    ensures NoticesOk(Next(c, s, a).value)
  {
    match a
    case StartStep(sa) => NoticesByStart(s, sa);
    case MaintStep(ma) => NoticesByMaint(c, s, ma);
    case StopStep(id) => NoticesByStop(s, id);
    case _ =>
      OthersLeaveNotices(c, s, a);
      NoticesFrame(s, Next(c, s, a).value);
  }
}
