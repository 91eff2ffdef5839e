/** The relay: two copy loops and the goroutine that waits for them, interleaved step by step. */
module Relay {
  import opened Basics

  /**
   * What the relay works on. `sent` has already been written to the target and `answered` to the client, `early` is
   * what the client sent ahead and the reader has buffered, `client` and `target` are what each connection will deliver
   * until it ends.
   */
  datatype Flow = Flow(sent: string, answered: string, early: string, client: string, target: string)

  /** The buffer of io.Copy. */
  const COPY: nat := 32768

  datatype Status = Off | Copying | AtEnd | Broken | Closed(ok: bool)

  /** One copy loop: how much it has read, what it has read and not written, what it has written. */
  datatype Pipe = Pipe(read: nat, holding: string, out: string, status: Status)

  datatype Act =
    | Read(n: nat)       // n more bytes arrive
    | Write(k: nat)      // k of the bytes held are accepted, all of them or the write fails
    | End                // the source ends
    | Break              // the source fails, or a connection is closed under the loop
    | Finish             // CloseWrite on the destination, and the result goes into the channel

  predicate PipeCan(src: string, p: Pipe, a: Act) {
    match a
    case Read(n) => p.status.Copying? && p.holding == "" && 1 <= n <= COPY && p.read + n <= |src|
    case Write(k) => p.status.Copying? && p.holding != "" && k <= |p.holding|
    case End => p.status.Copying? && p.holding == "" && p.read == |src|
    case Break => p.status.Copying?
    case Finish => p.status.AtEnd? || p.status.Broken?
  }

  function PipeDo(src: string, p: Pipe, a: Act): Pipe
    requires PipeCan(src, p, a)
  {
    match a
    case Read(n) => p.(read := p.read + n, holding := src[p.read..p.read + n])
    case Write(k) =>
      if k == |p.holding| then p.(out := p.out + p.holding, holding := "")
      else p.(out := p.out + p.holding[..k], status := Broken)
    case End => p.(status := AtEnd)
    case Break => p.(status := Broken)
    case Finish => p.(status := Closed(p.status.AtEnd?))
  }

  datatype Phase = Early | Waiting(left: int) | Returned(ok: bool)

  /** `flushed` is what was written of the bytes sent ahead; `results` is the channel errc. */
  datatype State = State(phase: Phase, flushed: string, up: Pipe, down: Pipe, results: seq<bool>)

  datatype Action =
    | Flush(k: nat)      // the bytes sent ahead are written, or k of them and the write fails
    | Up(a: Act)
    | Down(a: Act)
    | Receive            // one result is taken from the channel

  const IDLE := Pipe(0, "", "", Off)

  const START := State(Early, "", IDLE, IDLE, [])

  predicate Can(f: Flow, s: State, a: Action) {
    match a
    case Flush(k) => s.phase.Early? && k <= |f.early|
    case Up(b) => !s.phase.Early? && PipeCan(f.client, s.up, b)
    case Down(b) => !s.phase.Early? && PipeCan(f.target, s.down, b)
    case Receive => s.phase.Waiting? && s.results != []
  }

  function Report(results: seq<bool>, p: Pipe, a: Act): seq<bool> {
    if a.Finish? then results + [p.status.AtEnd?] else results
  }

  function Do(f: Flow, s: State, a: Action): State
    requires Can(f, s, a)
  {
    match a
    case Flush(k) =>
      if k == |f.early| then
        s.(phase := Waiting(2), flushed := f.early, up := s.up.(status := Copying), down := s.down.(status := Copying))
      else s.(phase := Returned(false), flushed := f.early[..k])
    case Up(b) => s.(up := PipeDo(f.client, s.up, b), results := Report(s.results, s.up, b))
    case Down(b) => s.(down := PipeDo(f.target, s.down, b), results := Report(s.results, s.down, b))
    case Receive =>
      var phase := if !s.results[0] then Returned(false) else if s.phase.left == 1 then Returned(true)
                   else Waiting(s.phase.left - 1);
      s.(phase := phase, results := s.results[1..])
  }

  /** The state after a run, if the run is possible. */
  function After(f: Flow, run: seq<Action>): Option<State>
    decreases |run|
  {
    if run == [] then Some(START)
    else
      var s :- After(f, run[..|run| - 1]);
      if Can(f, s, Last(run)) then Some(Do(f, s, Last(run))) else None
  }

  // ---------------------------------------------------------------- what every step keeps

  /** What was written is the beginning of the source; nothing is lost while the loop has not failed. */
  predicate PipeOk(src: string, p: Pipe) {
    && p.read <= |src| && p.out <= src[..p.read]
    && (p.status.Copying? ==> p.out + p.holding == src[..p.read])
    && (p.status.AtEnd? || p.status == Closed(true) ==> p.out == src)
  }

  function Count(p: Pipe, ok: bool): nat {
    if p.status == Closed(ok) then 1 else 0
  }

  function CountIn(results: seq<bool>, ok: bool): nat {
    if results == [] then 0 else (if Last(results) == ok then 1 else 0) + CountIn(results[..|results| - 1], ok)
  }

  /** Results reported and results received; the channel of two never makes a loop wait. */
  predicate ResultsOk(s: State) {
    match s.phase
    case Early => s.results == []
    case Waiting(left) =>
      && 1 <= left <= 2
      && CountIn(s.results, false) == Count(s.up, false) + Count(s.down, false)
      && CountIn(s.results, true) + (2 - left) == Count(s.up, true) + Count(s.down, true)
    case Returned(ok) => ok ==> s.up.status == Closed(true) && s.down.status == Closed(true)
  }

  predicate StateOk(f: Flow, s: State) {
    && PipeOk(f.client, s.up) && PipeOk(f.target, s.down) && ResultsOk(s)
    && s.flushed <= f.early
    && (s.phase.Early? ==> s.flushed == "" && s.up.status.Off?)
    && (s.phase.Waiting? ==> !s.up.status.Off? && !s.down.status.Off?)
    && (if s.up.status.Off? then s.up == s.down == IDLE else s.flushed == f.early && !s.down.status.Off?)
  }

  lemma PipeStep(src: string, p: Pipe, a: Act)
    requires PipeOk(src, p) && PipeCan(src, p, a)
    ensures PipeOk(src, PipeDo(src, p, a))
  {
    match a
    case Read(n) => assert src[..p.read] + src[p.read..p.read + n] == src[..p.read + n];
    case Write(k) =>
      assert src[..p.read] == p.out + p.holding;
      assert p.out + p.holding[..k] <= src[..p.read];
      assert p.out + p.holding + "" == p.out + p.holding;
    case End =>
      assert p.out + "" == p.out;
    case _ =>
  }

  lemma CountMore(results: seq<bool>, r: bool, ok: bool)
    ensures CountIn(results + [r], ok) == CountIn(results, ok) + if r == ok then 1 else 0
  {
    assert (results + [r])[..|results|] == results;
  }

  lemma {:induction false} CountFirst(results: seq<bool>, ok: bool)
    requires results != []
    ensures CountIn(results, ok) == CountIn(results[1..], ok) + if results[0] == ok then 1 else 0
    decreases |results|
  {
    if |results| > 1 {
      var init := results[..|results| - 1];
      CountFirst(init, ok);
      assert results[1..][..|results| - 2] == init[1..];
    }
  }

  lemma ReportKeepsCounts(results: seq<bool>, src: string, p: Pipe, a: Act, ok: bool)
    requires PipeCan(src, p, a)
    ensures CountIn(Report(results, p, a), ok) + Count(p, ok) == CountIn(results, ok) + Count(PipeDo(src, p, a), ok)
  {
    CountMore(results, p.status.AtEnd?, ok);
  }

  lemma PipeMoves(f: Flow, s: State, a: Action)
    requires StateOk(f, s) && Can(f, s, a) && (a.Up? || a.Down?)
    ensures StateOk(f, Do(f, s, a))
  {
    var p, src := if a.Up? then s.up else s.down, if a.Up? then f.client else f.target;
    PipeStep(src, p, a.a);
    ReportKeepsCounts(s.results, src, p, a.a, true);
    ReportKeepsCounts(s.results, src, p, a.a, false);
  }

  lemma ResultReceived(f: Flow, s: State)
    requires StateOk(f, s) && Can(f, s, Receive)
    ensures StateOk(f, Do(f, s, Receive))
  {
    CountFirst(s.results, true);
    CountFirst(s.results, false);
  }

  lemma StepIsOk(f: Flow, s: State, a: Action)
    requires StateOk(f, s) && Can(f, s, a)
    ensures StateOk(f, Do(f, s, a))
  {
    match a
    case Up(_) => PipeMoves(f, s, a);
    case Down(_) => PipeMoves(f, s, a);
    case Receive => ResultReceived(f, s);
    case Flush(k) => FlushIsOk(f, s, k);
  }

  lemma FlushIsOk(f: Flow, s: State, k: nat)
    requires StateOk(f, s) && Can(f, s, Flush(k))
    ensures StateOk(f, Do(f, s, Flush(k)))
  {
  }

  lemma {:induction false} RunIsOk(f: Flow, run: seq<Action>)
    ensures After(f, run).Some? ==> StateOk(f, After(f, run).value)
    decreases |run|
  {
    if run != [] {
      RunIsOk(f, run[..|run| - 1]);
      var s := After(f, run[..|run| - 1]);
      if s.Some? && Can(f, s.value, Last(run)) { StepIsOk(f, s.value, Last(run)); }
    }
  }

  // ---------------------------------------------------------------- conservation

  /** Everything the target has been given. */
  function ToTarget(f: Flow, s: State): string {
    f.sent + s.flushed + s.up.out
  }

  /** Everything the client has been given. */
  function ToClient(f: Flow, s: State): string {
    f.answered + s.down.out
  }

  /**
   * In every state of every run the target has been given a beginning of what was sent before, what the client sent
   * ahead and what it sends then, in that order and unchanged; and the client a beginning of what was answered before
   * and what the target sends.
   */
  lemma OnlyBeginnings(f: Flow, run: seq<Action>)
    requires After(f, run).Some?
    ensures ToTarget(f, After(f, run).value) <= f.sent + (f.early + f.client)
    ensures ToClient(f, After(f, run).value) <= f.answered + f.target
  {
    RunIsOk(f, run);
    var s := After(f, run).value;
    if s.up.status.Off? {
      assert s.flushed + s.up.out == s.flushed && s.flushed <= f.early + f.client;
      assert f.sent + s.flushed + "" == f.sent + s.flushed;
    } else {
      assert s.up.out <= f.client;
      assert f.sent + (f.early + f.client) == (f.sent + f.early) + f.client;
    }
  }

  /** A direction that ended without error has passed everything on, and the relay is content only when both have. */
  lemma CleanEndIsComplete(f: Flow, run: seq<Action>)
    requires After(f, run).Some?
    ensures var s := After(f, run).value;
      && (s.up.status == Closed(true) ==> ToTarget(f, s) == f.sent + (f.early + f.client))
      && (s.down.status == Closed(true) ==> ToClient(f, s) == f.answered + f.target)
      && (s.phase == Returned(true) ==> s.up.status == Closed(true) && s.down.status == Closed(true))
  {
    RunIsOk(f, run);
    assert f.sent + (f.early + f.client) == (f.sent + f.early) + f.client;
  }

  // ---------------------------------------------------------------- progress

  predicate Failure(f: Flow, s: State, a: Action) {
    match a
    case Flush(k) => k < |f.early|
    case Up(b) => b.Break? || (b.Write? && b.k < |s.up.holding|)
    case Down(b) => b.Break? || (b.Write? && b.k < |s.down.holding|)
    case Receive => false
  }

  function NextAct(src: string, p: Pipe): Act {
    if !p.status.Copying? then Finish
    else if p.holding != "" then Write(|p.holding|)
    else if p.read < |src| then Read(1)
    else End
  }

  /** Until it has returned, the relay or one of its loops can go on, and without any connection failing. */
  lemma SomethingCanHappen(f: Flow, run: seq<Action>) returns (a: Action)
    requires After(f, run).Some? && !After(f, run).value.phase.Returned?
    ensures var s := After(f, run).value; Can(f, s, a) && !Failure(f, s, a)
  {
    RunIsOk(f, run);
    var s := After(f, run).value;
    if s.phase.Early? {
      a := Flush(|f.early|);
    } else if s.results != [] {
      a := Receive;
    } else {
      a := if s.up.status.Closed? then Down(NextAct(f.target, s.down)) else Up(NextAct(f.client, s.up));
    }
  }

  function Rank(p: Pipe): nat {
    match p.status
    case Off => 3
    case Copying => 3
    case Closed(_) => 0
    case _ => 2
  }

  function Work(src: string, p: Pipe): int {
    2 * (|src| - p.read) + (if p.holding != "" then 1 else 0) + Rank(p)
  }

  /** What is left to do. */
  function Left(f: Flow, s: State): int {
    (if s.phase.Early? then 1 else 0) + Work(f.client, s.up) + Work(f.target, s.down) + |s.results|
  }

  lemma PipeMakesProgress(src: string, p: Pipe, a: Act)
    requires PipeCan(src, p, a)
    ensures Work(src, PipeDo(src, p, a)) + (if a.Finish? then 1 else 0) < Work(src, p)
  {
    match a
    case Read(n) => assert p.holding == "" && p.read + n <= |src| && n >= 1;
    case Write(k) =>
    case _ =>
  }

  lemma StepMakesProgress(f: Flow, s: State, a: Action)
    requires StateOk(f, s) && Can(f, s, a)
    ensures Left(f, Do(f, s, a)) < Left(f, s)
  {
    match a
    case Up(b) => PipeMakesProgress(f.client, s.up, b);
    case Down(b) => PipeMakesProgress(f.target, s.down, b);
    case _ =>
  }

  /** Every run is finite: when the streams end, the relay does. */
  lemma {:induction false} RunsAreBounded(f: Flow, run: seq<Action>)
    requires After(f, run).Some?
    ensures |run| + Left(f, After(f, run).value) <= 2 * (|f.client| + |f.target|) + 7
    ensures |run| <= 2 * (|f.client| + |f.target|) + 7
    decreases |run|
  {
    RunIsOk(f, run);
    if run != [] {
      var before := run[..|run| - 1];
      RunsAreBounded(f, before);
      RunIsOk(f, before);
      StepMakesProgress(f, After(f, before).value, Last(run));
    }
  }
}
