/** The broker and its decode child, over every interleaving of output, exit, writes and clock. */
module DecodeProtocol {
  import opened Common
  import opened Pump
  import opened Decode

  /** What is fixed for one child: the request, the asset, the ready-line check and the deadlines. */
  datatype Setup = Setup(request: Request, assetBytes: nat, accepts: seq<byte> -> bool, wire: Wire,
                         readyDeadline: nat, wallDeadline: nat)

  datatype Phase = Spawned | AwaitReady | Streaming | AwaitExit | Collecting | Ended(answer: Answer) | Aborted

  datatype World = World(phase: Phase, clock: nat,
                         out: seq<byte>, outClosed: bool, exit: Option<int>,
                         pump: Rounds, sent: nat, written: bool, writerDead: bool,
                         accepted: bool, timedOut: bool)

  function Start(): World {
    World(Spawned, 0, [], false, None, Rounds([], None, false, false, false), 0, false, false, false, false)
  }

  function Cap(c: Setup): nat { StdoutCap(c.request) }

  function PumpLimit(c: Setup, p: Rounds): nat {
    if p.readyEnd.None? then READY_LINE_MAX_BYTES + 1 else p.readyEnd.value + Cap(c) + 1
  }

  function Response(p: Rounds): seq<byte> {
    if p.readyEnd.Some? && p.readyEnd.value <= |p.buffer| then p.buffer[p.readyEnd.value..] else p.buffer
  }

  // ---------- Steps of the environment and the helper threads ----------

  ghost predicate Tick(w: World, w': World) {
    w' == w.(clock := w.clock + 1)
  }

  ghost predicate ChildWrites(w: World, w': World) {
    !w.outClosed && w.exit.None? && exists bytes :: w' == w.(out := w.out + bytes)
  }

  ghost predicate ChildClosesStdout(w: World, w': World) {
    w' == w.(outClosed := true)
  }

  ghost predicate ChildExits(w: World, w': World) {
    w.exit.None? && exists code :: w' == w.(exit := Some(code), outClosed := true)
  }

  /** One chunk taken by the pump. */
  ghost predicate Takes(c: Setup, w: World, chunk: seq<byte>) {
    && !w.pump.finished
    && w.pump.buffer + chunk <= w.out
    && |w.pump.buffer| + |chunk| <= PumpLimit(c, w.pump)
    && (chunk == [] ==> w.outClosed && w.pump.buffer == w.out)
  }

  /** The pump takes a chunk of what is there, or meets the end of a closed pipe. */
  ghost predicate PumpReads(c: Setup, w: World, w': World) {
    exists chunk :: Takes(c, w, chunk) && w' == w.(pump := Round(w.pump, chunk, Cap(c)))
  }

  ghost predicate WriterWrites(c: Setup, w: World, w': World) {
    && w.accepted && !w.written && !w.writerDead
    && w.sent <= w'.sent <= c.assetBytes && w' == w.(sent := w'.sent)
  }

  ghost predicate WriterFinishes(c: Setup, w: World, w': World) {
    w.accepted && !w.written && !w.writerDead && w.sent == c.assetBytes && w' == w.(written := true)
  }

  ghost predicate WriterFails(w: World, w': World) {
    w.accepted && !w.written && w' == w.(writerDead := true)
  }

  // ---------- Steps of the broker ----------

  ghost predicate SendsRequest(w: World, w': World) {
    w.phase == Spawned && (w' == w.(phase := AwaitReady) || w' == w.(phase := Aborted))
  }

  /** The ready boundary: a line that came in time and passes the check, or a stage abort. */
  ghost predicate ReadsReady(c: Setup, w: World, w': World) {
    && w.phase == AwaitReady
    && (w.pump.readyEnd.Some? || w.pump.finished || w.clock >= c.readyDeadline)
    && w' == if w.pump.readyEnd.Some? && w.pump.readyEnd.value <= |w.pump.buffer|
                && c.accepts(w.pump.buffer[..w.pump.readyEnd.value])
             then w.(phase := Streaming, accepted := true)
             else w.(phase := Aborted)
  }

  /** Killing may take effect at once or not, with a status the platform picks; a child that already exited keeps its own. */
  ghost predicate Killed(w: World, w': World) {
    w' == w || (w.exit.None? && exists code :: w' == w.(exit := Some(code), outClosed := true))
  }

  ghost predicate StopsWaitingForOutput(c: Setup, w: World, w': World) {
    && w.phase == Streaming && (w.pump.finished || w.clock >= c.wallDeadline)
    && var v := w.(phase := AwaitExit, timedOut := !w.pump.finished);
       if v.timedOut || v.pump.overflowed then Killed(v, w') else w' == v
  }

  ghost predicate StopsWaitingForExit(c: Setup, w: World, w': World) {
    && w.phase == AwaitExit && (w.exit.Some? || w.clock >= c.wallDeadline)
    && if w.exit.Some? then w' == w.(phase := Collecting)
       else Killed(w.(phase := Collecting, timedOut := true), w')
  }

  function Collected(w: World): ChildResult {
    ChildResult(w.exit, w.timedOut, w.pump.overflowed, w.written,
                if w.timedOut || w.pump.overflowed then [] else Response(w.pump))
  }

  /** The answer; a page whose usage could not be measured is a child error. */
  ghost predicate Answers(c: Setup, w: World, w': World) {
    && w.phase == Collecting
    && var a := MapExit(c.wire, Collected(w), c.request);
       w' == w.(phase := Ended(a)) || (a.PageAnswer? && w' == w.(phase := Ended(ChildError)))
  }

  ghost predicate Next(c: Setup, w: World, w': World) {
    || Tick(w, w') || ChildWrites(w, w') || ChildClosesStdout(w, w') || ChildExits(w, w')
    || PumpReads(c, w, w') || WriterWrites(c, w, w') || WriterFinishes(c, w, w') || WriterFails(w, w')
    || SendsRequest(w, w') || ReadsReady(c, w, w')
    || StopsWaitingForOutput(c, w, w') || StopsWaitingForExit(c, w, w') || Answers(c, w, w')
  }

  // ---------- Safety ----------

  /** The pump has taken a prefix of the child's output; finished without overflow, all of it. */
  ghost predicate PumpFaithful(c: Setup, w: World) {
    && w.pump.buffer <= w.out
    && |w.pump.buffer| <= PumpLimit(c, w.pump)
    && (w.pump.readyEnd.Some? ==> 0 < w.pump.readyEnd.value <= |w.pump.buffer|)
    && (w.pump.overflowed ==> w.pump.finished)
    && (w.pump.finished && !w.pump.overflowed && w.pump.readyEnd.Some? ==> w.pump.buffer == w.out && w.outClosed)
  }

  /** A page answer, with everything it rests on. */
  ghost predicate PageEarned(c: Setup, w: World, page: Page) {
    && w.accepted && w.exit == Some(0) && w.written && w.sent == c.assetBytes
    && !w.timedOut && !w.pump.overflowed && w.pump.finished && w.pump.readyEnd.Some?
    && w.pump.readyEnd.value <= |w.out|
    && c.accepts(w.out[..w.pump.readyEnd.value])
    && ParseResponse(c.wire, w.out[w.pump.readyEnd.value..], c.request) == PageAnswer(page)
  }

  ghost predicate Safe(c: Setup, w: World) {
    && PumpFaithful(c, w)
    && w.sent <= c.assetBytes && (w.written ==> w.sent == c.assetBytes)
    && (w.sent > 0 || w.written ==> w.accepted)
    && (w.accepted ==> w.pump.readyEnd.Some? && w.pump.readyEnd.value <= |w.pump.buffer|
                       && c.accepts(w.pump.buffer[..w.pump.readyEnd.value]))
    && (w.exit.Some? ==> w.outClosed)
    && match w.phase
       case Spawned => !w.accepted
       case AwaitReady => !w.accepted
       case Aborted => !w.accepted && w.sent == 0
       case Streaming => w.accepted
       case AwaitExit => w.accepted && (!w.timedOut ==> w.pump.finished)
       case Collecting => w.accepted && (!w.timedOut ==> w.pump.finished && w.exit.Some?)
       case Ended(answer) => w.accepted && (answer.PageAnswer? ==> PageEarned(c, w, answer.page))
  }

  lemma StartIsSafe(c: Setup)
    ensures Safe(c, Start())
  {
  }

  lemma TakingStaysFaithful(c: Setup, w: World, chunk: seq<byte>)
    requires PumpFaithful(c, w) && Takes(c, w, chunk)
    ensures PumpFaithful(c, w.(pump := Round(w.pump, chunk, Cap(c))))
    ensures w.pump.readyEnd.Some? ==> Round(w.pump, chunk, Cap(c)).readyEnd == w.pump.readyEnd
    ensures w.pump.buffer <= Round(w.pump, chunk, Cap(c)).buffer
  {
    hide Round, StdoutCap;
    var p, q := w.pump, Round(w.pump, chunk, Cap(c));
    RoundFacts(p, chunk, Cap(c));
    CapIsLarge(c.request);
    assert |q.buffer| == |p.buffer| + |chunk|;
    assert |q.buffer| <= PumpLimit(c, q);
  }

  lemma PumpStaysFaithful(c: Setup, w: World, w': World)
    requires PumpFaithful(c, w) && PumpReads(c, w, w')
    ensures PumpFaithful(c, w')
    ensures w.pump.readyEnd.Some? ==> w'.pump.readyEnd == w.pump.readyEnd
    ensures w.pump.buffer <= w'.pump.buffer
  {
    hide Round, StdoutCap, PumpFaithful;
    var chunk :| Takes(c, w, chunk) && w' == w.(pump := Round(w.pump, chunk, Cap(c)));
    TakingStaysFaithful(c, w, chunk);
  }

  lemma CapIsLarge(q: Request)
    ensures StdoutCap(q) >= READY_LINE_MAX_BYTES
  {
    assert q.maxLongEdge * q.maxLongEdge >= 0;
  }

  lemma RoundFacts(p: Rounds, chunk: seq<byte>, cap: nat)
    requires !p.finished
    ensures var q := Round(p, chunk, cap);
            && q.buffer == p.buffer + chunk
            && (p.readyEnd.Some? ==> q.readyEnd == p.readyEnd)
            && (p.readyEnd.None? && q.readyEnd.Some? ==> 0 < q.readyEnd.value <= |q.buffer| && q.readyEnd.value <= READY_LINE_MAX_BYTES)
            && (q.finished && !q.overflowed && q.readyEnd.Some? ==> chunk == [])
            && (q.overflowed ==> q.finished || p.overflowed)
  {
    hide Newline;
    assert p.buffer + [] == p.buffer;
  }

  lemma PumpKeepsSafe(c: Setup, w: World, w': World)
    requires Safe(c, w) && PumpReads(c, w, w')
    ensures Safe(c, w')
  {
    hide PumpReads, ParseResponse;
    PumpStaysFaithful(c, w, w');
    PumpOnly(c, w, w');
    if w.accepted {
      var end := w.pump.readyEnd.value;
      assert w'.pump.buffer[..end] == w.pump.buffer[..end];
    }
  }

  lemma PumpOnly(c: Setup, w: World, w': World)
    requires PumpReads(c, w, w')
    ensures w' == w.(pump := w'.pump) && !w.pump.finished
  {
  }

  lemma EnvironmentKeepsSafe(c: Setup, w: World, w': World)
    requires Safe(c, w)
    requires Tick(w, w') || ChildWrites(w, w') || ChildClosesStdout(w, w') || ChildExits(w, w')
             || WriterWrites(c, w, w') || WriterFinishes(c, w, w') || WriterFails(w, w')
    ensures Safe(c, w')
  {
    hide ParseResponse;
  }

  lemma WaitsKeepSafe(c: Setup, w: World, w': World)
    requires Safe(c, w)
    requires SendsRequest(w, w') || ReadsReady(c, w, w') || StopsWaitingForOutput(c, w, w') || StopsWaitingForExit(c, w, w')
    ensures Safe(c, w')
  {
    hide ParseResponse;
  }

  lemma AnswerKeepsSafe(c: Setup, w: World, w': World)
    requires Safe(c, w) && Answers(c, w, w')
    ensures Safe(c, w')
  {
    hide ParseResponse;
    if w'.phase.answer.PageAnswer? {
      PageOnlyOnSuccess(c.wire, Collected(w), c.request);
      var end := w.pump.readyEnd.value;
      assert w.pump.buffer == w.out;
      assert Response(w.pump) == w.out[end..];
    }
  }

  /** Every step keeps the protocol safe. */
  lemma StepIsSafe(c: Setup, w: World, w': World)
    requires Safe(c, w) && Next(c, w, w')
    ensures Safe(c, w')
    ensures w.phase.Ended? || w.phase.Aborted? ==> w'.phase == w.phase
  {
    hide Safe;
    if PumpReads(c, w, w') {
      PumpKeepsSafe(c, w, w');
    } else if Answers(c, w, w') {
      AnswerKeepsSafe(c, w, w');
    } else if SendsRequest(w, w') || ReadsReady(c, w, w') || StopsWaitingForOutput(c, w, w') || StopsWaitingForExit(c, w, w') {
      WaitsKeepSafe(c, w, w');
    } else {
      EnvironmentKeepsSafe(c, w, w');
    }
  }

  ghost predicate Behaviour(c: Setup, ws: seq<World>) {
    && ws != [] && ws[0] == Start()
    && forall i :: 0 <= i < |ws| - 1 ==> Next(c, ws[i], ws[i + 1])
  }

  /** Over every behaviour: no asset byte goes out before the ready line is accepted, the stage aborts
      only before that, an answer once given stays, and a page is always earned. */
  lemma {:induction false} ProtocolIsSafe(c: Setup, ws: seq<World>)
    requires Behaviour(c, ws)
    ensures forall i :: 0 <= i < |ws| ==> Safe(c, ws[i])
    ensures forall i, j :: 0 <= i < j < |ws| && (ws[i].phase.Ended? || ws[i].phase.Aborted?) ==> ws[j].phase == ws[i].phase
    decreases |ws|
  {
    hide Safe, Next;
    if |ws| == 1 {
      StartIsSafe(c);
    } else {
      var n := |ws| - 1;
      var front := ws[..n];
      assert Behaviour(c, front);
      ProtocolIsSafe(c, front);
      assert front[n - 1] == ws[n - 1];
      assert Next(c, ws[n - 1], ws[n]);
      StepIsSafe(c, ws[n - 1], ws[n]);
      forall i, j | 0 <= i < j < |ws| && (ws[i].phase.Ended? || ws[i].phase.Aborted?)
        ensures ws[j].phase == ws[i].phase
      {
        assert front[i] == ws[i];
        if j < n {
          assert front[j] == ws[j];
        }
      }
      forall i | 0 <= i < |ws| ensures Safe(c, ws[i]) {
        if i < n { assert front[i] == ws[i]; }
      }
    }
  }

  // ---------- The broker never hangs ----------

  function Rank(p: Phase): nat {
    match p
    case Spawned => 5
    case AwaitReady => 4
    case Streaming => 3
    case AwaitExit => 2
    case Collecting => 1
    case Ended(_) => 0
    case Aborted => 0
  }

  ghost predicate BrokerSteps(c: Setup, w: World, w': World) {
    || SendsRequest(w, w') || ReadsReady(c, w, w')
    || StopsWaitingForOutput(c, w, w') || StopsWaitingForExit(c, w, w') || Answers(c, w, w')
  }

  lemma BrokerStepIsNext(c: Setup, w: World, w': World)
    requires BrokerSteps(c, w, w')
    ensures Next(c, w, w')
  {
    hide SendsRequest, ReadsReady, StopsWaitingForOutput, StopsWaitingForExit, Answers;
  }

  /** The step the broker takes in each phase once the wall deadline has passed. */
  lemma DeadlineStep(c: Setup, w: World) returns (w': World)
    requires Rank(w.phase) > 0 && w.clock >= c.wallDeadline && c.readyDeadline <= c.wallDeadline
    ensures BrokerSteps(c, w, w') && Rank(w'.phase) < Rank(w.phase)
  {
    hide MapExit, Collected;
    match w.phase
    case Spawned =>
      w' := w.(phase := AwaitReady);
      assert SendsRequest(w, w');
    case AwaitReady =>
      w' := if w.pump.readyEnd.Some? && w.pump.readyEnd.value <= |w.pump.buffer|
               && c.accepts(w.pump.buffer[..w.pump.readyEnd.value])
            then w.(phase := Streaming, accepted := true)
            else w.(phase := Aborted);
      assert ReadsReady(c, w, w');
    case Streaming =>
      w' := w.(phase := AwaitExit, timedOut := !w.pump.finished);
      assert StopsWaitingForOutput(c, w, w');
    case AwaitExit =>
      w' := if w.exit.Some? then w.(phase := Collecting) else w.(phase := Collecting, timedOut := true);
      assert StopsWaitingForExit(c, w, w');
    case Collecting =>
      w' := w.(phase := Ended(MapExit(c.wire, Collected(w), c.request)));
      assert Answers(c, w, w');
  }

  /** Past the wall deadline the broker can always move on, whatever the child does or fails to do. */
  lemma PastDeadlineMovesOn(c: Setup, w: World)
    requires Rank(w.phase) > 0 && w.clock >= c.wallDeadline && c.readyDeadline <= c.wallDeadline
    ensures exists w' :: Next(c, w, w') && Rank(w'.phase) < Rank(w.phase)
  {
    hide Next, BrokerSteps;
    var w' := DeadlineStep(c, w);
    BrokerStepIsNext(c, w, w');
  }
}
