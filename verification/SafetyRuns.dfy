/** The safety invariant is kept by every event, and what follows for runs. */
module SafetyRuns {
  import opened Protocol
  import opened SchemaGate
  import opened Controller
  import opened Accounts
  import opened Conservation
  import opened Steps
  import opened Resolvers
  import opened System
  import opened Loss
  import opened Safety
  import opened Flight

  // -------------------------------------------------- a drained dispatcher

  lemma DrainedCommand(s: Sys, e: Event)
    requires Valid(s.ctl) && Enabled(s, e) && OnCommand(e) && Drained(s.ctl)
    ensures var d := CtlNext(s, e); Drained(d) && d.sent == s.ctl.sent && d.accepted == s.ctl.accepted
  {
    var c, d := s.ctl, CtlNext(s, e);
    match e
    case RouteCommand(command, local) =>
    case WriteReturns(id) => assert d.pending.m == map[];
    case WriteRaises(id) =>
    case ResponseArrives(_, r) =>
    case TimerFires(id) =>
  }

  lemma DrainedBoardDown(c: Ctl, b: BoardId)
    requires Valid(c) && Drained(c) && b in c.boards
    ensures Drained(BoardDown(c, b))
  {
    var lost := OnBoard(c.pending.Values(), b);
    PendingValues(c);
    WithdrawnPending(c, lost);
    assert c.pending.PopAll(SeqsOf(lost)).m == map[];
  }

  // ------------------------------------------------------- connection steps

  /** A step on one board: only that board changes, and its queue at most empties. */
  ghost predicate OneBoard(c: Ctl, d: Ctl, b: BoardId) {
    && b in c.boards && d.boards.Keys == c.boards.Keys
    && d.latched == c.latched && d.closing == c.closing && d.accepted == c.accepted && d.sent == c.sent
    && (forall x :: x in c.boards && x != b ==> d.boards[x] == c.boards[x])
    && (d.boards[b].fifo == c.boards[b].fifo || d.boards[b].fifo == [])
    && (d.boards[b].reg == c.boards[b].reg || d.boards[b].fifo == [])
  }

  lemma OneBoardSafe(c: Ctl, d: Ctl, b: BoardId)
    requires GateOk(c) && SentOk(c) && OneBoard(c, d, b)
    ensures GateOk(d) && SentOk(d)
  {
    forall i | 0 <= i < |d.sent| ensures SentRight(d, d.sent[i]) { assert SentRight(c, c.sent[i]); }
  }

  lemma BoardDownOneBoard(c: Ctl, b: BoardId)
    requires Valid(c) && b in c.boards
    ensures OneBoard(c, BoardDown(c, b), b)
    ensures var x := BoardDown(c, b).boards[b]; x.fifo == [] && x.conn == FAULTED && !x.writer
  {
  }

  lemma SchemaOneBoard(c: Ctl, b: BoardId, m: Object)
    requires b in c.boards && c.boards[b].fifo == []
    ensures OneBoard(c, RegisterAndAssert(c, b, m), b) && RegisterAndAssert(c, b, m).pending == c.pending
    ensures RegisterAndAssert(c, b, m).boards[b].fifo == []
    ensures RegisterAndAssert(c, b, m).boards[b].inFlight == c.boards[b].inFlight
    ensures CheckProtocolVersion(m).Bad? ==> RegisterAndAssert(c, b, m).boards[b].conn == FAULTED
                                             && RegisterAndAssert(c, b, m).boards[b].writer == c.boards[b].writer
  {
  }

  lemma SetConnOneBoard(c: Ctl, b: BoardId, state: ConnState)
    requires b in c.boards
    ensures OneBoard(c, SetConn(c, b, state), b) && SetConn(c, b, state).pending == c.pending
    ensures SetConn(c, b, state).boards[b] == c.boards[b].(conn := state)
  {
  }

  predicate AtRest(b: Board) { b.fifo == [] && b.conn != REGISTERED && !b.writer }

  /** What a connection step does to its board. */
  ghost predicate Shape(s: Sys, d: Ctl, e: Event)
    requires Enabled(s, e) && OnConnection(e)
  {
    && OneBoard(s.ctl, d, e.board)
    && (e.board in PhaseNext(s, e) && Quiet(PhaseNext(s, e)[e.board]) ==> AtRest(d.boards[e.board]))
    && (Drained(s.ctl) ==> Drained(d))
  }

  lemma SetConnShape(s: Sys, e: Event)
    requires LinkOk(s) && Enabled(s, e) && (e.Dial? || e.Link? || e.LinkFails?)
    ensures Shape(s, CtlNext(s, e), e)
  {
    hide OneBoard, Valid;
    SetConnOneBoard(s.ctl, e.board, if e.Dial? then CONNECTING else if e.Link? then CONNECTED else FAULTED);
  }

  lemma SchemaShape(s: Sys, e: Event)
    requires LinkOk(s) && Enabled(s, e) && e.SchemaArrives?
    ensures Shape(s, CtlNext(s, e), e)
  {
    hide RegisterAndAssert, OneBoard, Valid;
    SchemaOneBoard(s.ctl, e.board, e.schema);
    if Drained(s.ctl) { SchemaDrained(s.ctl, e.board, e.schema); }
  }

  lemma SchemaDrained(c: Ctl, b: BoardId, m: Object)
    requires Drained(c) && b in c.boards
    ensures Drained(RegisterAndAssert(c, b, m))
  {
  }

  lemma DownEventShape(s: Sys, e: Event)
    requires Enabled(s, e) && (e.LivenessExpires? || e.ReportDown?)
    ensures Shape(s, CtlNext(s, e), e)
  {
    DownShape(s.ctl, e.board);
  }

  lemma IdleEventShape(s: Sys, e: Event)
    requires LinkOk(s) && Enabled(s, e) && (e.SessionEnds? || e.SkipReport? || e.StopBoard?)
    ensures Shape(s, CtlNext(s, e), e)
  {
  }

  lemma ConnectionShape(s: Sys, e: Event)
    requires LinkOk(s) && Enabled(s, e) && OnConnection(e)
    ensures Shape(s, CtlNext(s, e), e)
  {
    if e.Dial? || e.Link? || e.LinkFails? { SetConnShape(s, e); }
    else if e.SchemaArrives? { SchemaShape(s, e); }
    else if e.LivenessExpires? || e.ReportDown? { DownEventShape(s, e); }
    else { IdleEventShape(s, e); }
  }

  lemma DownShape(c: Ctl, b: BoardId)
    requires Valid(c) && b in c.boards
    ensures OneBoard(c, BoardDown(c, b), b) && AtRest(BoardDown(c, b).boards[b])
    ensures Drained(c) ==> Drained(BoardDown(c, b))
  {
    BoardDownOneBoard(c, b);
    if Drained(c) { DrainedBoardDown(c, b); }
  }

  lemma LinkKept(s: Sys, t: Sys, b: BoardId)
    requires LinkOk(s) && OneBoard(s.ctl, t.ctl, b) && b in t.phase && t.phase == s.phase[b := t.phase[b]]
    requires Quiet(t.phase[b]) ==> AtRest(t.ctl.boards[b])
    ensures LinkOk(t)
  {
  }

  lemma ConnectionPhase(s: Sys, e: Event)
    requires Enabled(s, e) && OnConnection(e)
    ensures e.board in s.phase && e.board in PhaseNext(s, e)
    ensures PhaseNext(s, e) == s.phase[e.board := PhaseNext(s, e)[e.board]]
  {
  }

  lemma ConnectionSafe(s: Sys, e: Event)
    requires Safe(s) && Enabled(s, e) && OnConnection(e)
    ensures var t := Next(s, e); LinkOk(t) && GateOk(t.ctl) && SentOk(t.ctl) && FailedOk(t)
  {
    ConnectionShape(s, e);
    ConnectionPhase(s, e);
    OneBoardSafe(s.ctl, CtlNext(s, e), e.board);
    LinkKept(s, Next(s, e), e.board);
  }

  // ----------------------------------------------------------- other steps

  lemma CommandMoves(s: Sys, e: Event)
    requires Safe(s) && Enabled(s, e) && OnCommand(e)
    ensures Moves(s.ctl, CtlNext(s, e))
  {
    var c := s.ctl;
    match e
    case RouteCommand(command, local) => RouteMoves(c, command, local);
    case WriteReturns(id) => ResumeMoves(c, id);
    case WriteRaises(id) => AbortMoves(c, id);
    case ResponseArrives(_, r) => ResponseMoves(c, r);
    case TimerFires(id) => TimerMoves(c, id);
  }

  lemma MovesKeepLink(s: Sys, t: Sys)
    requires LinkOk(s) && Moves(s.ctl, t.ctl) && t.phase == s.phase
    ensures LinkOk(t)
  {
  }

  lemma CommandSafe(s: Sys, e: Event)
    requires Safe(s) && Enabled(s, e) && OnCommand(e)
    ensures var t := Next(s, e); LinkOk(t) && GateOk(t.ctl) && SentOk(t.ctl) && FailedOk(t)
  {
    CommandMoves(s, e);
    MovesKeepLink(s, Next(s, e));
    if s.failed { DrainedCommand(s, e); }
  }

  /** Steps on all boards: queues stay or empty, gates stay, nothing connects. */
  ghost predicate AllBoards(c: Ctl, d: Ctl) {
    && d.boards.Keys == c.boards.Keys && d.accepted == c.accepted && d.sent == c.sent
    && (c.closing ==> d.closing) && (forall k :: k in d.pending.m ==> k in c.pending.m)
    && (d.latched && !c.latched ==> forall b :: b in d.boards ==> d.boards[b].fifo == [])
    && forall b :: b in c.boards ==>
         && (d.boards[b].fifo == c.boards[b].fifo || d.boards[b].fifo == [])
         && d.boards[b].reg == c.boards[b].reg
         && (d.boards[b].conn == c.boards[b].conn || d.boards[b].conn == DISCONNECTED)
         && (d.boards[b].writer ==> c.boards[b].writer)
         && (d.boards[b].inFlight == c.boards[b].inFlight || d.boards[b].inFlight.None?)
  }

  lemma AllBoardsSafe(s: Sys, t: Sys)
    requires LinkOk(s) && GateOk(s.ctl) && SentOk(s.ctl) && AllBoards(s.ctl, t.ctl) && t.phase == s.phase
    ensures LinkOk(t) && GateOk(t.ctl) && SentOk(t.ctl)
    ensures Drained(s.ctl) ==> Drained(t.ctl)
  {
    forall i | 0 <= i < |t.ctl.sent| ensures SentRight(t.ctl, t.ctl.sent[i]) { assert SentRight(s.ctl, s.ctl.sent[i]); }
    if Drained(s.ctl) { assert t.ctl.pending.m == map[]; }
  }

  lemma FailDrains(c: Ctl)
    requires Valid(c) && c.closing
    ensures Drained(FailRemaining(c)) && AllBoards(c, FailRemaining(c))
  {
    hide Withdraw, ResolveAll, Queued;
    NothingPendingAfterFail(c);
    WithdrawFrame(c, c.pending.Values());
  }

  lemma WithdrawFrame(c: Ctl, es: seq<Entry>)
    requires c.pending.Valid()
    ensures Withdraw(c, es) == c.(pending := Withdraw(c, es).pending, timers := Withdraw(c, es).timers)
  {
  }

  lemma FlushShape(s: Sys, e: Event)
    requires Enabled(s, e) && (e.EstopTriggered? || e.ShutdownFails?)
    ensures AllBoards(s.ctl, CtlNext(s, e))
    ensures e.ShutdownFails? ==> Drained(CtlNext(s, e))
  {
    if e.ShutdownFails? { FailDrains(s.ctl); }
  }

  lemma EstopShape(s: Sys, e: Event)
    requires Enabled(s, e) && (e.EstopTaskRuns? || e.EstopAcked? || e.WritersClose?)
    ensures AllBoards(s.ctl, CtlNext(s, e))
  {
    hide AllBoards, AckEstop, RunEstopTask, CloseWriters, Valid;
    if e.EstopTaskRuns? { TaskShape(s.ctl, e.board); } else if e.EstopAcked? { AckShape(s.ctl, e.board); }
      else { CloseShape(s.ctl); }
  }

  lemma TaskShape(c: Ctl, b: BoardId)
    requires b in c.boards && b in c.estopTasks
    ensures AllBoards(c, RunEstopTask(c, b))
  {
  }

  lemma AckShape(c: Ctl, b: BoardId)
    requires b in c.boards
    ensures AllBoards(c, AckEstop(c, b))
  {
  }

  lemma CloseShape(c: Ctl)
    ensures AllBoards(c, CloseWriters(c))
  {
  }

  lemma FlagShape(s: Sys, e: Event)
    requires Enabled(s, e) && (e.EstopReset? || e.ShutdownBegins? || e.Tick?)
    ensures AllBoards(s.ctl, CtlNext(s, e))
  {
  }

  lemma GlobalShape(s: Sys, e: Event)
    requires Enabled(s, e) && !OnConnection(e) && !OnCommand(e)
    ensures AllBoards(s.ctl, CtlNext(s, e))
    ensures e.ShutdownFails? ==> Drained(CtlNext(s, e))
  {
    if e.EstopTriggered? || e.ShutdownFails? { FlushShape(s, e); }
    else if e.EstopTaskRuns? || e.EstopAcked? || e.WritersClose? { EstopShape(s, e); }
    else { FlagShape(s, e); }
  }

  lemma GlobalSafe(s: Sys, e: Event)
    requires Safe(s) && Enabled(s, e) && !OnConnection(e) && !OnCommand(e)
    ensures var t := Next(s, e); LinkOk(t) && GateOk(t.ctl) && SentOk(t.ctl) && FailedOk(t)
  {
    GlobalShape(s, e);
    AllBoardsSafe(s, Next(s, e));
  }

  /** Every event keeps the safety invariant. */
  lemma SafeStep(s: Sys, e: Event)
    requires Safe(s) && Enabled(s, e)
    ensures Safe(Next(s, e))
  {
    hide Enabled, Sound, LinkOk, GateOk, SentOk, FailedOk, CtlNext;
    StepPreserves(s, e);
    if OnCommand(e) { CommandSafe(s, e); }
    else if OnConnection(e) { ConnectionSafe(s, e); }
    else { GlobalSafe(s, e); }
  }

  lemma SafeAfter(s: Sys, e: Event, t: Sys)
    requires Safe(s) && Step(s, e, t)
    ensures Safe(t)
  {
    SafeStep(s, e);
  }

  lemma {:induction false} RunsAreSafe(states: seq<Sys>, events: seq<Event>, n: nat)
    requires Run(states, events) && n <= |events|
    ensures Safe(states[n])
  {
    hide Safe, Init, Step;
    if n == 0 {
      StartIsSafe(states[0]);
    } else {
      RunsAreSafe(states, events, n - 1);
      AtStep(states, events, n - 1);
      SafeAfter(states[n - 1], events[n - 1], states[n]);
    }
  }

  lemma StartIsSafe(s: Sys)
    requires Init(s)
    ensures Safe(s)
  {
    StartHolds(s.ctl.cfg, s.ctl.now);
    assert LedgerOk(s.ctl.ledger, []);
  }

  // --------------------------------------------------------------- theorems

  /** Nothing the theorems range over is excluded: after every run, any command may be
      routed, any suspended write may return or raise, any coupled response may arrive
      from any expected board, any sleeping timer may fire, e-stop may be triggered,
      acked or reset, time may pass, and shutdown takes its steps in order. */
  lemma EnvironmentIsFree(states: seq<Sys>, events: seq<Event>, n: nat, e: Event)
    requires Run(states, events) && n <= |events|
    ensures var s, c := states[n], states[n].ctl;
            || (e.RouteCommand? && Coupled(e.local.status, e.local.code))
            || ((e.WriteReturns? || e.WriteRaises?) && e.id in c.writing)
            || (e.ResponseArrives? && e.board in c.boards && Coupled(e.reply.status, e.reply.code))
            || (e.TimerFires? && e.id in c.timers.asleep)
            || e.EstopTriggered? || e.EstopReset? || (e.EstopAcked? && e.board in c.boards)
            || (e.EstopTaskRuns? && e.board in c.boards && c.estopTasks[e.board] > 0)
            || (e.Tick? && e.elapsed >= 0.0) || (e.ShutdownBegins? && !c.closing)
            || (e.ShutdownFails? && c.closing && !s.failed) || (e.WritersClose? && s.failed)
            ==> Enabled(s, e)
  {
    hide Init, StepAt, Tables, LedgerOk, GateOk, SentOk, FailedOk, Quiet;
    RunsAreSafe(states, events, n);
    SoundIsValid(states[n].ctl);
    hide Valid;
  }

  /** In every run, over any boards: no write of a gated command begins under the
      latch, none begins after shutdown began, none of a command past its
      residency cap; and the board seqs written to a board strictly increase,
      across reconnects, within uint64. */
  lemma WritesAreLawful(states: seq<Sys>, events: seq<Event>, n: nat)
    requires Run(states, events) && n <= |events|
    ensures var sent := states[n].ctl.sent;
            && (forall i :: 0 <= i < |sent| ==>
                  && !(sent[i].latched && sent[i].gated) && !sent[i].closing && sent[i].age <= sent[i].residencyCap
                  && 1 <= sent[i].boardSeq <= UINT64_MAX)
            && (forall i, j :: 0 <= i < j < |sent| && sent[i].board == sent[j].board ==>
               sent[i].boardSeq < sent[j].boardSeq)
  {
    RunsAreSafe(states, events, n);
    var c := states[n].ctl;
    forall i | 0 <= i < |c.sent| ensures SentRight(c, c.sent[i]) && AcceptedOk(c, c.sent[i].id) {
      assert SentRight(c, c.sent[i]);
    }
  }

  // Shutdown.

  /** What a closing dispatcher no longer does. */
  ghost predicate Closed(c: Ctl, d: Ctl) {
    c.closing ==> d.closing && d.sent == c.sent && d.accepted == c.accepted
  }

  lemma ClosedCommand(s: Sys, e: Event)
    requires Safe(s) && Enabled(s, e) && OnCommand(e)
    ensures Closed(s.ctl, CtlNext(s, e))
  {
    var c := s.ctl;
    match e
    case RouteCommand(command, local) =>
    case WriteReturns(id) => ResumeStill(c, id);
    case WriteRaises(id) =>
    case ResponseArrives(_, r) => ResponseMoves(c, r);
    case TimerFires(id) => TimerMoves(c, id);
  }

  lemma ClosedStep(s: Sys, e: Event, t: Sys)
    requires Safe(s) && Step(s, e, t)
    ensures Closed(s.ctl, t.ctl) && (s.failed ==> t.failed)
  {
    hide CtlNext, GateOk, SentOk, Sound, LinkOk, FailedOk, Drained;
    if OnCommand(e) { ClosedCommand(s, e); }
    else if OnConnection(e) { ConnectionShape(s, e); }
    else { GlobalShape(s, e); }
  }

  /** A drained dispatcher answers nobody any more. */
  lemma DrainedAnswersNobody(c: Ctl, d: Ctl)
    requires Drained(c) && Sound(d) && d.accepted == c.accepted && NoneReturns(c, d) && Final(c, d)
    ensures d.ledger.outcome == c.ledger.outcome
  {
    forall id | id in d.ledger.outcome ensures id in c.ledger.outcome {
      assert Placed(d, id) && Placed(c, id);
    }
  }

  lemma DrainedStep(s: Sys, e: Event, t: Sys)
    requires Safe(s) && Step(s, e, t) && s.failed
    ensures t.ctl.ledger.outcome == s.ctl.ledger.outcome
  {
    hide CtlNext, GateOk, SentOk, LinkOk, Sound, Conserved, NoneReturns, Final;
    ClosedStep(s, e, t);
    StepPreserves(s, e);
    DrainedAnswersNobody(s.ctl, t.ctl);
  }

  /** From the shutdown flag on, no command write begins and no command is taken. */
  lemma {:induction false} NoWriteAfterShutdown(states: seq<Sys>, events: seq<Event>, i: nat, n: nat)
    requires Run(states, events) && i <= n <= |events| && states[i].ctl.closing
    ensures states[n].ctl.closing && states[n].ctl.sent == states[i].ctl.sent
    ensures states[n].ctl.accepted == states[i].ctl.accepted
    decreases n - i
  {
    hide Safe, Init, Step;
    if i < n {
      RunsAreSafe(states, events, i);
      AtStep(states, events, i);
      ClosedStep(states[i], events[i], states[i + 1]);
      NoWriteAfterShutdown(states, events, i + 1, n);
    }
  }

  /** From the fail phase on, queues, pending table and slots are empty and no
      outcome changes: late responses, timers and resumed writes alike; and every
      command ever accepted has its outcome if and only if no step forfeited. */
  lemma {:induction false} ShutdownIsFinal(states: seq<Sys>, events: seq<Event>, i: nat, n: nat)
    requires Run(states, events) && i <= n <= |events| && states[i].failed
    ensures Drained(states[n].ctl) && states[n].ctl.ledger.outcome == states[i].ctl.ledger.outcome
    ensures Clean(states, events, n) <==>
            forall id :: 0 <= id < |states[n].ctl.accepted| ==> id in states[n].ctl.ledger.outcome
    decreases n - i
  {
    hide Init, Step, GateOk, SentOk, Sound, LinkOk, Forfeits, Conserved;
    RunsAreSafe(states, events, i);
    if i < n {
      AtStep(states, events, i);
      DrainedStep(states[i], events[i], states[i + 1]);
      ClosedStep(states[i], events[i], states[i + 1]);
      ShutdownIsFinal(states, events, i + 1, n);
    } else {
      NothingLostIffClean(states, events, n);
      EveryoneAnswered(states[n].ctl);
    }
  }

  lemma EveryoneAnswered(c: Ctl)
    requires Drained(c) && Sound(c)
    ensures Conserved(c) <==> forall id :: 0 <= id < |c.accepted| ==> id in c.ledger.outcome
  {
    forall id: Id | id < |c.accepted| ensures Placed(c, id) <==> id in c.ledger.outcome {}
  }
}
