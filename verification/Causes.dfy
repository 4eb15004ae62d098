/** Every answer has its cause, and every write its circumstances: what the events of a
    run do, told from the states before and after them. */
module Causes {
  import opened Protocol
  import opened Controller
  import opened Accounts
  import opened Conservation
  import opened Steps
  import opened Resolvers
  import opened System
  import opened Loss
  import opened Safety
  import opened SafetyRuns
  import opened Slots
  import opened Correlation
  import opened Outcomes
  import opened Dispatching

  // ------------------------------------------------------------ every answer

  /** Answered for waiting on `b` past its residency cap. */
  ghost predicate Overdue(c: Ctl, d: Ctl, b: BoardId, id: Id) {
    && InFifo(c, id) && c.accepted[id].board == b
    && c.now - c.accepted[id].enqueuedAt > c.accepted[id].residencyCap
    && id in d.ledger.outcome && FailsWith(d.ledger.outcome[id], c.accepted[id], COMMAND_TIMEOUT)
  }

  /** Taken in by this very step, and past its residency cap at once. */
  ghost predicate StillbornOn(c: Ctl, d: Ctl, b: BoardId, id: Id) {
    && id == |c.accepted| < |d.accepted| && d.accepted[id].board == b && d.accepted[id].residencyCap < 0.0
    && id in d.ledger.outcome && FailsWith(d.ledger.outcome[id], d.accepted[id], COMMAND_TIMEOUT)
  }

  /** Open on board `b`. */
  predicate OpenOn(c: Ctl, b: BoardId, id: Id) { (InFifo(c, id) || InPending(c, id)) && c.accepted[id].board == b }

  /** Why the event answers this command. */
  ghost predicate Cause(c: Ctl, e: Event, d: Ctl, id: Id)
    requires id in d.ledger.outcome
  {
    var answer := d.ledger.outcome[id];
    match e
    case RouteCommand(command, _) => Overdue(c, d, command.target, id) || StillbornOn(c, d, command.target, id)
    case ResponseArrives(_, r) =>
      && r.boardSeq in c.pending.m && !r.overflows
      && var p := c.pending.m[r.boardSeq];
         || Overdue(c, d, p.board, id)
         || (p.id == id < |c.accepted| && c.accepted[id].boardSeq == r.boardSeq && p.writtenAt.Some?
             && Relays(answer, c.accepted[id], r, (c.now - p.writtenAt.value) * 1000.0))
    case TimerFires(t) =>
      && t in c.timers.asleep && c.timers.asleep[t].boardSeq in c.pending.m
      && var p := c.pending.m[c.timers.asleep[t].boardSeq];
         || Overdue(c, d, p.board, id)
         || (p.id == id < |c.accepted| && FailsWith(answer, c.accepted[id], COMMAND_TIMEOUT))
    case LivenessExpires(b) => OpenOn(c, b, id) && FailsWith(answer, c.accepted[id], BOARD_UNAVAILABLE)
    case ReportDown(b) => OpenOn(c, b, id) && FailsWith(answer, c.accepted[id], BOARD_UNAVAILABLE)
    case EstopTriggered => !c.latched && InFifo(c, id) && FailsWith(answer, c.accepted[id], ESTOP_ACTIVE)
    case ShutdownFails =>
      (InFifo(c, id) || InPending(c, id)) && FailsWith(answer, c.accepted[id], CONTROLLER_SHUTDOWN)
    case _ => false
  }

  /** Whom the step answers, each with its cause. */
  ghost predicate Caused(c: Ctl, e: Event, d: Ctl) {
    forall id: Id :: id in d.ledger.outcome && id !in c.ledger.outcome ==> Cause(c, e, d, id)
  }

  lemma ResponseCaused(c: Ctl, r: BoardReply, b: BoardId)
    requires Sound(c) && Valid(c) && Coupled(r.status, r.code)
    ensures Caused(c, ResponseArrives(b, r), HandleResponse(c, r))
  {
    hide LedgerOk, Tables, Relays, FailsWith, InFifo, Valid, Matched, TakeOut, DispatchNext;
    if r.boardSeq in c.pending.m {
      if r.overflows {
        TakeOutFrame(c, r.boardSeq);
      } else {
        hide HandleResponse;
        ResponseCorrelates(c, r);
      }
    }
  }

  lemma TimerCaused(c: Ctl, t: Id)
    requires Sound(c) && Valid(c) && t in c.timers.asleep
    ensures Caused(c, TimerFires(t), FireTimer(c, t))
  {
    hide LedgerOk, Tables, FailsWith, InFifo, Valid, FireTimer;
    TimeoutAnswers(c, t);
  }

  lemma DownCaused(c: Ctl, b: BoardId)
    requires Sound(c) && Valid(c) && b in c.boards
    ensures Caused(c, LivenessExpires(b), BoardDown(c, b)) && Caused(c, ReportDown(b), BoardDown(c, b))
  {
    hide LedgerOk, Tables, FailsWith, InFifo, InPending, Valid, BoardDown;
    BoardDownAnswers(c, b);
  }

  lemma TriggerCaused(c: Ctl)
    requires Sound(c) && Valid(c)
    ensures Caused(c, EstopTriggered, TriggerEstop(c))
  {
    hide LedgerOk, Tables, FailsWith, InFifo, InPending, Valid, TriggerEstop;
    if c.latched {
      LatchedStays(c);
      NobodyCaused(c, EstopTriggered, TriggerEstop(c));
    } else {
      TriggerAnswers(c);
    }
  }

  lemma LatchedStays(c: Ctl)
    requires Valid(c) && c.latched
    ensures TriggerEstop(c) == c
  {
  }

  lemma FailCaused(c: Ctl)
    requires Sound(c) && Valid(c)
    ensures Caused(c, ShutdownFails, FailRemaining(c))
  {
    hide LedgerOk, Tables, FailsWith, InFifo, InPending, Valid, FailRemaining;
    FailRemainingAnswers(c);
  }

  lemma RouteCaused(c: Ctl, command: Command, local: Reply)
    requires Sound(c) && Valid(c)
    ensures Caused(c, RouteCommand(command, local), Route(c, command, local).0)
  {
    hide Sound, Valid, Route, Accepts, Caused, DispatchNext;
    if Accepts(c, command) {
      AcceptsRefusesNot(c, command);
      TargetKnown(c, command);
      AcceptedRoute(c, command, local);
      AcceptCaused(c, command, local);
    } else {
      RefusedFrame(c, command, local);
      NobodyCaused(c, RouteCommand(command, local), Route(c, command, local).0);
    }
  }

  lemma AcceptCaused(c: Ctl, command: Command, local: Reply)
    requires Sound(c) && Accepts(c, command) && command.target in c.boards
    ensures Caused(c, RouteCommand(command, local), DispatchNext(Enqueue(c, command), command.target))
  {
    hide LedgerOk, Tables, FailsWith, Valid, Accepts, DispatchNext, Enqueue, InFifo, AnsweredStale;
    var m, b := Enqueue(c, command), command.target;
    AcceptedKeeps(c, command);
    EnqueueJoins(c, command);
    DispatchAnswers(m, b);
    SoundIsValid(m);
    DispatchAccepted(m, b);
    var d := DispatchNext(m, b);
    forall id: Id | id in d.ledger.outcome && id !in c.ledger.outcome
      ensures Cause(c, RouteCommand(command, local), d, id)
    {
      assert AnsweredStale(m, d, b, id);
      JoinedStale(c, m, d, b, id);
    }
  }

  lemma AcceptsRefusesNot(c: Ctl, command: Command)
    requires Accepts(c, command)
    ensures Refusal(c, command).None?
  {
  }

  /** What joining the queue changes. */
  ghost predicate Joins(c: Ctl, m: Ctl) {
    && m.now == c.now && m.ledger.outcome == c.ledger.outcome
    && |m.accepted| == |c.accepted| + 1 && m.accepted[..|c.accepted|] == c.accepted
    && m.accepted[|c.accepted|].enqueuedAt == c.now
    && forall id: Id :: id < |c.accepted| && InFifo(m, id) ==> InFifo(c, id)
  }

  lemma EnqueueJoins(c: Ctl, command: Command)
    requires Sound(c) && Accepts(c, command)
    ensures Joins(c, Enqueue(c, command)) && command.target in Enqueue(c, command).boards
  {
    hide LedgerOk;
    var m := Enqueue(c, command);
    EnqueueShape(c, command);
    forall id: Id | id < |c.accepted| && InFifo(m, id) ensures InFifo(c, id) {
      TailJoins(c, m, m.accepted[|c.accepted|], id);
    }
  }

  lemma JoinedStale(c: Ctl, m: Ctl, d: Ctl, b: BoardId, id: Id)
    requires Joins(c, m) && AnsweredStale(m, d, b, id) && d.accepted == m.accepted
    ensures Overdue(c, d, b, id) || StillbornOn(c, d, b, id)
  {
    hide FailsWith;
    assert id < |m.accepted|;
  }

  /** The steps that answer nobody. */
  lemma OthersAnswerNobody(s: Sys, e: Event)
    requires Enabled(s, e)
    requires !e.RouteCommand? && !e.ResponseArrives? && !e.TimerFires? && !e.LivenessExpires? && !e.ReportDown?
    requires !e.EstopTriggered? && !e.ShutdownFails?
    ensures CtlNext(s, e).ledger.outcome == s.ctl.ledger.outcome
  {
    hide Valid, Route, HandleResponse, FireTimer, BoardDown, TriggerEstop, FailRemaining, ResumeWrite,
         RegisterAndAssert;
    if e.WriteReturns? { ResumeAnswersNobody(s.ctl, e.id); }
    if e.SchemaArrives? { SchemaAnswersNobody(s.ctl, e.board, e.schema); }
  }

  lemma SchemaAnswersNobody(c: Ctl, b: BoardId, m: Object)
    requires b in c.boards
    ensures RegisterAndAssert(c, b, m).ledger.outcome == c.ledger.outcome
  {
  }

  lemma ResumeAnswersNobody(c: Ctl, id: Id)
    requires Valid(c) && id in c.writing
    ensures ResumeWrite(c, id).ledger == c.ledger
  {
  }

  lemma StepCaused(s: Sys, e: Event)
    requires Sound(s.ctl) && Enabled(s, e)
    ensures Caused(s.ctl, e, CtlNext(s, e))
  {
    hide Sound, Caused, Valid, Route, HandleResponse, FireTimer, BoardDown, TriggerEstop, FailRemaining;
    var c := s.ctl;
    if e.RouteCommand? { RouteCaused(c, e.command, e.local); }
    else if e.ResponseArrives? { ResponseCaused(c, e.reply, e.board); }
    else if e.TimerFires? { TimerCaused(c, e.id); }
    else if e.LivenessExpires? || e.ReportDown? { DownCaused(c, e.board); }
    else if e.EstopTriggered? { TriggerCaused(c); }
    else if e.ShutdownFails? { FailCaused(c); }
    else {
      OthersAnswerNobody(s, e);
      NobodyCaused(c, e, CtlNext(s, e));
    }
  }

  lemma NobodyCaused(c: Ctl, e: Event, d: Ctl)
    requires d.ledger.outcome == c.ledger.outcome
    ensures Caused(c, e, d)
  {
  }

  /** In every run, over any boards, an answer has one of these causes: the board's
      response, relayed unchanged; its own execution timer; its residency cap, at a
      dispatch of its board; the loss of its board; a trigger of the e-stop while it
      was queued; or the fail phase of a shutdown. */
  lemma EveryAnswerHasItsCause(states: seq<Sys>, events: seq<Event>, n: nat, id: Id)
    requires Run(states, events) && n < |events|
    requires id in states[n + 1].ctl.ledger.outcome && id !in states[n].ctl.ledger.outcome
    ensures Cause(states[n].ctl, events[n], states[n + 1].ctl, id)
  {
    hide Init, Sound, CtlNext, Cause, LinkOk, GateOk, SentOk, FailedOk;
    RunsAreSafe(states, events, n);
    AtStep(states, events, n);
    StepCaused(states[n], events[n]);
  }
}
