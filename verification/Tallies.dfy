/** The counters against what they count. */
module Tallies {
  import opened Protocol
  import opened SchemaGate
  import opened ResolvedCache
  import opened Controller
  import opened Conservation
  import opened Steps
  import opened Resolvers
  import opened System
  import opened Loss
  import opened Safety
  import opened SafetyRuns
  import opened Slots
  import opened Outcomes
  import opened Delivery
  import opened Dispatching
  import opened Causes
  import opened Controls

  function Tally(k: Counters, st: Status): nat {
    match st
    case OK => k.ok
    case ERROR => k.error
    case TIMEOUT => k.timeout
  }

  /** How many resolutions had this status. */
  function Resolved(log: seq<Resolution>, st: Status): nat {
    if log == [] then 0 else Resolved(log[..|log| - 1], st) + if log[|log| - 1].status == st then 1 else 0
  }

  /** What a counter has more than the log. */
  function Surplus(l: Ledger, st: Status): int { Tally(l.counters, st) - Resolved(l.log, st) }

  ghost predicate SameSurplus(l: Ledger, t: Ledger) { forall st :: Surplus(t, st) == Surplus(l, st) }

  lemma SettleSurplus(l: Ledger, e: Entry, r: Reply)
    ensures SameSurplus(l, Settle(l, e, r))
  {
    assert Settle(l, e, r).log[..|l.log|] == l.log;
  }

  lemma ResolveErrorSurplus(l: Ledger, e: Entry, code: ErrorCode)
    ensures SameSurplus(l, ResolveError(l, e, code))
  {
    hide Settle;
    if e.id !in l.outcome { SettleSurplus(l, e, ErrorReply(e.clientSeq, e.client, code)); }
  }

  lemma {:induction false} ResolveAllSurplus(l: Ledger, es: seq<Entry>, code: ErrorCode)
    ensures SameSurplus(l, ResolveAll(l, es, code))
    decreases |es|
  {
    hide ResolveError, Surplus;
    if es != [] {
      ResolveErrorSurplus(l, es[0], code);
      ResolveAllSurplus(ResolveError(l, es[0], code), es[1..], code);
    }
  }

  lemma RecountSurplus(l: Ledger, t: Ledger)
    requires t.log == l.log && t.counters.ok == l.counters.ok
    requires t.counters.error == l.counters.error && t.counters.timeout == l.counters.timeout
    ensures SameSurplus(l, t)
  {
  }

  lemma DispatchSurplus(c: Ctl, b: BoardId)
    requires c.pending.Valid() && b in c.boards
    ensures SameSurplus(c.ledger, DispatchNext(c, b).ledger)
  {
    hide ResolveAll, Surplus;
    if MayDispatch(c, b) {
      var es := c.boards[b].fifo[..StalePrefix(c.boards[b].fifo, c.now)];
      ResolveAllSurplus(c.ledger, es, COMMAND_TIMEOUT);
      StaleTrims(c, b);
      RecountSurplus(ResolveAll(c.ledger, es, COMMAND_TIMEOUT), DropStale(c, b).ledger);
      hide DropStale;
    }
  }

  /** The step answers a routed command at once, with this status. */
  ghost predicate AnsweredAtOnce(c: Ctl, e: Event, st: Status) {
    && e.RouteCommand?
    && if c.closing || e.command.target != "controller" then AtTheDoor(c, e.command).Some? && st == ERROR
       else e.local.status == st
  }

  ghost function AtOnce(states: seq<Sys>, events: seq<Event>, n: nat, st: Status): nat
    requires n <= |events| < |states|
  {
    if n == 0 then 0
    else AtOnce(states, events, n - 1, st) + if AnsweredAtOnce(states[n - 1].ctl, events[n - 1], st) then 1 else 0
  }

  /** The surplus grows by the answers given at once. */
  ghost predicate Counts(c: Ctl, e: Event, d: Ctl) {
    forall st :: Surplus(d.ledger, st) == Surplus(c.ledger, st) + if AnsweredAtOnce(c, e, st) then 1 else 0
  }

  lemma SameCounts(c: Ctl, e: Event, d: Ctl)
    requires !e.RouteCommand? && SameSurplus(c.ledger, d.ledger)
    ensures Counts(c, e, d)
  {
  }

  lemma RouteCounts(c: Ctl, command: Command, local: Reply)
    requires Sound(c) && Valid(c)
    ensures Counts(c, RouteCommand(command, local), Route(c, command, local).0)
  {
    hide Sound, Valid, Route, Accepts, DispatchNext, Enqueue;
    RoutingAccepts(c, command, local);
    if Accepts(c, command) {
      AcceptsRefusesNot(c, command);
      TargetKnown(c, command);
      AcceptedRoute(c, command, local);
      AcceptedKeeps(c, command);
      PendingOf(Enqueue(c, command));
      EnqueueSurplus(c, command);
      DispatchSurplus(Enqueue(c, command), command.target);
      DoorOpen(c, command);
    } else if c.closing || command.target != "controller" {
      RoutingRefusals(c, command, local);
      NotAccepted(c, command, local);
    } else {
      LocalAnswers(c, command, local);
    }
  }

  lemma PendingOf(c: Ctl)
    requires Sound(c)
    ensures c.pending.Valid()
  {
  }

  lemma EnqueueSurplus(c: Ctl, command: Command)
    requires Accepts(c, command)
    ensures var m := Enqueue(c, command); command.target in m.boards && SameSurplus(c.ledger, m.ledger)
  {
  }

  lemma DoorOpen(c: Ctl, command: Command)
    requires Accepts(c, command)
    ensures !c.closing && command.target != "controller" && AtTheDoor(c, command).None?
  {
  }

  lemma NotAccepted(c: Ctl, command: Command, local: Reply)
    requires Valid(c) && !Accepts(c, command) && (c.closing || command.target != "controller")
    ensures Route(c, command, local).1.Answered? || Route(c, command, local).0.ledger == c.ledger
  {
    hide Valid;
  }

  lemma ResponseCounts(c: Ctl, r: BoardReply, b: BoardId)
    requires Sound(c) && Valid(c) && Coupled(r.status, r.code)
    ensures Counts(c, ResponseArrives(b, r), HandleResponse(c, r))
  {
    hide Sound, Valid, DispatchNext, TakeOut, Settle, RelayedReply, Counts, SameSurplus, KeepsAll;
    if r.boardSeq !in c.pending.m {
      RecountSurplus(c.ledger, HandleResponse(c, r).ledger);
    } else {
      TakeOutFrame(c, r.boardSeq);
      if r.overflows {
        RecountSurplus(c.ledger, TakeOut(c, r.boardSeq).ledger);
      } else {
        var e := c.pending.m[r.boardSeq];
        EntryBoard(c, r.boardSeq);
        SettleSurplus(c.ledger, e, RelayedReply(e, r, c.now));
        DispatchSurplus(Matched(c, r), e.board);
        ChainSurplus(c.ledger, Matched(c, r).ledger, HandleResponse(c, r).ledger);
      }
    }
    SameCounts(c, ResponseArrives(b, r), HandleResponse(c, r));
  }

  lemma ChainSurplus(l: Ledger, m: Ledger, t: Ledger)
    requires SameSurplus(l, m) && SameSurplus(m, t)
    ensures SameSurplus(l, t)
  {
  }

  lemma TimerCounts(c: Ctl, id: Id)
    requires Valid(c) && id in c.timers.asleep
    ensures Counts(c, TimerFires(id), FireTimer(c, id))
  {
    hide Valid, DispatchNext, TimedOut, ResolveError, Counts, SameSurplus;
    var k := c.timers.asleep[id].boardSeq;
    if k !in c.pending.m {
      RecountSurplus(c.ledger, FireTimer(c, id).ledger);
    } else {
      TimeoutFrame(c, id);
      EntryBoard(c, k);
      ResolveErrorSurplus(c.ledger, c.pending.m[k], COMMAND_TIMEOUT);
      DispatchSurplus(TimedOut(c, id), c.pending.m[k].board);
      ChainSurplus(c.ledger, TimedOut(c, id).ledger, FireTimer(c, id).ledger);
    }
    SameCounts(c, TimerFires(id), FireTimer(c, id));
  }

  lemma DownCounts(c: Ctl, b: BoardId, e: Event)
    requires Valid(c) && b in c.boards && (e == LivenessExpires(b) || e == ReportDown(b))
    ensures Counts(c, e, BoardDown(c, b))
  {
    hide Valid, BoardDown, ResolveAll, Counts, SameSurplus;
    PendingIsValid(c);
    BoardDownLedger(c, b);
    var es := OnBoard(c.pending.Values(), b) + c.boards[b].fifo;
    RecountSurplus(c.ledger, CountDown(c.ledger));
    ResolveAllSurplus(CountDown(c.ledger), es, BOARD_UNAVAILABLE);
    ChainSurplus(c.ledger, CountDown(c.ledger), BoardDown(c, b).ledger);
    SameCounts(c, e, BoardDown(c, b));
  }

  lemma FlushCounts(c: Ctl)
    requires Valid(c)
    ensures Counts(c, EstopTriggered, TriggerEstop(c)) && Counts(c, ShutdownFails, FailRemaining(c))
  {
    hide Valid, TriggerEstop, FailRemaining, ResolveAll, Counts, SameSurplus, Queued;
    FailClears(c);
    PendingIsValid(c);
    BoardsListed(c);
    ResolveAllSurplus(c.ledger, c.pending.Values() + Queued(c), CONTROLLER_SHUTDOWN);
    SameCounts(c, ShutdownFails, FailRemaining(c));
    if c.latched {
      LatchedStays(c);
      RecountSurplus(c.ledger, c.ledger);
    } else {
      TriggerClears(c);
      ResolveAllSurplus(c.ledger, [] + Queued(c), ESTOP_ACTIVE);
    }
    SameCounts(c, EstopTriggered, TriggerEstop(c));
  }

  lemma OtherCounts(s: Sys, e: Event)
    requires Enabled(s, e)
    requires !e.RouteCommand? && !e.ResponseArrives? && !e.TimerFires? && !e.LivenessExpires? && !e.ReportDown?
    requires !e.EstopTriggered? && !e.ShutdownFails?
    ensures Counts(s.ctl, e, CtlNext(s, e))
  {
    hide Valid, Route, HandleResponse, FireTimer, BoardDown, TriggerEstop, FailRemaining, ResumeWrite,
         RegisterAndAssert, Counts, SameSurplus;
    if e.WriteReturns? { ResumeAnswersNobody(s.ctl, e.id); }
    if e.SchemaArrives? { SchemaLog(s.ctl, e.board, e.schema); }
    RecountSurplus(s.ctl.ledger, CtlNext(s, e).ledger);
    SameCounts(s.ctl, e, CtlNext(s, e));
  }

  lemma SchemaLog(c: Ctl, b: BoardId, m: Object)
    requires b in c.boards
    ensures var l, k := RegisterAndAssert(c, b, m).ledger, c.ledger.counters;
            l == c.ledger.(counters := k.(versionMismatches := l.counters.versionMismatches))
  {
  }

  lemma StepCounts(s: Sys, e: Event)
    requires Sound(s.ctl) && Enabled(s, e)
    ensures Counts(s.ctl, e, CtlNext(s, e))
  {
    hide Sound, Counts, Valid, Route, HandleResponse, FireTimer, BoardDown, TriggerEstop, FailRemaining;
    var c := s.ctl;
    if e.RouteCommand? { RouteCounts(c, e.command, e.local); }
    else if e.ResponseArrives? { ResponseCounts(c, e.reply, e.board); }
    else if e.TimerFires? { TimerCounts(c, e.id); }
    else if e.LivenessExpires? || e.ReportDown? { DownCounts(c, e.board, e); }
    else if e.EstopTriggered? || e.ShutdownFails? { FlushCounts(c); }
    else { OtherCounts(s, e); }
  }

  /** In every run, for each status: the counter of answers with that status is the
      number of commands resolved with it and of commands answered with it at once. */
  lemma {:induction false} CountersTellStatuses(states: seq<Sys>, events: seq<Event>, n: nat, st: Status)
    requires Run(states, events) && n <= |events|
    ensures Tally(states[n].ctl.ledger.counters, st)
            == Resolved(states[n].ctl.ledger.log, st) + AtOnce(states, events, n, st)
  {
    hide Init, Step, Safe, AnsweredAtOnce;
    if n == 0 {
      StartTally(states[0], st);
    } else {
      CountersTellStatuses(states, events, n - 1, st);
      RunsAreSafe(states, events, n - 1);
      AtStep(states, events, n - 1);
      CountsAfter(states[n - 1], events[n - 1], states[n], st);
    }
  }

  lemma StartTally(s: Sys, st: Status)
    requires Init(s)
    ensures Tally(s.ctl.ledger.counters, st) == 0 && s.ctl.ledger.log == []
  {
  }

  lemma CountsAfter(s: Sys, e: Event, t: Sys, st: Status)
    requires Safe(s) && Step(s, e, t)
    ensures Surplus(t.ctl.ledger, st) == Surplus(s.ctl.ledger, st) + if AnsweredAtOnce(s.ctl, e, st) then 1 else 0
  {
    hide Sound, CtlNext, LinkOk, GateOk, SentOk, FailedOk, Surplus, AnsweredAtOnce;
    StepCounts(s, e);
  }

  // ------------------------------------------------- the counters of events

  /** What the counters of events count: losses of boards, refused registrations, and
      responses under a seq that is not pending. */
  datatype Counted = Disconnects | Mismatches | Unmatched

  function CountOf(k: Counters, what: Counted): nat {
    match what
    case Disconnects => k.boardDisconnects
    case Mismatches => k.versionMismatches
    case Unmatched => k.unmatched
  }

  ghost predicate Counting(c: Ctl, e: Event, what: Counted) {
    match what
    case Disconnects => e.LivenessExpires? || e.ReportDown?
    case Mismatches => e.SchemaArrives? && !Acceptable(e.schema)
    case Unmatched => e.ResponseArrives? && e.reply.boardSeq !in c.pending.m
  }

  ghost function Times(states: seq<Sys>, events: seq<Event>, n: nat, what: Counted): nat
    requires n <= |events| < |states|
  {
    if n == 0 then 0
    else Times(states, events, n - 1, what) + if Counting(states[n - 1].ctl, events[n - 1], what) then 1 else 0
  }

  /** These three counters stand still. */
  predicate NoneCounted(k: Counters, n: Counters) {
    n.boardDisconnects == k.boardDisconnects && n.versionMismatches == k.versionMismatches && n.unmatched == k.unmatched
  }

  lemma DispatchNoneCounted(c: Ctl, b: BoardId)
    requires c.pending.Valid() && b in c.boards
    ensures NoneCounted(c.ledger.counters, DispatchNext(c, b).ledger.counters)
  {
    hide ResolveAll;
    ResolveAllCounters(c.ledger, c.boards[b].fifo[..StalePrefix(c.boards[b].fifo, c.now)], COMMAND_TIMEOUT);
  }

  lemma RouteNoneCounted(c: Ctl, command: Command, local: Reply)
    requires Sound(c) && Valid(c)
    ensures NoneCounted(c.ledger.counters, Route(c, command, local).0.ledger.counters)
  {
    hide Sound, Valid, Route, Accepts, DispatchNext, Enqueue;
    if Accepts(c, command) {
      AcceptsRefusesNot(c, command);
      TargetKnown(c, command);
      AcceptedRoute(c, command, local);
      AcceptedKeeps(c, command);
      PendingOf(Enqueue(c, command));
      EnqueueNoneCounted(c, command);
      DispatchNoneCounted(Enqueue(c, command), command.target);
    } else {
      RefusedNoneCounted(c, command, local);
    }
  }

  lemma EnqueueNoneCounted(c: Ctl, command: Command)
    requires Accepts(c, command)
    ensures var m := Enqueue(c, command); command.target in m.boards && m.ledger.counters == c.ledger.counters
  {
  }

  lemma RefusedNoneCounted(c: Ctl, command: Command, local: Reply)
    requires Valid(c) && !Accepts(c, command)
    ensures NoneCounted(c.ledger.counters, Route(c, command, local).0.ledger.counters)
  {
    hide Valid;
  }

  lemma ResponseCounted(c: Ctl, r: BoardReply)
    requires Valid(c)
    ensures var k, n := c.ledger.counters, HandleResponse(c, r).ledger.counters;
            && n.boardDisconnects == k.boardDisconnects && n.versionMismatches == k.versionMismatches
            && n.unmatched == k.unmatched + if r.boardSeq in c.pending.m then 0 else 1
  {
    hide Valid, DispatchNext, TakeOut;
    if r.boardSeq in c.pending.m {
      TakeOutFrame(c, r.boardSeq);
      if !r.overflows {
        EntryBoard(c, r.boardSeq);
        DispatchNoneCounted(Matched(c, r), c.pending.m[r.boardSeq].board);
      }
    }
  }

  lemma TimerNoneCounted(c: Ctl, id: Id)
    requires Valid(c) && id in c.timers.asleep
    ensures NoneCounted(c.ledger.counters, FireTimer(c, id).ledger.counters)
  {
    hide Valid, DispatchNext, TimedOut;
    var k := c.timers.asleep[id].boardSeq;
    if k in c.pending.m {
      TimeoutFrame(c, id);
      EntryBoard(c, k);
      DispatchNoneCounted(TimedOut(c, id), c.pending.m[k].board);
    }
  }

  lemma DownCounted(c: Ctl, b: BoardId)
    requires Valid(c) && b in c.boards
    ensures var k, n := c.ledger.counters, BoardDown(c, b).ledger.counters;
            && n.boardDisconnects == k.boardDisconnects + 1 && n.versionMismatches == k.versionMismatches
            && n.unmatched == k.unmatched
  {
    hide Valid, BoardDown, ResolveAll;
    PendingIsValid(c);
    BoardDownLedger(c, b);
    ResolveAllCounters(CountDown(c.ledger), OnBoard(c.pending.Values(), b) + c.boards[b].fifo, BOARD_UNAVAILABLE);
  }

  lemma FlushNoneCounted(c: Ctl)
    requires Valid(c)
    ensures NoneCounted(c.ledger.counters, TriggerEstop(c).ledger.counters)
    ensures NoneCounted(c.ledger.counters, FailRemaining(c).ledger.counters)
  {
    hide Valid, TriggerEstop, FailRemaining, ResolveAll, Queued;
    FailClears(c);
    PendingIsValid(c);
    BoardsListed(c);
    ResolveAllCounters(c.ledger, c.pending.Values() + Queued(c), CONTROLLER_SHUTDOWN);
    if c.latched {
      LatchedStays(c);
    } else {
      TriggerClears(c);
      ResolveAllCounters(c.ledger, [] + Queued(c), ESTOP_ACTIVE);
    }
  }

  lemma SchemaCounted(c: Ctl, b: BoardId, m: Object)
    requires b in c.boards
    ensures RegisterAndAssert(c, b, m).ledger.counters.versionMismatches
            == c.ledger.counters.versionMismatches + if Acceptable(m) then 0 else 1
  {
    hide Acceptable, CheckProtocolVersion;
    RegistersIff(m);
  }

  lemma StepCounted(s: Sys, e: Event, what: Counted)
    requires Sound(s.ctl) && Enabled(s, e)
    ensures CountOf(CtlNext(s, e).ledger.counters, what)
            == CountOf(s.ctl.ledger.counters, what) + if Counting(s.ctl, e, what) then 1 else 0
  {
    hide Sound, Valid, Route, HandleResponse, FireTimer, BoardDown, TriggerEstop, FailRemaining, ResumeWrite,
         RegisterAndAssert, Acceptable;
    var c := s.ctl;
    if e.RouteCommand? { RouteNoneCounted(c, e.command, e.local); }
    else if e.ResponseArrives? { ResponseCounted(c, e.reply); }
    else if e.TimerFires? { TimerNoneCounted(c, e.id); }
    else if e.LivenessExpires? || e.ReportDown? { DownCounted(c, e.board); }
    else if e.EstopTriggered? || e.ShutdownFails? { FlushNoneCounted(c); }
    else if e.WriteReturns? { ResumeAnswersNobody(c, e.id); }
    else if e.SchemaArrives? {
      SchemaLog(c, e.board, e.schema);
      SchemaCounted(c, e.board, e.schema);
    }
  }

  /** In every run these counters are the numbers of the events they are named after. */
  lemma {:induction false} CountersTellEvents(states: seq<Sys>, events: seq<Event>, n: nat, what: Counted)
    requires Run(states, events) && n <= |events|
    ensures CountOf(states[n].ctl.ledger.counters, what) == Times(states, events, n, what)
  {
    hide Init, Enabled, CtlNext, Counting, Safe, CountOf;
    if n == 0 {
      StartCount(states[0], what);
    } else {
      CountersTellEvents(states, events, n - 1, what);
      RunsAreSafe(states, events, n - 1);
      SafeIsSound(states[n - 1]);
      AtStep(states, events, n - 1);
      StepCounted(states[n - 1], events[n - 1], what);
    }
  }

  lemma SafeIsSound(s: Sys)
    requires Safe(s)
    ensures Sound(s.ctl)
  {
  }

  lemma StartCount(s: Sys, what: Counted)
    requires Init(s)
    ensures CountOf(s.ctl.ledger.counters, what) == 0
  {
  }

  // --------------------------------------------------------------- the clock

  lemma DispatchClock(c: Ctl, b: BoardId)
    requires c.pending.Valid() && b in c.boards
    ensures DispatchNext(c, b).now == c.now
  {
    hide ResolveAll, StalePrefix;
  }

  lemma RouteClock(c: Ctl, command: Command, local: Reply)
    requires Sound(c) && Valid(c)
    ensures Route(c, command, local).0.now == c.now
  {
    hide Sound, Valid, Route, Accepts, DispatchNext, Enqueue;
    if Accepts(c, command) {
      AcceptsRefusesNot(c, command);
      TargetKnown(c, command);
      AcceptedRoute(c, command, local);
      AcceptedKeeps(c, command);
      PendingOf(Enqueue(c, command));
      EnqueueJoins(c, command);
      DispatchClock(Enqueue(c, command), command.target);
    } else {
      RefusedFrame(c, command, local);
    }
  }

  lemma ResponseClock(c: Ctl, r: BoardReply)
    requires Valid(c)
    ensures HandleResponse(c, r).now == c.now
  {
    hide Valid, DispatchNext, TakeOut, Settle;
    if r.boardSeq in c.pending.m {
      TakeOutFrame(c, r.boardSeq);
      if !r.overflows {
        EntryBoard(c, r.boardSeq);
        DispatchClock(Matched(c, r), c.pending.m[r.boardSeq].board);
      }
    }
  }

  lemma TimerClock(c: Ctl, id: Id)
    requires Valid(c) && id in c.timers.asleep
    ensures FireTimer(c, id).now == c.now
  {
    hide Valid, DispatchNext, TimedOut;
    var k := c.timers.asleep[id].boardSeq;
    if k in c.pending.m {
      TimeoutFrame(c, id);
      EntryBoard(c, k);
      DispatchClock(TimedOut(c, id), c.pending.m[k].board);
    }
  }

  lemma ResumeClock(c: Ctl, id: Id)
    requires Valid(c) && id in c.writing
    ensures ResumeWrite(c, id).now == c.now
  {
  }

  lemma SchemaClock(c: Ctl, b: BoardId, m: Object)
    requires b in c.boards
    ensures RegisterAndAssert(c, b, m).now == c.now
  {
  }

  lemma StepClock(s: Sys, e: Event)
    requires Sound(s.ctl) && Enabled(s, e)
    ensures CtlNext(s, e).now == s.ctl.now + if e.Tick? then e.elapsed else 0.0
  {
    hide Sound, Valid, Route, HandleResponse, FireTimer, BoardDown, TriggerEstop, FailRemaining, ResumeWrite,
         RegisterAndAssert;
    var c := s.ctl;
    if e.RouteCommand? { RouteClock(c, e.command, e.local); }
    else if e.ResponseArrives? { ResponseClock(c, e.reply); }
    else if e.TimerFires? { TimerClock(c, e.id); }
    else if e.LivenessExpires? || e.ReportDown? { DownLeaves(c, e.board); }
    else if e.EstopTriggered? { if c.latched { LatchedStays(c); } else { TriggerLeaves(c); } }
    else if e.ShutdownFails? { FailLeaves(c); }
    else if e.WriteReturns? { ResumeClock(c, e.id); }
    else if e.SchemaArrives? { SchemaClock(c, e.board, e.schema); }
  }

  function Elapsed(events: seq<Event>, n: nat): real
    requires n <= |events|
  {
    if n == 0 then 0.0 else Elapsed(events, n - 1) + if events[n - 1].Tick? then events[n - 1].elapsed else 0.0
  }

  /** In every run the clock has moved by the time that passed, and by nothing else. */
  lemma {:induction false} ClockTellsTime(states: seq<Sys>, events: seq<Event>, n: nat)
    requires Run(states, events) && n <= |events|
    ensures states[n].ctl.now == states[0].ctl.now + Elapsed(events, n)
  {
    hide Init, Enabled, CtlNext, Safe;
    if n > 0 {
      ClockTellsTime(states, events, n - 1);
      RunsAreSafe(states, events, n - 1);
      SafeIsSound(states[n - 1]);
      AtStep(states, events, n - 1);
      StepClock(states[n - 1], events[n - 1]);
    }
  }
}
