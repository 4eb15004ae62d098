/** Runs in which no step forfeits: slots, pending entries, suspended writes and
    timers agree at every suspension point. */
module Service {
  import opened Basics
  import opened Protocol
  import opened Controller
  import opened Conservation
  import opened Steps
  import opened Resolvers
  import opened System
  import opened Loss
  import opened Safety
  import opened SafetyRuns
  import opened Flight
  import opened Slots

  ghost predicate Steady(s: Sys) { Safe(s) && Conserved(s.ctl) && InFlightOk(s.ctl) }

  // --------------------------------------------------------------- one event

  lemma RouteSteady(s: Sys, command: Command, local: Reply)
    requires Steady(s) && !RouteOverwrites(s.ctl, command)
    ensures var d := Route(s.ctl, command, local).0; InFlightOk(d)
  {
    var c := s.ctl;
    var d := Route(c, command, local).0;
    if Accepts(c, command) {
      var m := Enqueue(c, command);
      AcceptedRoute(c, command, local);
      EnqueueKeeps(c, command);
      EnqueueInFlight(c, command);
      DispatchInFlight(m, command.target);
    } else {
      RefusedSteady(c, command, local);
    }
  }

  lemma RefusedSteady(c: Ctl, command: Command, local: Reply)
    requires Valid(c) && InFlightOk(c) && !Accepts(c, command)
    ensures InFlightOk(Route(c, command, local).0)
  {
    hide Route, Valid;
    RefusedFrame(c, command, local);
    SameInFlight(c, Route(c, command, local).0);
  }

  lemma SameInFlight(c: Ctl, d: Ctl)
    requires InFlightOk(c) && d.accepted == c.accepted && d.boards.Keys == c.boards.Keys
    requires forall b :: b in c.boards ==>
             d.boards[b].fifo == c.boards[b].fifo && d.boards[b].inFlight == c.boards[b].inFlight
    requires d.pending == c.pending && d.timers == c.timers && d.writing == c.writing && d.stranded == c.stranded
    ensures InFlightOk(d)
  {
    forall id ensures InFifo(d, id) <==> InFifo(c, id) { SameQueues(c, d, id); }
    SlotsSame(c, d);
  }

  lemma ResponseSteady(s: Sys, r: BoardReply)
    requires Steady(s) && Coupled(r.status, r.code) && !ResponseForfeits(s.ctl, r)
    ensures var d := HandleResponse(s.ctl, r); InFlightOk(d)
  {
    hide GateOk, SentOk, LinkOk, FailedOk, Conserved;
    var c := s.ctl;
    if r.boardSeq in c.pending.m {
      MatchedSettles(c, r);
      MatchedInFlight(c, r);
      DispatchInFlight(Matched(c, r), c.pending.m[r.boardSeq].board);
    } else {
      SameInFlight(c, HandleResponse(c, r));
    }
  }

  lemma TimerSteady(s: Sys, id: Id)
    requires Steady(s) && id in s.ctl.timers.asleep
    requires var k := s.ctl.timers.asleep[id].boardSeq;
             k in s.ctl.pending.m ==> !Overwrites(TimedOut(s.ctl, id), s.ctl.pending.m[k].board)
    ensures var d := FireTimer(s.ctl, id); InFlightOk(d)
  {
    hide GateOk, SentOk, LinkOk, FailedOk, Conserved;
    var c := s.ctl;
    TimersFindTheirEntry(c, id);
    TimedOutSettles(c, id);
    TimedOutInFlight(c, id);
    DispatchInFlight(TimedOut(c, id), c.pending.m[c.timers.asleep[id].boardSeq].board);
  }

  lemma WriteEndsSteady(s: Sys, id: Id)
    requires Steady(s) && id in s.ctl.writing
    ensures !DropsOther(s.ctl, id) ==>
              var d := ResumeWrite(s.ctl, id); InFlightOk(d)
    ensures var d := AbortWrite(s.ctl, id); InFlightOk(d)
  {
    hide GateOk, SentOk, LinkOk, FailedOk, Conserved;
    var c := s.ctl;
    AbortInFlight(c, id);
    if !DropsOther(c, id) {
      ResumeInFlight(c, id);
      ResumeSlots(c, id);
    }
  }

  /** A resumed write finds its slot already taken from it, or keeps it. */
  lemma ResumeSlots(c: Ctl, id: Id)
    requires Valid(c) && InFlightOk(c) && id in c.writing && !DropsOther(c, id)
    ensures ResumeWrite(c, id).boards == c.boards
    ensures ResumeWrite(c, id).cfg == c.cfg && ResumeWrite(c, id).closing == c.closing
  {
  }

  lemma DownSteady(c: Ctl, b: BoardId)
    requires Sound(c) && InFlightOk(c) && b in c.boards
    ensures var d := BoardDown(c, b); InFlightOk(d)
  {
    BoardDownInFlight(c, b);
    BoardDownOneBoard(c, b);
    DownFrame(c, b);
  }

  lemma DownFrame(c: Ctl, b: BoardId)
    requires Valid(c) && b in c.boards
    ensures BoardDown(c, b).cfg == c.cfg && BoardDown(c, b).closing == c.closing
  {
  }

  /** One board changes its connection, its gates or its e-stop flag. */
  ghost predicate Relinks(c: Ctl, d: Ctl, b: BoardId) {
    && b in c.boards && b in d.boards && d.cfg == c.cfg && d.closing == c.closing && d.accepted == c.accepted
    && d.boards == c.boards[b := d.boards[b]]
    && d.boards[b].fifo == c.boards[b].fifo && d.boards[b].inFlight == c.boards[b].inFlight
    && d.pending == c.pending && d.timers == c.timers && d.writing == c.writing && d.stranded == c.stranded
    && (d.boards[b].fifo == [] || (Ready(d.boards[b]) ==> Ready(c.boards[b])))
  }

  lemma RelinkSteady(c: Ctl, d: Ctl, b: BoardId)
    requires InFlightOk(c) && Relinks(c, d, b)
    ensures InFlightOk(d)
  {
    SameInFlight(c, d);
  }

  lemma SchemaRelinks(c: Ctl, b: BoardId, m: Object)
    requires b in c.boards && c.boards[b].fifo == []
    ensures Relinks(c, RegisterAndAssert(c, b, m), b)
  {
  }

  lemma SetConnRelinks(c: Ctl, b: BoardId, state: ConnState)
    requires b in c.boards && state != REGISTERED
    ensures Relinks(c, SetConn(c, b, state), b)
  {
  }

  lemma ConnectionSteady(s: Sys, e: Event)
    requires Steady(s) && Enabled(s, e) && OnConnection(e)
    ensures var d := CtlNext(s, e); InFlightOk(d)
  {
    hide Sound, GateOk, SentOk, FailedOk, Conserved, InFlightOk, BoardDown, RegisterAndAssert, SetConn, Relinks;
    var c, b := s.ctl, e.board;
    match e
    case SchemaArrives(_, m) =>
      SchemaRelinks(c, b, m);
      RelinkSteady(c, RegisterAndAssert(c, b, m), b);
    case LivenessExpires(_) => DownSteady(c, b);
    case ReportDown(_) => DownSteady(c, b);
    case Dial(_) =>
      SetConnRelinks(c, b, CONNECTING);
      RelinkSteady(c, SetConn(c, b, CONNECTING), b);
    case Link(_) =>
      SetConnRelinks(c, b, CONNECTED);
      RelinkSteady(c, SetConn(c, b, CONNECTED), b);
    case LinkFails(_) =>
      SetConnRelinks(c, b, FAULTED);
      RelinkSteady(c, SetConn(c, b, FAULTED), b);
    case _ =>
  }

  lemma TriggerSteady(c: Ctl)
    requires Valid(c) && InFlightOk(c)
    ensures var d := TriggerEstop(c); InFlightOk(d)
  {
    TriggerInFlight(c);
  }

  lemma FailSteady(c: Ctl)
    requires Sound(c) && InFlightOk(c)
    ensures var d := FailRemaining(c); InFlightOk(d)
  {
    FailRemainingInFlight(c);
  }

  lemma EstopFlagSteady(c: Ctl, b: BoardId)
    requires InFlightOk(c) && b in c.boards
    ensures var d := AckEstop(c, b); InFlightOk(d)
    ensures b in c.estopTasks ==> var d := RunEstopTask(c, b); InFlightOk(d)
  {
    RelinkSteady(c, AckEstop(c, b), b);
    if b in c.estopTasks { EstopTaskSteady(c, b); }
  }

  lemma TaskFrame(c: Ctl, b: BoardId)
    requires b in c.boards && b in c.estopTasks
    ensures var d := RunEstopTask(c, b);
            && d.cfg == c.cfg && d.closing == c.closing && d.accepted == c.accepted && d.boards.Keys == c.boards.Keys
            && d.pending == c.pending && d.timers == c.timers && d.writing == c.writing && d.stranded == c.stranded
            && forall x :: x in c.boards ==>
                 && d.boards[x].fifo == c.boards[x].fifo && d.boards[x].inFlight == c.boards[x].inFlight
                 && d.boards[x].conn == c.boards[x].conn && d.boards[x].writer == c.boards[x].writer
  {
  }

  lemma EstopTaskSteady(c: Ctl, b: BoardId)
    requires InFlightOk(c) && b in c.boards && b in c.estopTasks
    ensures var d := RunEstopTask(c, b); InFlightOk(d)
  {
    hide RunEstopTask, InFlightOk;
    TaskFrame(c, b);
    SameInFlight(c, RunEstopTask(c, b));
  }

  lemma FlagsSteady(c: Ctl, d: Ctl)
    requires InFlightOk(c)
    requires d == c.(now := d.now, latched := d.latched, closing := d.closing) && (c.closing ==> d.closing)
    ensures InFlightOk(d)
  {
    SameInFlight(c, d);
  }

  lemma CloseSteady(c: Ctl)
    requires InFlightOk(c)
    ensures var d := CloseWriters(c); InFlightOk(d)
  {
    SameInFlight(c, CloseWriters(c));
  }

  lemma GlobalSteady(s: Sys, e: Event)
    requires Steady(s) && Enabled(s, e) && !OnConnection(e) && !OnCommand(e)
    ensures var d := CtlNext(s, e); InFlightOk(d)
  {
    hide Sound, GateOk, SentOk, FailedOk, LinkOk, Conserved, InFlightOk, TriggerEstop, FailRemaining, CloseWriters,
         RunEstopTask, AckEstop;
    var c := s.ctl;
    if e.EstopTriggered? { TriggerSteady(c); }
    else if e.ShutdownFails? { FailSteady(c); }
    else if e.EstopTaskRuns? { EstopTaskSteady(c, e.board); }
    else if e.EstopAcked? { EstopFlagSteady(c, e.board); }
    else if e.WritersClose? { CloseSteady(c); }
    else { FlagsSteady(c, CtlNext(s, e)); }
  }

  lemma CommandSteady(s: Sys, e: Event)
    requires Steady(s) && Enabled(s, e) && OnCommand(e) && !Forfeits(s, e)
    ensures var d := CtlNext(s, e); InFlightOk(d)
  {
    hide Safe, Conserved, InFlightOk, Route, ResumeWrite, AbortWrite, HandleResponse, FireTimer;
    match e
    case RouteCommand(command, local) => RouteSteady(s, command, local);
    case WriteReturns(id) => WriteEndsSteady(s, id);
    case WriteRaises(id) => WriteEndsSteady(s, id);
    case ResponseArrives(_, r) => ResponseSteady(s, r);
    case TimerFires(id) => TimerSteady(s, id);
  }

  /** Every event that does not forfeit keeps the dispatcher steady. */
  lemma SteadyAfter(s: Sys, e: Event, t: Sys)
    requires Steady(s) && Step(s, e, t) && !Forfeits(s, e)
    ensures Steady(t)
  {
    hide Safe, Conserved, InFlightOk, CtlNext, Sound, Forfeits, NoneReturns, Final;
    SafeAfter(s, e, t);
    SafeIsSound(s);
    StepPreserves(s, e);
    if OnCommand(e) { CommandSteady(s, e); }
    else if OnConnection(e) { ConnectionSteady(s, e); }
    else { GlobalSteady(s, e); }
  }

  lemma SafeIsSound(s: Sys)
    requires Safe(s)
    ensures Sound(s.ctl) && LinkOk(s)
  {
  }

  lemma StartIsSteady(s: Sys)
    requires Init(s)
    ensures Steady(s)
  {
    StartIsSafe(s);
    StartIsSound(s);
  }

  lemma {:induction false} CleanRunsAreSteady(states: seq<Sys>, events: seq<Event>, n: nat)
    requires Run(states, events) && n <= |events| && Clean(states, events, n)
    ensures Steady(states[n])
  {
    hide Steady, Init, Step, Forfeits;
    if n == 0 {
      StartIsSteady(states[0]);
    } else {
      CleanRunsAreSteady(states, events, n - 1);
      AtStep(states, events, n - 1);
      SteadyAfter(states[n - 1], events[n - 1], states[n]);
    }
  }

  // --------------------------------------------------------------- theorems

  function PendingOf(c: Ctl, b: BoardId): set<nat> {
    set k | k in c.pending.m && c.pending.m[k].board == b
  }

  /** The slot of a board holds a seq exactly when that seq is all the board has
      pending; and each pending command has exactly one of: its write suspended,
      one armed timer that is its own, or a write that ended without arming one. */
  lemma SlotsMatchPending(states: seq<Sys>, events: seq<Event>, n: nat)
    requires Run(states, events) && n <= |events| && Clean(states, events, n)
    ensures var c := states[n].ctl;
            && (forall b, k :: b in c.boards ==> (c.boards[b].inFlight == Some(k) <==> PendingOf(c, b) == {k}))
            && (forall b :: b in c.boards ==> (c.boards[b].inFlight == None <==> PendingOf(c, b) == {}))
            && (forall k :: k in c.timers.armed ==> k in c.pending.m && c.timers.armed[k] == c.pending.m[k].id)
            && (forall k :: k in c.pending.m ==> CoveredOnce(c, k))
            && Paired(c.timers)
  {
    CleanRunsAreSteady(states, events, n);
    var c := states[n].ctl;
    forall b | b in c.boards
      ensures PendingOf(c, b) == if c.boards[b].inFlight.Some? then {c.boards[b].inFlight.value} else {}
    {
      SlotSet(c, b);
    }
    forall b, k | b in c.boards ensures c.boards[b].inFlight == Some(k) <==> PendingOf(c, b) == {k} {
      if PendingOf(c, b) == {k} { assert k in PendingOf(c, b); }
    }
  }

  lemma SlotSet(c: Ctl, b: BoardId)
    requires InFlightOk(c) && b in c.boards
    ensures PendingOf(c, b) == if c.boards[b].inFlight.Some? then {c.boards[b].inFlight.value} else {}
  {
  }

  /** A write strands its command only by raising or by ending after the flag. */
  lemma StrandedWhy(s: Sys, e: Event, t: Sys)
    requires Step(s, e, t) && !e.WriteRaises? && !s.ctl.closing
    ensures t.ctl.stranded == s.ctl.stranded && (!e.ShutdownBegins? ==> !t.ctl.closing)
  {
    if OnCommand(e) { StrandedCommand(s, e); } else { StrandedOther(s, e); }
  }

  lemma DispatchStrands(c: Ctl, b: BoardId)
    requires b in c.boards && c.pending.Valid()
    ensures DispatchNext(c, b).stranded == c.stranded && DispatchNext(c, b).closing == c.closing
  {
  }

  lemma RouteStrands(c: Ctl, command: Command, local: Reply)
    requires Valid(c) && !c.closing
    ensures Route(c, command, local).0.stranded == c.stranded && !Route(c, command, local).0.closing
  {
    hide DispatchNext;
    if Accepts(c, command) { DispatchStrands(Enqueue(c, command), command.target); }
  }

  lemma ResponseStrands(c: Ctl, r: BoardReply)
    requires Valid(c)
    ensures HandleResponse(c, r).stranded == c.stranded && HandleResponse(c, r).closing == c.closing
  {
    hide DispatchNext, TakeOut;
    if r.boardSeq in c.pending.m {
      TakeOutFrame(c, r.boardSeq);
      if !r.overflows { DispatchStrands(Matched(c, r), c.pending.m[r.boardSeq].board); }
    }
  }

  lemma StrandedCommand(s: Sys, e: Event)
    requires Enabled(s, e) && OnCommand(e) && !e.WriteRaises? && !s.ctl.closing
    ensures CtlNext(s, e).stranded == s.ctl.stranded && !CtlNext(s, e).closing
  {
    hide DispatchNext, Route, HandleResponse;
    var c := s.ctl;
    if e.RouteCommand? { RouteStrands(c, e.command, e.local); }
    else if e.ResponseArrives? {
      ResponseStrands(c, e.reply);
    } else if e.TimerFires? {
      var k := c.timers.asleep[e.id].boardSeq;
      if k in c.pending.m { DispatchStrands(TimedOut(c, e.id), c.pending.m[k].board); }
    }
  }

  lemma DownStrands(c: Ctl, b: BoardId)
    requires Valid(c) && b in c.boards
    ensures BoardDown(c, b).stranded == c.stranded && BoardDown(c, b).closing == c.closing
  {
  }

  lemma FailStrands(c: Ctl)
    requires Valid(c)
    ensures FailRemaining(c).stranded == c.stranded && FailRemaining(c).closing == c.closing
  {
  }

  lemma SchemaStrands(c: Ctl, b: BoardId, m: Object)
    requires b in c.boards
    ensures RegisterAndAssert(c, b, m).stranded == c.stranded && RegisterAndAssert(c, b, m).closing == c.closing
  {
  }

  lemma StrandedOther(s: Sys, e: Event)
    requires Enabled(s, e) && !OnCommand(e) && !s.ctl.closing
    ensures CtlNext(s, e).stranded == s.ctl.stranded && (!e.ShutdownBegins? ==> !CtlNext(s, e).closing)
  {
    hide BoardDown, FailRemaining, RegisterAndAssert, Valid;
    if e.LivenessExpires? || e.ReportDown? { DownStrands(s.ctl, e.board); }
    else if e.ShutdownFails? { FailStrands(s.ctl); }
    else if e.SchemaArrives? { SchemaStrands(s.ctl, e.board, e.schema); }
  }

  lemma {:induction false} NothingStranded(states: seq<Sys>, events: seq<Event>, n: nat)
    requires Run(states, events) && n <= |events|
    requires forall i :: 0 <= i < n ==> !events[i].WriteRaises? && !events[i].ShutdownBegins?
    ensures states[n].ctl.stranded == {} && !states[n].ctl.closing
  {
    hide Step;
    if n > 0 {
      NothingStranded(states, events, n - 1);
      AtStep(states, events, n - 1);
      StrandedWhy(states[n - 1], events[n - 1], states[n]);
    }
  }

  /** Before shutdown and without raising writes, every pending command has its
      write suspended or exactly one armed timer, never both. */
  lemma WritingOrTimed(states: seq<Sys>, events: seq<Event>, n: nat)
    requires Run(states, events) && n <= |events| && Clean(states, events, n)
    requires forall i :: 0 <= i < n ==> !events[i].WriteRaises? && !events[i].ShutdownBegins?
    ensures var c := states[n].ctl;
            forall k :: k in c.pending.m ==> (c.pending.m[k].id in c.writing <==> k !in c.timers.armed)
  {
    NothingStranded(states, events, n);
    CleanRunsAreSteady(states, events, n);
    var c := states[n].ctl;
    forall k | k in c.pending.m ensures c.pending.m[k].id in c.writing <==> k !in c.timers.armed {
      assert CoveredOnce(c, k);
    }
  }
}
