/** A command whose write raised keeps its board: the slot stays taken and nothing
    queued there is sent, until one of the parties that can still pop its entry. */
module Stranded {
  import opened Basics
  import opened Protocol
  import opened Controller
  import opened Accounts
  import opened Conservation
  import opened Steps
  import opened Resolvers
  import opened System
  import opened Loss
  import opened Safety
  import opened Flight
  import opened Slots
  import opened Service

  /** Pending with no write suspended and no timer armed. */
  predicate Stuck(c: Ctl, id: Id) { InPending(c, id) && id in c.stranded }

  /** The events that can still pop the entry of this command. */
  predicate Releases(c: Ctl, e: Event, id: Id)
    requires id < |c.accepted|
  {
    || (e.ResponseArrives? && e.reply.boardSeq == c.accepted[id].boardSeq)
    || ((e.LivenessExpires? || e.ReportDown?) && e.board == c.accepted[id].board)
    || e.ShutdownFails?
  }

  /** From `c` to `d` the command stays stuck, its board's slot stays, and no write to
      that board begins. */
  ghost predicate Rests(c: Ctl, d: Ctl, id: Id) {
    && id < |c.accepted| && c.accepted <= d.accepted && c.sent <= d.sent
    && Stuck(d, id)
    && var b := c.accepted[id].board;
       && b in c.boards && b in d.boards && d.boards[b].inFlight == c.boards[b].inFlight
       && forall j :: |c.sent| <= j < |d.sent| ==> d.sent[j].board != b
  }

  lemma RestsChain(c: Ctl, m: Ctl, d: Ctl, id: Id)
    requires Rests(c, m, id) && Rests(m, d, id)
    ensures Rests(c, d, id)
  {
    hide Stuck;
    assert m.accepted[id] == c.accepted[id];
  }

  /** The slot of a stuck command's board is its own, and it has no timer. */
  lemma StuckSlot(c: Ctl, id: Id)
    requires Tables(c) && InFlightOk(c) && Stuck(c, id)
    ensures var e := c.accepted[id];
            && e.board in c.boards && c.boards[e.board].inFlight == Some(e.boardSeq)
            && e.boardSeq !in c.timers.armed && e.boardSeq in c.pending.m && c.pending.m[e.boardSeq].id == id
  {
    PendingEntryOk(c, c.accepted[id].boardSeq);
    assert CoveredOnce(c, c.accepted[id].boardSeq);
  }

  /** Entry, slot and stranding stand still, and nothing is sent. */
  lemma StandsStill(c: Ctl, d: Ctl, id: Id)
    requires Stuck(c, id) && d.accepted == c.accepted && d.sent == c.sent && id in d.stranded
    requires var e := c.accepted[id];
             && e.board in c.boards && e.board in d.boards && d.boards[e.board].inFlight == c.boards[e.board].inFlight
             && e.boardSeq in d.pending.m && d.pending.m[e.boardSeq].id == id
    ensures Rests(c, d, id)
  {
  }

  lemma DispatchRests(c: Ctl, b: BoardId, id: Id)
    requires Tables(c) && InFlightOk(c) && Stuck(c, id) && b in c.boards && !Overwrites(c, b)
    ensures Rests(c, DispatchNext(c, b), id)
  {
    StuckSlot(c, id);
    TablesAreValid(c);
    hide Tables, InFlightOk, Valid, StalePrefix, ResolveAll;
    var d, q, n := DispatchNext(c, b), c.boards[b].fifo, StalePrefix(c.boards[b].fifo, c.now);
    if MayDispatch(c, b) {
      StaleHead(c, b);
      DropRests(c, b, id);
      if DropStale(c, b).boards[b].fifo != [] { StartRests(DropStale(c, b), b, id); }
    }
  }

  lemma DropRests(c: Ctl, b: BoardId, id: Id)
    requires b in c.boards && Stuck(c, id) && c.accepted[id].board in c.boards
    ensures Rests(c, DropStale(c, b), id) && DropStale(c, b).pending == c.pending
  {
    hide StalePrefix, ResolveAll;
  }

  lemma StartRests(c: Ctl, b: BoardId, id: Id)
    requires b in c.boards && c.boards[b].fifo != [] && c.pending.Valid() && Stuck(c, id)
    requires b != c.accepted[id].board && c.accepted[id].board in c.boards
    requires c.boards[b].fifo[0].boardSeq !in c.pending.m
    ensures Rests(c, StartWrite(c, b), id)
  {
  }

  /** An entry of another board leaves. */
  lemma PopRests(c: Ctl, d: Ctl, k: nat, id: Id)
    requires Tables(c) && InFlightOk(c) && Stuck(c, id) && k in c.pending.m && k != c.accepted[id].boardSeq
    requires d.accepted == c.accepted && d.sent == c.sent && d.stranded == c.stranded
    requires d.pending.m == c.pending.m - {k} && SlotOnly(c, d, c.pending.m[k].board)
    ensures Rests(c, d, id)
  {
    StuckSlot(c, id);
    OtherBoard(c, k, id);
    hide Tables, InFlightOk;
    StandsStill(c, d, id);
  }

  lemma OtherBoard(c: Ctl, k: nat, id: Id)
    requires Tables(c) && InFlightOk(c) && Stuck(c, id) && k in c.pending.m && k != c.accepted[id].boardSeq
    ensures c.pending.m[k].board != c.accepted[id].board
  {
    StuckSlot(c, id);
  }

  // --------------------------------------------------------------- one event

  lemma EnqueueRests(c: Ctl, command: Command, id: Id)
    requires Stuck(c, id) && command.target in c.boards && c.accepted[id].board in c.boards
    ensures Rests(c, Enqueue(c, command), id)
  {
  }

  lemma AcceptRests(c: Ctl, command: Command, id: Id)
    requires Sound(c) && InFlightOk(c) && Stuck(c, id) && Accepts(c, command)
    requires !Overwrites(Enqueue(c, command), command.target)
    ensures Rests(c, DispatchNext(Enqueue(c, command), command.target), id)
  {
    StuckSlot(c, id);
    SoundIsValid(c);
    EnqueueRests(c, command, id);
    EnqueueKeeps(c, command);
    EnqueueInFlight(c, command);
    hide Tables, LedgerOk, InFlightOk, DispatchNext, Enqueue, Overwrites, Valid, LosesOnly, KeepsAll;
    var m := Enqueue(c, command);
    DispatchRests(m, command.target, id);
    RestsChain(c, m, DispatchNext(m, command.target), id);
  }

  lemma RouteRests(c: Ctl, command: Command, local: Reply, id: Id)
    requires Sound(c) && InFlightOk(c) && Stuck(c, id) && !RouteOverwrites(c, command)
    ensures Rests(c, Route(c, command, local).0, id)
  {
    hide Rests, DispatchNext, Route, Enqueue, Overwrites;
    StuckSlot(c, id);
    SoundIsValid(c);
    if Accepts(c, command) {
      AcceptedRoute(c, command, local);
      AcceptRests(c, command, id);
    } else {
      RefusedRests(c, command, local, id);
    }
  }

  lemma RefusedRests(c: Ctl, command: Command, local: Reply, id: Id)
    requires Sound(c) && InFlightOk(c) && Stuck(c, id) && !Accepts(c, command) && Valid(c)
    ensures Rests(c, Route(c, command, local).0, id)
  {
    StuckSlot(c, id);
    RefusedFrame(c, command, local);
    hide Tables, LedgerOk, InFlightOk, Valid, Route, Accepts;
    StandsStill(c, Route(c, command, local).0, id);
  }

  lemma ResponseRests(c: Ctl, r: BoardReply, id: Id)
    requires Sound(c) && InFlightOk(c) && Stuck(c, id) && Coupled(r.status, r.code) && !ResponseForfeits(c, r)
    requires r.boardSeq != c.accepted[id].boardSeq
    ensures Rests(c, HandleResponse(c, r), id)
  {
    StuckSlot(c, id);
    SoundIsValid(c);
    hide Tables, LedgerOk, InFlightOk, DispatchNext, TakeOut, Settle, Overwrites, Valid;
    if r.boardSeq in c.pending.m {
      var m, b := Matched(c, r), c.pending.m[r.boardSeq].board;
      MatchedSettles(c, r);
      MatchedInFlight(c, r);
      TakeOutFrame(c, r.boardSeq);
      PopRests(c, m, r.boardSeq, id);
      DispatchRests(m, b, id);
      RestsChain(c, m, DispatchNext(m, b), id);
    } else {
      StandsStill(c, HandleResponse(c, r), id);
    }
  }

  lemma TimerRests(c: Ctl, timer: Id, id: Id)
    requires Sound(c) && InFlightOk(c) && Stuck(c, id) && timer in c.timers.asleep
    requires var k := c.timers.asleep[timer].boardSeq;
             k in c.pending.m ==> !Overwrites(TimedOut(c, timer), c.pending.m[k].board)
    ensures Rests(c, FireTimer(c, timer), id)
  {
    StuckSlot(c, id);
    SoundIsValid(c);
    TimersFindTheirEntry(c, timer);
    TimerIsArmed(c, timer);
    hide Tables, LedgerOk, InFlightOk, DispatchNext, TimedOut, Overwrites, Valid;
    var k := c.timers.asleep[timer].boardSeq;
    var m, b := TimedOut(c, timer), c.pending.m[k].board;
    TimedOutSettles(c, timer);
    TimedOutInFlight(c, timer);
    TimeoutFrame(c, timer);
    PopRests(c, m, k, id);
    DispatchRests(m, b, id);
    RestsChain(c, m, DispatchNext(m, b), id);
  }

  lemma TimerIsArmed(c: Ctl, timer: Id)
    requires InFlightOk(c) && timer in c.timers.asleep
    ensures c.timers.asleep[timer].boardSeq in c.timers.armed
  {
  }

  lemma WriteRests(c: Ctl, w: Id, id: Id)
    requires Sound(c) && InFlightOk(c) && Stuck(c, id) && w in c.writing
    ensures !DropsOther(c, w) ==> Rests(c, ResumeWrite(c, w), id)
    ensures Rests(c, AbortWrite(c, w), id)
  {
    StuckSlot(c, id);
    SoundIsValid(c);
    if !DropsOther(c, w) {
      ResumeStays(c, w);
      ResumeShape(c, w);
    }
    ResumeSends(c, w);
    hide Tables, LedgerOk, InFlightOk, ResumeWrite, Valid, DropsOther;
    StandsStill(c, AbortWrite(c, w), id);
    if !DropsOther(c, w) { StandsStill(c, ResumeWrite(c, w), id); }
  }

  lemma ResumeSends(c: Ctl, w: Id)
    requires Valid(c) && w in c.writing
    ensures ResumeWrite(c, w).sent == c.sent && c.stranded <= ResumeWrite(c, w).stranded
  {
  }

  lemma DownRests(c: Ctl, b: BoardId, id: Id)
    requires Sound(c) && InFlightOk(c) && Stuck(c, id) && b in c.boards && b != c.accepted[id].board
    ensures Rests(c, BoardDown(c, b), id)
  {
    StuckSlot(c, id);
    SoundIsValid(c);
    PendingEntryOk(c, c.accepted[id].boardSeq);
    DownShapeOf(c, b);
    BoardDownClears(c, b);
    DownStrands(c, b);
    DownSends(c, b);
    hide Tables, LedgerOk, InFlightOk, BoardDown, Valid, Dict.Values;
    StandsStill(c, BoardDown(c, b), id);
  }

  lemma DownSends(c: Ctl, b: BoardId)
    requires Valid(c) && b in c.boards
    ensures BoardDown(c, b).sent == c.sent
  {
  }

  lemma TriggerRests(c: Ctl, id: Id)
    requires Sound(c) && InFlightOk(c) && Stuck(c, id)
    ensures Rests(c, TriggerEstop(c), id)
  {
    StuckSlot(c, id);
    SoundIsValid(c);
    hide Tables, LedgerOk, InFlightOk, ResolveAll, Queued;
    StandsStill(c, TriggerEstop(c), id);
  }

  lemma SchemaRests(c: Ctl, b: BoardId, m: Object, id: Id)
    requires Stuck(c, id) && b in c.boards && c.accepted[id].board in c.boards
    ensures Rests(c, RegisterAndAssert(c, b, m), id)
  {
    StandsStill(c, RegisterAndAssert(c, b, m), id);
  }

  lemma TaskRests(c: Ctl, b: BoardId, id: Id)
    requires Stuck(c, id) && b in c.boards && c.accepted[id].board in c.boards
    ensures Rests(c, AckEstop(c, b), id) && (b in c.estopTasks ==> Rests(c, RunEstopTask(c, b), id))
  {
    StandsStill(c, AckEstop(c, b), id);
    if b in c.estopTasks { StandsStill(c, RunEstopTask(c, b), id); }
  }

  lemma FlagRests(s: Sys, e: Event, id: Id)
    requires Enabled(s, e) && Stuck(s.ctl, id) && s.ctl.accepted[id].board in s.ctl.boards && Calm(e)
    requires !e.WriteReturns? && !e.WriteRaises? && !e.SchemaArrives? && !e.EstopTaskRuns? && !e.EstopAcked?
    ensures Rests(s.ctl, CtlNext(s, e), id)
  {
    hide Enabled, Valid, BoardDown, FireTimer, HandleResponse, Route, TriggerEstop, FailRemaining, RegisterAndAssert;
    StandsStill(s.ctl, CtlNext(s, e), id);
  }

  lemma StuckBoard(c: Ctl, id: Id)
    requires Sound(c) && InFlightOk(c) && Stuck(c, id)
    ensures c.accepted[id].board in c.boards && Valid(c)
  {
    StuckSlot(c, id);
  }

  lemma StepRests(s: Sys, e: Event, id: Id)
    requires Sound(s.ctl) && InFlightOk(s.ctl) && Stuck(s.ctl, id) && Enabled(s, e) && !Forfeits(s, e)
    requires !Releases(s.ctl, e, id)
    ensures Rests(s.ctl, CtlNext(s, e), id)
  {
    hide Sound, InFlightOk, Stuck, Rests, Route, HandleResponse, FireTimer, ResumeWrite, AbortWrite, BoardDown,
         TriggerEstop, RegisterAndAssert, RunEstopTask, AckEstop;
    var c := s.ctl;
    StuckBoard(c, id);
    if e.RouteCommand? { RouteRests(c, e.command, e.local, id); }
    else if e.ResponseArrives? { ResponseRests(c, e.reply, id); }
    else if e.TimerFires? { TimerRests(c, e.id, id); }
    else if e.WriteReturns? || e.WriteRaises? { WriteRests(c, e.id, id); }
    else if e.LivenessExpires? || e.ReportDown? { DownRests(c, e.board, id); }
    else if e.EstopTriggered? { TriggerRests(c, id); }
    else if e.SchemaArrives? { SchemaRests(c, e.board, e.schema, id); }
    else if e.EstopTaskRuns? || e.EstopAcked? { TaskRests(c, e.board, id); }
    else { FlagRests(s, e, id); }
  }

  lemma RestsAfter(s: Sys, e: Event, t: Sys, id: Id)
    requires Steady(s) && Step(s, e, t) && !Forfeits(s, e) && Stuck(s.ctl, id) && !Releases(s.ctl, e, id)
    ensures Rests(s.ctl, t.ctl, id)
  {
    hide Sound, InFlightOk, Stuck, Rests, CtlNext, Forfeits, Releases, LinkOk, GateOk, SentOk, FailedOk;
    StepRests(s, e, id);
  }

  // ----------------------------------------------------------------- theorem

  /** In a run in which nothing was lost, from the moment a command is stuck, and as
      long as its board neither answers it nor goes down and shutdown has not failed
      it: it stays pending, the slot of its board stays its own, and no write to that
      board begins, whatever is routed to it. */
  lemma {:induction false} StuckBoardsStandStill(states: seq<Sys>, events: seq<Event>, i: nat, n: nat, id: Id)
    requires Run(states, events) && i <= n <= |events| && Clean(states, events, n) && Stuck(states[i].ctl, id)
    requires forall j :: i <= j < n ==> id < |states[j].ctl.accepted| ==> !Releases(states[j].ctl, events[j], id)
    ensures Rests(states[i].ctl, states[n].ctl, id)
    ensures var c, e := states[n].ctl, states[i].ctl.accepted[id];
            e.board in c.boards && c.boards[e.board].inFlight == Some(e.boardSeq) && id !in c.ledger.outcome
    decreases n
  {
    hide Init, Step, Sound, InFlightOk, Stuck, Rests, Forfeits, Releases, Conserved, LinkOk, GateOk, SentOk, FailedOk;
    CleanRunsAreSteady(states, events, n);
    if i < n {
      StuckBoardsStandStill(states, events, i, n - 1, id);
      CleanRunsAreSteady(states, events, n - 1);
      AtStep(states, events, n - 1);
      RestsMeans(states[i].ctl, states[n - 1].ctl, id);
      RestsAfter(states[n - 1], events[n - 1], states[n], id);
      RestsChain(states[i].ctl, states[n - 1].ctl, states[n].ctl, id);
    } else {
      RestsAtOnce(states[n].ctl, id);
    }
    RestsMeans(states[i].ctl, states[n].ctl, id);
    StuckMeans(states[n].ctl, id);
  }

  lemma RestsMeans(c: Ctl, d: Ctl, id: Id)
    requires Rests(c, d, id)
    ensures id < |c.accepted| && id < |d.accepted| && d.accepted[id] == c.accepted[id] && Stuck(d, id)
  {
  }

  lemma RestsAtOnce(c: Ctl, id: Id)
    requires Sound(c) && InFlightOk(c) && Stuck(c, id)
    ensures Rests(c, c, id)
  {
    StuckSlot(c, id);
  }

  lemma StuckMeans(c: Ctl, id: Id)
    requires Sound(c) && InFlightOk(c) && Stuck(c, id)
    ensures var e := c.accepted[id];
            e.board in c.boards && c.boards[e.board].inFlight == Some(e.boardSeq) && id !in c.ledger.outcome
  {
    StuckSlot(c, id);
    PendingEntryOk(c, c.accepted[id].boardSeq);
  }
}
