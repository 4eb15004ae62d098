/** Every write of every run: in which circumstances it began, what its entry is
    stamped with, and which timer its end sets. */
module Writes {
  import opened Basics
  import opened Protocol
  import opened Controller
  import opened Accounts
  import opened Conservation
  import opened Steps
  import opened Resolvers
  import opened System
  import opened Loss
  import opened Distinct
  import opened Safety
  import opened SafetyRuns
  import opened Slots
  import opened Correlation
  import opened Outcomes
  import opened Delivery
  import opened Dispatching
  import opened Causes

  // --------------------------------------------------------- a write begins

  /** From `c` to `d` the write of a command begins: not in shutdown, on a board that is
      registered and has a writer, under the latch only if the board's schema lets the
      command through, within its residency cap, under its own board seq; it takes the
      slot, and its entry is pending and stamped with the time. */
  ghost predicate BeginsLawfully(c: Ctl, d: Ctl) {
    && |d.sent| == |c.sent| + 1 && d.sent[..|c.sent|] == c.sent
    && var w := d.sent[|c.sent|];
       && w.id < |d.accepted|
       && var e := d.accepted[w.id];
          && e.board in c.boards && e.board in d.boards
          && var board, stamped := c.boards[e.board], e.(writtenAt := Some(c.now));
             && w == BoardWrite(e.id, e.board, e.boardSeq, c.now - e.enqueuedAt, e.residencyCap, c.latched,
                                e.name in board.reg.gates ==> board.reg.gates[e.name], false)
             && !c.closing && board.conn == REGISTERED && board.writer
             && (c.latched ==> e.name in board.reg.gates && !board.reg.gates[e.name])
             && c.now - e.enqueuedAt <= e.residencyCap
             && d.boards[e.board].inFlight == Some(e.boardSeq)
             && e.boardSeq in d.pending.m && d.pending.m[e.boardSeq] == stamped
             && e.id in d.writing && d.writing[e.id] == stamped
  }

  lemma DispatchBeginsLawfully(c: Ctl, b: BoardId)
    requires Sound(c) && GateOk(c) && b in c.boards
    ensures var d := DispatchNext(c, b); d.sent == c.sent || BeginsLawfully(c, d)
  {
    hide LedgerOk, Tables, Dispatches, Sends, DispatchNext;
    PendingOfSound(c);
    var q := c.boards[b].fifo;
    var n := StalePrefix(q, c.now);
    PrefixIsStale(q, c.now);
    DispatchExactly(c, b, n);
    if Free(c, b) {
      DispatchedLawfully(c, DispatchNext(c, b), b, n);
    }
  }

  lemma PendingOfSound(c: Ctl)
    requires Sound(c)
    ensures Valid(c) && c.pending.Valid()
  {
  }

  lemma DispatchedLawfully(c: Ctl, d: Ctl, b: BoardId, n: nat)
    requires Sound(c) && GateOk(c) && b in c.boards && Free(c, b)
    requires n <= |c.boards[b].fifo| && FirstLive(c.boards[b].fifo, n, c.now) && Dispatches(c, d, b, n)
    ensures d.sent == c.sent || BeginsLawfully(c, d)
  {
    hide LedgerOk, AnswersExactly, Tables;
    var q := c.boards[b].fifo;
    if n < |q| {
      HeadOf(c, b, n);
      assert q[n] in q;
    }
  }

  lemma HeadOf(c: Ctl, b: BoardId, n: nat)
    requires Sound(c) && b in c.boards && n < |c.boards[b].fifo|
    ensures var e := c.boards[b].fifo[n]; e.id < |c.accepted| && c.accepted[e.id] == e && e.board == b
  {
    hide LedgerOk;
    QueueMember(c, b, n);
  }

  /** What the circumstances of a write depend on. */
  ghost predicate SameCircumstances(c: Ctl, m: Ctl) {
    && m.closing == c.closing && m.latched == c.latched && m.now == c.now && m.sent == c.sent
    && m.boards.Keys == c.boards.Keys
    && forall b :: b in c.boards ==>
         m.boards[b].conn == c.boards[b].conn && m.boards[b].writer == c.boards[b].writer
         && m.boards[b].reg == c.boards[b].reg
  }

  lemma Transfer(c: Ctl, m: Ctl, d: Ctl)
    requires SameCircumstances(c, m) && (d.sent == m.sent || BeginsLawfully(m, d))
    ensures d.sent == c.sent || BeginsLawfully(c, d)
  {
  }

  lemma RouteBeginsLawfully(c: Ctl, command: Command, local: Reply)
    requires Sound(c) && GateOk(c) && SentOk(c) && Valid(c)
    ensures var d := Route(c, command, local).0; d.sent == c.sent || BeginsLawfully(c, d)
  {
    hide LedgerOk, Tables, GateOk, SentOk, BeginsLawfully, DispatchNext, Route, Accepts, Enqueue, Valid;
    if Accepts(c, command) {
      var m := Enqueued(c, command);
      AcceptedKeeps(c, command);
      EnqueueSafe(c, command);
      EnqueueJoins(c, command);
      AcceptedRoute(c, command, local);
      DispatchBeginsLawfully(m, command.target);
      PendingOfSound(m);
      SameAfterEnqueue(c, command);
      Transfer(c, m, DispatchNext(m, command.target));
    } else {
      RefusedFrame(c, command, local);
    }
  }

  function Enqueued(c: Ctl, command: Command): Ctl
    requires Accepts(c, command)
  {
    Enqueue(c, command)
  }

  lemma SameAfterEnqueue(c: Ctl, command: Command)
    requires Accepts(c, command)
    ensures SameCircumstances(c, Enqueue(c, command))
  {
  }

  lemma ResponseBeginsLawfully(c: Ctl, r: BoardReply)
    requires Sound(c) && GateOk(c) && SentOk(c) && Valid(c) && Coupled(r.status, r.code)
    ensures var d := HandleResponse(c, r); d.sent == c.sent || BeginsLawfully(c, d)
  {
    hide LedgerOk, Tables, GateOk, SentOk, BeginsLawfully, DispatchNext, Matched, TakeOut, Valid, KeepsAll;
    if r.boardSeq in c.pending.m {
      TakeOutFrame(c, r.boardSeq);
      if !r.overflows {
        var m, b := Matched(c, r), c.pending.m[r.boardSeq].board;
        MatchedSettles(c, r);
        MatchedSame(c, r);
        DispatchBeginsLawfully(m, b);
        PendingOfSound(m);
        Transfer(c, m, DispatchNext(m, b));
      }
    }
  }

  lemma GatesKept(c: Ctl, m: Ctl)
    requires GateOk(c) && SameCircumstances(c, m)
    requires forall b :: b in c.boards ==> m.boards[b].fifo == c.boards[b].fifo
    ensures GateOk(m)
  {
  }

  lemma MatchedSame(c: Ctl, r: BoardReply)
    requires Valid(c) && GateOk(c) && r.boardSeq in c.pending.m
    ensures var m := Matched(c, r); SameCircumstances(c, m) && GateOk(m) && c.pending.m[r.boardSeq].board in m.boards
  {
    hide TakeOut, Settle, Valid, GateOk;
    TakeOutFrame(c, r.boardSeq);
    GatesKept(c, Matched(c, r));
  }

  lemma TimedOutSame(c: Ctl, id: Id)
    requires Valid(c) && GateOk(c) && id in c.timers.asleep && c.timers.asleep[id].boardSeq in c.pending.m
    ensures var m := TimedOut(c, id);
            SameCircumstances(c, m) && GateOk(m) && c.pending.m[c.timers.asleep[id].boardSeq].board in m.boards
  {
    hide TimedOut, Valid, GateOk;
    TimeoutFrame(c, id);
    GatesKept(c, TimedOut(c, id));
  }

  lemma TimerBeginsLawfully(c: Ctl, id: Id)
    requires Sound(c) && GateOk(c) && SentOk(c) && Valid(c) && id in c.timers.asleep
    ensures var d := FireTimer(c, id); d.sent == c.sent || BeginsLawfully(c, d)
  {
    hide LedgerOk, Tables, GateOk, SentOk, BeginsLawfully, DispatchNext, TimedOut, Valid, KeepsAll;
    var k := c.timers.asleep[id].boardSeq;
    if k in c.pending.m {
      var m, b := TimedOut(c, id), c.pending.m[k].board;
      TimedOutSettles(c, id);
      TimedOutSame(c, id);
      DispatchBeginsLawfully(m, b);
      PendingOfSound(m);
      Transfer(c, m, DispatchNext(m, b));
    }
  }

  lemma StepBeginsLawfully(s: Sys, e: Event)
    requires Safe(s) && Enabled(s, e)
    ensures var c, d := s.ctl, CtlNext(s, e); d.sent == c.sent || BeginsLawfully(c, d)
    ensures CtlNext(s, e).sent != s.ctl.sent ==> e.RouteCommand? || e.ResponseArrives? || e.TimerFires?
  {
    hide Sound, GateOk, SentOk, Drained, Valid, Route, HandleResponse, FireTimer, ResumeWrite, AbortWrite,
         BeginsLawfully;
    var c := s.ctl;
    if e.RouteCommand? { RouteBeginsLawfully(c, e.command, e.local); }
    else if e.ResponseArrives? { ResponseBeginsLawfully(c, e.reply); }
    else if e.TimerFires? { TimerBeginsLawfully(c, e.id); }
    else if e.WriteReturns? || e.WriteRaises? { WriteEndSends(c, e.id); }
    else {
      hide CtlNext, LinkOk;
      if OnConnection(e) { ConnectionShape(s, e); } else { GlobalShape(s, e); }
    }
  }

  /** In every run, whatever the boards, each write begins lawfully; and none begins but
      in a step that routes a command, handles a response or fires a timer. */
  lemma WritesBeginLawfully(states: seq<Sys>, events: seq<Event>, n: nat)
    requires Run(states, events) && n < |events| && states[n + 1].ctl.sent != states[n].ctl.sent
    ensures BeginsLawfully(states[n].ctl, states[n + 1].ctl)
    ensures events[n].RouteCommand? || events[n].ResponseArrives? || events[n].TimerFires?
  {
    hide Init, Safe, CtlNext, BeginsLawfully;
    RunsAreSafe(states, events, n);
    AtStep(states, events, n);
    StepBeginsLawfully(states[n], events[n]);
  }

  // -------------------------------------------------- when its write began

  /** Pending entries stay what they are, or leave. */
  ghost predicate PendingLess(c: Ctl, d: Ctl) {
    forall k :: k in d.pending.m ==> k in c.pending.m && d.pending.m[k] == c.pending.m[k]
  }

  /** The pending entry under `k` is an old one, or the one whose write just began. */
  ghost predicate FromWrite(c: Ctl, d: Ctl, k: nat)
    requires k in d.pending.m
  {
    || (k in c.pending.m && d.pending.m[k] == c.pending.m[k])
    || (|c.sent| < |d.sent| && d.sent[|c.sent|].id == d.pending.m[k].id && d.pending.m[k].writtenAt == Some(c.now))
  }

  ghost predicate AllFromWrites(c: Ctl, d: Ctl) { forall k :: k in d.pending.m ==> FromWrite(c, d, k) }

  lemma LessFromWrites(c: Ctl, d: Ctl)
    requires PendingLess(c, d)
    ensures AllFromWrites(c, d)
  {
  }

  lemma DispatchFromWrites(c: Ctl, m: Ctl, b: BoardId)
    requires Sound(m) && m.pending.Valid() && b in m.boards && PendingLess(c, m) && m.now == c.now && m.sent == c.sent
    ensures AllFromWrites(c, DispatchNext(m, b))
  {
    hide LedgerOk, Tables, AnswersExactly, DispatchNext;
    var q := m.boards[b].fifo;
    PrefixIsStale(q, m.now);
    DispatchExactly(m, b, StalePrefix(q, m.now));
  }

  lemma ResponseFromWrites(c: Ctl, r: BoardReply)
    requires Sound(c) && Valid(c) && Coupled(r.status, r.code)
    ensures AllFromWrites(c, HandleResponse(c, r))
  {
    hide LedgerOk, Tables, DispatchNext, TakeOut, Settle, Valid, KeepsAll, AllFromWrites;
    if r.boardSeq !in c.pending.m {
      LessFromWrites(c, HandleResponse(c, r));
    } else {
      TakeOutFrame(c, r.boardSeq);
      if r.overflows {
        LessFromWrites(c, HandleResponse(c, r));
      } else {
        EntryBoard(c, r.boardSeq);
        MatchedSettles(c, r);
        DispatchFromWrites(c, Matched(c, r), c.pending.m[r.boardSeq].board);
      }
    }
  }

  lemma TimerFromWrites(c: Ctl, id: Id)
    requires Sound(c) && Valid(c) && id in c.timers.asleep
    ensures AllFromWrites(c, FireTimer(c, id))
  {
    hide LedgerOk, Tables, DispatchNext, TimedOut, Valid, KeepsAll, AllFromWrites;
    var k := c.timers.asleep[id].boardSeq;
    if k !in c.pending.m {
      LessFromWrites(c, FireTimer(c, id));
    } else {
      TimeoutFrame(c, id);
      EntryBoard(c, k);
      TimedOutSettles(c, id);
      DispatchFromWrites(c, TimedOut(c, id), c.pending.m[k].board);
    }
  }

  lemma RouteFromWrites(c: Ctl, command: Command, local: Reply)
    requires Sound(c) && Valid(c)
    ensures AllFromWrites(c, Route(c, command, local).0)
  {
    hide Sound, DispatchNext, Route, Valid, Accepts, Enqueue, AllFromWrites;
    if Accepts(c, command) {
      AcceptedKeeps(c, command);
      AcceptsRefusesNot(c, command);
      TargetKnown(c, command);
      AcceptedRoute(c, command, local);
      EnqueueFromWrites(c, command);
      PendingOfSound(Enqueue(c, command));
      DispatchFromWrites(c, Enqueue(c, command), command.target);
    } else {
      RefusedFrame(c, command, local);
      LessFromWrites(c, Route(c, command, local).0);
    }
  }

  lemma EnqueueFromWrites(c: Ctl, command: Command)
    requires Accepts(c, command)
    ensures var m := Enqueue(c, command);
            command.target in m.boards && PendingLess(c, m) && m.now == c.now && m.sent == c.sent
  {
  }

  lemma ResumeLess(c: Ctl, id: Id)
    requires Valid(c) && id in c.writing
    ensures PendingLess(c, ResumeWrite(c, id)) && PendingLess(c, AbortWrite(c, id))
  {
  }

  lemma DownLess(c: Ctl, b: BoardId)
    requires Valid(c) && b in c.boards
    ensures PendingLess(c, BoardDown(c, b))
  {
    hide BoardDown, Valid, Dict.Values;
    BoardDownClears(c, b);
  }

  lemma FlushLess(c: Ctl)
    requires Valid(c)
    ensures PendingLess(c, FailRemaining(c)) && PendingLess(c, TriggerEstop(c))
  {
    hide FailRemaining, TriggerEstop, Valid;
    FailClears(c);
    if c.latched { LatchedStays(c); } else { TriggerClears(c); }
  }

  lemma SchemaLess(c: Ctl, b: BoardId, m: Object)
    requires b in c.boards
    ensures RegisterAndAssert(c, b, m).pending == c.pending
  {
  }

  lemma OtherLess(s: Sys, e: Event)
    requires Enabled(s, e) && !e.RouteCommand? && !e.ResponseArrives? && !e.TimerFires?
    ensures PendingLess(s.ctl, CtlNext(s, e))
  {
    hide Valid, Route, HandleResponse, FireTimer, BoardDown, TriggerEstop, FailRemaining, ResumeWrite, AbortWrite,
         RegisterAndAssert;
    if e.WriteReturns? || e.WriteRaises? { ResumeLess(s.ctl, e.id); }
    else if e.LivenessExpires? || e.ReportDown? { DownLess(s.ctl, e.board); }
    else if e.EstopTriggered? || e.ShutdownFails? { FlushLess(s.ctl); }
    else if e.SchemaArrives? { SchemaLess(s.ctl, e.board, e.schema); }
  }

  lemma StepFromWrites(s: Sys, e: Event)
    requires Sound(s.ctl) && Enabled(s, e)
    ensures AllFromWrites(s.ctl, CtlNext(s, e))
  {
    hide Sound, Valid, Route, HandleResponse, FireTimer, AllFromWrites, PendingLess;
    if e.RouteCommand? { RouteFromWrites(s.ctl, e.command, e.local); }
    else if e.ResponseArrives? { ResponseFromWrites(s.ctl, e.reply); }
    else if e.TimerFires? { TimerFromWrites(s.ctl, e.id); }
    else {
      hide CtlNext;
      OtherLess(s, e);
      LessFromWrites(s.ctl, CtlNext(s, e));
    }
  }

  /** In step `j` the write of command `id` begins. */
  predicate WriteBegan(states: seq<Sys>, j: nat, id: Id)
    requires j + 1 < |states|
  {
    var c, d := states[j].ctl, states[j + 1].ctl;
    |c.sent| < |d.sent| && d.sent[|c.sent|].id == id
  }

  lemma {:induction false} EntryIsStamped(states: seq<Sys>, events: seq<Event>, n: nat, k: nat) returns (j: nat)
    requires Run(states, events) && n <= |events| && k in states[n].ctl.pending.m
    ensures j < n && WriteBegan(states, j, states[n].ctl.pending.m[k].id)
    ensures states[n].ctl.pending.m[k].writtenAt == Some(states[j].ctl.now)
  {
    hide Init, Step, Safe, CtlNext;
    if n == 0 {
      StartEmpty(states[0]);
      assert false;
    } else {
      RunsAreSafe(states, events, n - 1);
      AtStep(states, events, n - 1);
      FromWritesAfter(states[n - 1], events[n - 1], states[n], k);
      if k in states[n - 1].ctl.pending.m && states[n].ctl.pending.m[k] == states[n - 1].ctl.pending.m[k] {
        j := EntryIsStamped(states, events, n - 1, k);
      } else {
        j := n - 1;
      }
    }
  }

  lemma StartEmpty(s: Sys)
    requires Init(s)
    ensures s.ctl.pending.m == map[] && s.ctl.timers.asleep == map[]
  {
  }

  lemma FromWritesAfter(s: Sys, e: Event, t: Sys, k: nat)
    requires Safe(s) && Step(s, e, t) && k in t.ctl.pending.m
    ensures FromWrite(s.ctl, t.ctl, k)
  {
    hide CtlNext, Sound, LinkOk, GateOk, SentOk, FailedOk, FromWrite;
    StepFromWrites(s, e);
  }

  /** In every run: a response that matches and does not raise is relayed with the
      board's own status and code, and on ok with the echoed seq and the milliseconds
      since the write of the command it answers began. */
  lemma ResponsesAreRelayed(states: seq<Sys>, events: seq<Event>, n: nat, b: BoardId, r: BoardReply)
    returns (j: nat)
    requires Run(states, events) && n < |events| && events[n] == ResponseArrives(b, r) && !r.overflows
    requires r.boardSeq in states[n].ctl.pending.m
    ensures var c, d, id := states[n].ctl, states[n + 1].ctl, states[n].ctl.pending.m[r.boardSeq].id;
            && j < n && WriteBegan(states, j, id) && id < |c.accepted| && c.accepted[id].boardSeq == r.boardSeq
            && id !in c.ledger.outcome && id in d.ledger.outcome
            && Relays(d.ledger.outcome[id], c.accepted[id], r, (c.now - states[j].ctl.now) * 1000.0)
  {
    hide Init, StepAt, Relays;
    j := EntryIsStamped(states, events, n, r.boardSeq);
    ResponsesCorrelate(states, events, n, b, r);
  }

  // ------------------------------------------------------------ a write ends

  /** The timer a returned write sets: under the seq of its command, to run for that
      command's own timeout, or not at all if that is negative. */
  function OwnNap(c: Ctl, id: Id): Nap
    requires id < |c.accepted|
  {
    var e := c.accepted[id];
    Nap(e.boardSeq, c.now + if e.executionTimeout < 0.0 then 0.0 else e.executionTimeout)
  }

  lemma WritingIsAccepted(c: Ctl, id: Id)
    requires Sound(c) && id in c.writing
    ensures id < |c.accepted| && c.writing[id].id == id && c.writing[id].board in c.boards && c.pending.Valid()
    ensures c.writing[id] == c.accepted[id].(writtenAt := c.writing[id].writtenAt)
  {
    assert WrittenOk(c, c.writing[id]);
  }

  lemma ResumeExactly(c: Ctl, id: Id)
    requires Sound(c) && Valid(c) && SlotOk(c) && id in c.writing && id < |c.accepted|
    ensures var d, k := ResumeWrite(c, id), c.accepted[id].boardSeq;
            && d == c.(writing := c.writing - {id}, pending := d.pending, timers := d.timers, stranded := d.stranded)
            && (if id in c.ledger.outcome then
                  d.pending.m == c.pending.m - {k} && d.timers == c.timers && d.stranded == c.stranded
                else if c.closing then
                  d.pending == c.pending && d.timers == c.timers && d.stranded == c.stranded + {id}
                else
                  && d.pending == c.pending && d.stranded == c.stranded
                  && d.timers == Timers(c.timers.armed[k := id], c.timers.asleep[id := OwnNap(c, id)]))
  {
    WritingIsAccepted(c, id);
    ResumeFreesNone(c, id);
    hide Sound, SlotOk, Valid;
  }

  /** In every run, the end of a write frees no slot and answers nobody. If its command
      was answered meanwhile it takes what is pending under its seq; in shutdown it sets
      no timer; otherwise it sets that command's timer for that command's own timeout. */
  lemma ReturnedWritesSetTimers(states: seq<Sys>, events: seq<Event>, n: nat, id: Id)
    requires Run(states, events) && n < |events| && events[n] == WriteReturns(id)
    ensures id < |states[n].ctl.accepted|
    ensures var c, d := states[n].ctl, states[n + 1].ctl;
            var k := c.accepted[id].boardSeq;
            && d == c.(writing := c.writing - {id}, pending := d.pending, timers := d.timers, stranded := d.stranded)
            && (if id in c.ledger.outcome then
                  d.pending.m == c.pending.m - {k} && d.timers == c.timers && d.stranded == c.stranded
                else if c.closing then
                  d.pending == c.pending && d.timers == c.timers && d.stranded == c.stranded + {id}
                else
                  && d.pending == c.pending && d.stranded == c.stranded
                  && d.timers == Timers(c.timers.armed[k := id], c.timers.asleep[id := OwnNap(c, id)]))
  {
    hide Init, Sound, SlotOk, LinkOk, GateOk, SentOk, FailedOk, Bounded, ResumeWrite;
    RunsKeepSlots(states, events, n);
    RunsAreSafe(states, events, n);
    AtStep(states, events, n);
    WritingIsAccepted(states[n].ctl, id);
    ResumeExactly(states[n].ctl, id);
  }

  /** In every run, a write that raises leaves its entry, its slot and its queue as they
      are, without a timer. */
  lemma RaisedWritesStrand(states: seq<Sys>, events: seq<Event>, n: nat, id: Id)
    requires Run(states, events) && n < |events| && events[n] == WriteRaises(id)
    ensures var c, d := states[n].ctl, states[n + 1].ctl;
            && d == c.(writing := c.writing - {id}, stranded := c.stranded + {id})
            && id in c.writing && id < |c.accepted| && c.accepted[id].boardSeq == c.writing[id].boardSeq
            && (InPending(c, id) ==> InPending(d, id))
  {
    hide Init, Sound, LinkOk, GateOk, SentOk, FailedOk;
    RunsAreSafe(states, events, n);
    AtStep(states, events, n);
    WritingIsAccepted(states[n].ctl, id);
  }

  /** Sleeping timers stay what they are, or leave. */
  ghost predicate NapsLess(c: Ctl, d: Ctl) {
    forall id :: id in d.timers.asleep ==> id in c.timers.asleep && d.timers.asleep[id] == c.timers.asleep[id]
  }

  lemma DispatchNaps(c: Ctl, m: Ctl, b: BoardId)
    requires m.pending.Valid() && b in m.boards && NapsLess(c, m)
    ensures NapsLess(c, DispatchNext(m, b))
  {
    hide StalePrefix, ResolveAll;
  }

  lemma TakeOutNaps(c: Ctl, k: nat)
    requires Valid(c) && k in c.pending.m
    ensures NapsLess(c, TakeOut(c, k))
  {
  }

  lemma ResponseNaps(c: Ctl, r: BoardReply)
    requires Valid(c)
    ensures NapsLess(c, HandleResponse(c, r))
  {
    hide DispatchNext, TakeOut, Settle, Valid;
    if r.boardSeq in c.pending.m {
      TakeOutFrame(c, r.boardSeq);
      TakeOutNaps(c, r.boardSeq);
      if !r.overflows {
        EntryBoard(c, r.boardSeq);
        DispatchNaps(c, Matched(c, r), c.pending.m[r.boardSeq].board);
      }
    }
  }

  lemma TimerNaps(c: Ctl, id: Id)
    requires Valid(c) && id in c.timers.asleep
    ensures NapsLess(c, FireTimer(c, id))
  {
    hide DispatchNext, TimedOut, Valid;
    var k := c.timers.asleep[id].boardSeq;
    if k in c.pending.m {
      TimeoutFrame(c, id);
      EntryBoard(c, k);
      DispatchNaps(c, TimedOut(c, id), c.pending.m[k].board);
    }
  }

  lemma RouteNaps(c: Ctl, command: Command, local: Reply)
    requires Valid(c)
    ensures NapsLess(c, Route(c, command, local).0)
  {
    hide DispatchNext, Route, Valid, Accepts, Enqueue, NapsLess;
    if Accepts(c, command) {
      AcceptsRefusesNot(c, command);
      TargetKnown(c, command);
      AcceptedRoute(c, command, local);
      EnqueueNaps(c, command);
      DispatchNaps(c, Enqueue(c, command), command.target);
    } else {
      RefusedFrame(c, command, local);
      SameNaps(c, Route(c, command, local).0);
    }
  }

  lemma EnqueueNaps(c: Ctl, command: Command)
    requires Accepts(c, command) && Valid(c)
    ensures var m := Enqueue(c, command); command.target in m.boards && NapsLess(c, m) && m.pending.Valid()
  {
  }

  lemma SameNaps(c: Ctl, d: Ctl)
    requires d.timers == c.timers
    ensures NapsLess(c, d)
  {
  }

  lemma DownNaps(c: Ctl, b: BoardId)
    requires Valid(c) && b in c.boards
    ensures NapsLess(c, BoardDown(c, b))
  {
    hide BoardDown, Valid, Dict.Values;
    BoardDownClears(c, b);
  }

  lemma FlushNaps(c: Ctl)
    requires Valid(c)
    ensures NapsLess(c, FailRemaining(c)) && NapsLess(c, TriggerEstop(c))
  {
    hide FailRemaining, TriggerEstop, Valid;
    FailClears(c);
    if c.latched { LatchedStays(c); } else { TriggerClears(c); }
  }

  lemma SchemaNaps(c: Ctl, b: BoardId, m: Object)
    requires b in c.boards
    ensures RegisterAndAssert(c, b, m).timers == c.timers
  {
  }

  lemma StepNaps(s: Sys, e: Event)
    requires Enabled(s, e) && !e.WriteReturns?
    ensures NapsLess(s.ctl, CtlNext(s, e))
  {
    hide Valid, Route, HandleResponse, FireTimer, BoardDown, TriggerEstop, FailRemaining, RegisterAndAssert;
    if e.RouteCommand? { RouteNaps(s.ctl, e.command, e.local); }
    else if e.ResponseArrives? { ResponseNaps(s.ctl, e.reply); }
    else if e.TimerFires? { TimerNaps(s.ctl, e.id); }
    else if e.LivenessExpires? || e.ReportDown? { DownNaps(s.ctl, e.board); }
    else if e.EstopTriggered? || e.ShutdownFails? { FlushNaps(s.ctl); }
    else if e.SchemaArrives? { SchemaNaps(s.ctl, e.board, e.schema); }
  }

  lemma NapsAfter(s: Sys, e: Event, t: Sys)
    requires Step(s, e, t) && !e.WriteReturns?
    ensures NapsLess(s.ctl, t.ctl)
  {
    hide CtlNext, NapsLess;
    StepNaps(s, e);
  }

  lemma AcceptedStays(s: Sys, e: Event, t: Sys, id: Id)
    requires Safe(s) && Step(s, e, t) && id < |s.ctl.accepted|
    ensures id < |t.ctl.accepted| && t.ctl.accepted[id] == s.ctl.accepted[id]
  {
    hide CtlNext, Sound, LinkOk, GateOk, SentOk, FailedOk, Accepts, WritesFrom;
    StepWrites(s, e);
  }

  /** In every run a sleeping timer was set when the write of its own command returned,
      and its deadline is that moment plus its command's own timeout. */
  lemma {:induction false} TimerIsOwn(states: seq<Sys>, events: seq<Event>, n: nat, id: Id) returns (j: nat)
    requires Run(states, events) && n <= |events| && id in states[n].ctl.timers.asleep
    ensures id < |states[n].ctl.accepted| && j < n && events[j] == WriteReturns(id)
    ensures var e, nap := states[n].ctl.accepted[id], states[n].ctl.timers.asleep[id];
            && nap.boardSeq == e.boardSeq
            && nap.deadline == states[j].ctl.now + if e.executionTimeout < 0.0 then 0.0 else e.executionTimeout
  {
    hide Init, Step, Safe;
    if n == 0 {
      StartEmpty(states[0]);
      assert false;
    } else {
      RunsAreSafe(states, events, n - 1);
      AtStep(states, events, n - 1);
      var before, after := states[n - 1].ctl.timers, states[n].ctl.timers;
      if events[n - 1] == WriteReturns(id) && !(id in before.asleep && after.asleep[id] == before.asleep[id]) {
        ReturnedWritesSetTimers(states, events, n - 1, id);
        AcceptedStays(states[n - 1], events[n - 1], states[n], id);
        j := n - 1;
      } else {
        if events[n - 1].WriteReturns? { ReturnedWritesSetTimers(states, events, n - 1, events[n - 1].id); }
        else { NapsAfter(states[n - 1], events[n - 1], states[n]); }
        j := TimerIsOwn(states, events, n - 1, id);
        AcceptedStays(states[n - 1], events[n - 1], states[n], id);
      }
    }
  }
}
