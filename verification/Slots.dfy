/** The in-flight slot of a board, and what follows for its queue in every run: the
    slot never holds the seq of an answered or queued command, no queue outgrows its
    bound, and a ready board with a free slot has an empty queue unless a response
    raised before the next dispatch. */
module Slots {
  import opened Basics
  import opened Protocol
  import opened Controller
  import opened Accounts
  import opened Conservation
  import opened Steps
  import opened Resolvers
  import opened System
  import opened Loss
  import opened Distinct
  import opened Safety
  import opened SafetyRuns

  /** The slot of its board holds the seq of this command. */
  predicate Slotted(c: Ctl, id: Id) {
    && id < |c.accepted| && c.accepted[id].board in c.boards
    && c.boards[c.accepted[id].board].inFlight == Some(c.accepted[id].boardSeq)
  }

  ghost predicate SlotOk(c: Ctl) {
    && (forall b :: b in c.boards && c.boards[b].inFlight.Some? ==> c.boards[b].inFlight.value < c.boards[b].nextSeq)
    && (forall id: Id :: Slotted(c, id) ==> !Done(c, id) && !InFifo(c, id))
  }

  /** A ready board with a free slot has nothing queued, unless closing. */
  predicate Served(c: Ctl, b: BoardId)
    requires b in c.boards
  {
    MayDispatch(c, b) ==> c.boards[b].fifo == []
  }

  ghost predicate AllServed(c: Ctl) { forall b :: b in c.boards ==> Served(c, b) }

  ghost predicate Bounded(c: Ctl) { forall b :: b in c.boards ==> |c.boards[b].fifo| <= c.cfg.fifoDepth }

  // ------------------------------------------------------------- who is answered

  /** A command answered by a step that loses nobody left the queue or the table. */
  lemma NewlyDone(c: Ctl, d: Ctl, id: Id)
    requires KeepsAll(c, d) && Tables(d) && Done(d, id) && !Done(c, id)
    ensures InFifo(c, id) || (InPending(c, id) && !InPending(d, id))
  {
    assert id < |d.accepted| && Placed(d, id) && Placed(c, id);
    OnePlace(d, id);
  }

  /** Slots are kept or freed, queues only lose entries, and whom the step answers was
      queued or is not in a slot any more. */
  lemma SlotsKept(c: Ctl, d: Ctl)
    requires SlotOk(c) && d.accepted == c.accepted && d.boards.Keys == c.boards.Keys
    requires forall b :: b in c.boards ==>
               && (d.boards[b].inFlight == c.boards[b].inFlight || d.boards[b].inFlight.None?)
               && c.boards[b].nextSeq <= d.boards[b].nextSeq
    requires forall id :: InFifo(d, id) ==> InFifo(c, id)
    requires forall id :: Done(d, id) && !Done(c, id) ==> InFifo(c, id) || !Slotted(d, id)
    ensures SlotOk(d)
  {
    hide InFifo, Done;
    forall id: Id | Slotted(d, id) ensures !Done(d, id) && !InFifo(d, id) { assert Slotted(c, id); }
  }

  // ---------------------------------------------------------------- dispatch

  lemma ServesOthers(c: Ctl, b: BoardId)
    requires c.pending.Valid() && b in c.boards
    ensures var d := DispatchNext(c, b);
            && d.boards.Keys == c.boards.Keys && d.cfg == c.cfg && d.closing == c.closing
            && forall x :: x in c.boards && x != b ==> d.boards[x] == c.boards[x]
  {
    hide ResolveAll, Gated, Dict.Set, StalePrefix;
  }

  /** A dispatch takes at least one command off the queue it may take from. */
  lemma ServesOwn(c: Ctl, b: BoardId)
    requires c.pending.Valid() && b in c.boards
    ensures var d := DispatchNext(c, b);
            && b in d.boards && Served(d, b) && |d.boards[b].fifo| <= |c.boards[b].fifo|
            && (MayDispatch(c, b) && c.boards[b].fifo != [] ==> |d.boards[b].fifo| < |c.boards[b].fifo|)
  {
    hide ResolveAll, Gated, Dict.Set;
  }

  lemma DispatchServes(c: Ctl, b: BoardId)
    requires c.pending.Valid() && b in c.boards
    requires forall x :: x in c.boards && x != b ==> Served(c, x)
    ensures AllServed(DispatchNext(c, b))
  {
    hide DispatchNext;
    ServesOthers(c, b);
    ServesOwn(c, b);
    var d := DispatchNext(c, b);
    forall x | x in d.boards ensures Served(d, x) { if x != b { assert Served(c, x); } }
  }

  lemma DispatchBounds(c: Ctl, b: BoardId)
    requires c.pending.Valid() && b in c.boards
    requires forall x :: x in c.boards && x != b ==> |c.boards[x].fifo| <= c.cfg.fifoDepth
    requires |c.boards[b].fifo| <= c.cfg.fifoDepth + if MayDispatch(c, b) then 1 else 0
    ensures Bounded(DispatchNext(c, b))
  {
    hide DispatchNext;
    ServesOthers(c, b);
    ServesOwn(c, b);
  }

  lemma DropFrameSlots(c: Ctl, b: BoardId)
    requires b in c.boards
    ensures var d := DropStale(c, b);
            && d.accepted == c.accepted && d.pending == c.pending && d.boards.Keys == c.boards.Keys
            && (forall x :: x in c.boards ==> d.boards[x].inFlight == c.boards[x].inFlight)
            && (forall x :: x in c.boards ==> d.boards[x].nextSeq == c.boards[x].nextSeq)
  {
  }

  lemma DropSlots(c: Ctl, b: BoardId)
    requires Sound(c) && SlotOk(c) && b in c.boards
    ensures SlotOk(DropStale(c, b))
  {
    hide DropStale, LedgerOk, InFifo, KeepsAll, SlotOk, IsSuffix, Done;
    var d := DropStale(c, b);
    DropStaleKeeps(c, b);
    DropFrameSlots(c, b);
    forall id ensures InFifo(d, id) ==> InFifo(c, id) { SuffixIn(c, d, id); }
    forall id | Done(d, id) && !Done(c, id) ensures InFifo(c, id) { NewlyDone(c, d, id); }
    SlotsKept(c, d);
  }

  lemma StartSlots(c: Ctl, b: BoardId)
    requires Tables(c) && SlotOk(c) && b in c.boards && c.boards[b].fifo != []
    ensures SlotOk(StartWrite(c, b))
  {
    hide StartWrite, SlotOk;
    StartWriteShape(c, b);
    StartFrameSlots(c, b);
    StartsLeave(c, StartWrite(c, b), b);
    StartsSlots(c, StartWrite(c, b), b);
  }

  lemma StartFrameSlots(c: Ctl, b: BoardId)
    requires c.pending.Valid() && b in c.boards && c.boards[b].fifo != []
    ensures var d := StartWrite(c, b);
            && d.accepted == c.accepted && d.ledger == c.ledger && d.boards.Keys == c.boards.Keys
            && forall x :: x in c.boards ==>
                 && d.boards[x].nextSeq == c.boards[x].nextSeq
                 && d.boards[x].inFlight == if x == b then Some(c.boards[b].fifo[0].boardSeq) else c.boards[x].inFlight
  {
  }

  lemma StartsSlots(c: Ctl, d: Ctl, b: BoardId)
    requires Tables(c) && SlotOk(c) && b in c.boards && c.boards[b].fifo != []
    requires d.accepted == c.accepted && d.ledger == c.ledger && d.boards.Keys == c.boards.Keys
    requires forall x :: x in c.boards ==>
               && d.boards[x].nextSeq == c.boards[x].nextSeq
               && d.boards[x].inFlight == if x == b then Some(c.boards[b].fifo[0].boardSeq) else c.boards[x].inFlight
    requires forall id :: InFifo(d, id) <==> InFifo(c, id) && id != c.boards[b].fifo[0].id
    ensures SlotOk(d)
  {
    var e := c.boards[b].fifo[0];
    QueueMember(c, b, 0);
    assert AcceptedOk(c, e.id);
    OwnSeq(c, b, e.id);
    hide Tables, InFifo, AcceptedOk;
    forall id: Id | Slotted(d, id) ensures !Done(d, id) && !InFifo(d, id) {
      if c.accepted[id].board != b { assert Slotted(c, id); }
    }
  }

  /** A board seq names one command of its board. */
  lemma OwnSeq(c: Ctl, b: BoardId, id: Id)
    requires Tables(c) && id < |c.accepted| && c.accepted[id].board == b
    ensures forall x: Id ::
              x < |c.accepted| && c.accepted[x].board == b && c.accepted[x].boardSeq == c.accepted[id].boardSeq ==>
                x == id
  {
  }

  lemma DispatchSlots(c: Ctl, b: BoardId)
    requires Sound(c) && SlotOk(c) && b in c.boards
    ensures SlotOk(DispatchNext(c, b))
  {
    hide DropStale, StartWrite, LedgerOk, SlotOk, KeepsAll, Shrinks, Tables;
    SoundIsValid(c);
    if MayDispatch(c, b) {
      DropSlots(c, b);
      DropStaleKeeps(c, b);
      DropFrameSlots(c, b);
      if DropStale(c, b).boards[b].fifo != [] { StartSlots(DropStale(c, b), b); }
    }
  }

  // --------------------------------------------------------- steps that dispatch

  lemma EnqueueSlots(c: Ctl, command: Command)
    requires Sound(c) && SlotOk(c) && Accepts(c, command)
    ensures SlotOk(Enqueue(c, command))
  {
    hide LedgerOk;
    var m := Enqueue(c, command);
    EnqueueShape(c, command);
    forall id: Id | Slotted(m, id) ensures !Done(m, id) && !InFifo(m, id) {
      TailJoins(c, m, m.accepted[|c.accepted|], id);
      if id < |c.accepted| { assert Slotted(c, id); }
    }
  }

  lemma TakeOutFrees(c: Ctl, k: nat)
    requires Valid(c) && k in c.pending.m
    ensures var e := c.pending.m[k];
            && e.board in TakeOut(c, k).boards && e.boardSeq == k && TakeOut(c, k).boards[e.board].inFlight != Some(k)
  {
  }

  lemma TimeoutFrees(c: Ctl, id: Id)
    requires Valid(c) && id in c.timers.asleep && c.timers.asleep[id].boardSeq in c.pending.m
    ensures var k := c.timers.asleep[id].boardSeq;
            var e := c.pending.m[k];
            && e.board in TimedOut(c, id).boards && e.boardSeq == k
            && TimedOut(c, id).boards[e.board].inFlight != Some(k)
  {
    hide ResolveError;
  }

  /** One pending entry leaves, its slot with it; at most its command is answered. */
  lemma PopSlots(c: Ctl, d: Ctl, k: nat)
    requires Tables(c) && SlotOk(c) && k in c.pending.m && d.accepted == c.accepted
    requires var b := c.pending.m[k].board; SlotOnly(c, d, b) && d.boards[b].inFlight != Some(k)
    requires forall id :: Done(d, id) && !Done(c, id) ==> id == c.pending.m[k].id
    ensures SlotOk(d)
  {
    PendingEntryOk(c, k);
    hide Tables, SlotOk, Done, InFifo;
    forall id ensures InFifo(d, id) <==> InFifo(c, id) { SameQueues(c, d, id); }
    SlotsKept(c, d);
  }

  lemma RaisedSlots(c: Ctl, k: nat)
    requires Sound(c) && SlotOk(c) && k in c.pending.m
    ensures SlotOk(TakeOut(c, k))
  {
    hide TakeOut, LedgerOk, SlotOk;
    TakeOutFrame(c, k);
    TakeOutFrees(c, k);
    PopSlots(c, TakeOut(c, k), k);
  }

  lemma MatchedSlots(c: Ctl, r: BoardReply)
    requires Sound(c) && SlotOk(c) && r.boardSeq in c.pending.m
    ensures SlotOk(Matched(c, r))
  {
    hide TakeOut, LedgerOk, SlotOk, RelayedReply;
    TakeOutFrame(c, r.boardSeq);
    TakeOutFrees(c, r.boardSeq);
    PopSlots(c, Matched(c, r), r.boardSeq);
  }

  lemma TimedOutSlotsOk(c: Ctl, id: Id)
    requires Sound(c) && SlotOk(c) && id in c.timers.asleep && c.timers.asleep[id].boardSeq in c.pending.m
    ensures SlotOk(TimedOut(c, id))
  {
    hide TimedOut, LedgerOk, SlotOk;
    TimeoutFrame(c, id);
    TimeoutFrees(c, id);
    PopSlots(c, TimedOut(c, id), c.timers.asleep[id].boardSeq);
  }

  // ------------------------------------------------------ steps that do not

  /** Queues stand still or empty, slots stand still or are freed with their queue,
      and nothing calls for a dispatch. */
  ghost predicate Slackens(c: Ctl, d: Ctl) {
    && d.cfg == c.cfg && d.accepted == c.accepted && d.boards.Keys == c.boards.Keys
    && forall b :: b in c.boards ==> SlackensAt(c, d, b)
  }

  predicate SlackensAt(c: Ctl, d: Ctl, b: BoardId)
    requires b in c.boards && b in d.boards
  {
    && (d.boards[b].fifo == c.boards[b].fifo || d.boards[b].fifo == [])
    && (d.boards[b].inFlight == c.boards[b].inFlight || (d.boards[b].inFlight.None? && d.boards[b].fifo == []))
    && c.boards[b].nextSeq <= d.boards[b].nextSeq
    && (MayDispatch(d, b) && d.boards[b].fifo != [] ==> MayDispatch(c, b))
  }

  lemma SlackensServe(c: Ctl, d: Ctl)
    requires Slackens(c, d)
    ensures AllServed(c) ==> AllServed(d)
    ensures Bounded(c) ==> Bounded(d)
  {
    hide MayDispatch;
    if AllServed(c) {
      forall b | b in d.boards ensures Served(d, b) { assert SlackensAt(c, d, b) && Served(c, b); }
    }
    if Bounded(c) {
      forall b | b in d.boards ensures |d.boards[b].fifo| <= d.cfg.fifoDepth { assert SlackensAt(c, d, b); }
    }
  }

  lemma SlackensQueues(c: Ctl, d: Ctl)
    requires Slackens(c, d)
    ensures forall id :: InFifo(d, id) ==> InFifo(c, id)
  {
    hide MayDispatch;
    forall id: Id | InFifo(d, id) ensures InFifo(c, id) { assert SlackensAt(c, d, c.accepted[id].board); }
  }

  lemma SlackensSlots(c: Ctl, d: Ctl)
    requires SlotOk(c) && Slackens(c, d)
    requires forall id :: Done(d, id) && !Done(c, id) ==> InFifo(c, id) || !Slotted(d, id)
    ensures SlotOk(d)
  {
    hide MayDispatch, SlotOk, InFifo, Done, Slotted;
    SlackensQueues(c, d);
    forall b | b in c.boards
      ensures && (d.boards[b].inFlight == c.boards[b].inFlight || d.boards[b].inFlight.None?)
              && c.boards[b].nextSeq <= d.boards[b].nextSeq
    {
      assert SlackensAt(c, d, b);
    }
    SlotsKept(c, d);
  }

  /** A finished write never frees a slot: its board's slot is free of answered
      commands. */
  lemma ResumeFreesNone(c: Ctl, id: Id)
    requires Sound(c) && SlotOk(c) && id in c.writing
    ensures ResumeWrite(c, id).boards == c.boards && ResumeWrite(c, id).cfg == c.cfg
    ensures ResumeWrite(c, id).closing == c.closing && ResumeWrite(c, id).accepted == c.accepted
    ensures ResumeWrite(c, id).ledger == c.ledger
  {
    WritingEntryOk(c, id);
    WritingOnItsBoard(c, id);
    hide Tables, LedgerOk;
    if Done(c, id) { assert !Slotted(c, id); }
  }

  lemma WritingOnItsBoard(c: Ctl, id: Id)
    requires Tables(c) && id in c.writing
    ensures c.writing[id].board in c.boards && c.pending.Valid()
    ensures id < |c.accepted| && c.writing[id].board == c.accepted[id].board
  {
    WritingEntryWritten(c, id);
  }

  lemma SameBoardsSlacken(c: Ctl, d: Ctl)
    requires d.cfg == c.cfg && d.accepted == c.accepted && d.boards == c.boards && (c.closing ==> d.closing)
    ensures Slackens(c, d)
  {
  }

  /** A command that is not taken in moves nothing but counters, and perhaps a seq. */
  lemma RefusedFrame(c: Ctl, command: Command, local: Reply)
    requires Valid(c) && !Accepts(c, command)
    ensures var d := Route(c, command, local).0;
            && d.cfg == c.cfg && d.now == c.now && d.closing == c.closing && d.boards.Keys == c.boards.Keys
            && d.pending == c.pending && d.timers == c.timers && d.writing == c.writing && d.stranded == c.stranded
            && d.accepted == c.accepted && d.ledger.outcome == c.ledger.outcome && d.sent == c.sent
            && forall b :: b in c.boards ==>
                 && d.boards[b] == c.boards[b].(nextSeq := d.boards[b].nextSeq)
                 && c.boards[b].nextSeq <= d.boards[b].nextSeq
  {
    hide Valid, RecordTerminal, ErrorReply, Refuse, Refusal;
    RefuseCounts(c, command, CONTROLLER_SHUTDOWN);
    if Refusal(c, command).Some? { RefuseCounts(c, command, Refusal(c, command).value); }
    if Refusal(c, command).None? { TargetKnown(c, command); }
  }

  lemma RefuseCounts(c: Ctl, command: Command, code: ErrorCode)
    ensures var d := Refuse(c, command, code);
            d == c.(ledger := d.ledger) && d.ledger.outcome == c.ledger.outcome
  {
  }

  lemma TargetKnown(c: Ctl, command: Command)
    requires Refusal(c, command).None?
    ensures command.target in c.boards
  {
  }

  lemma RefusedSlackens(c: Ctl, command: Command, local: Reply)
    requires Valid(c) && !Accepts(c, command)
    ensures var d := Route(c, command, local).0; Slackens(c, d) && d.ledger.outcome == c.ledger.outcome
  {
    hide Valid, Route;
    RefusedFrame(c, command, local);
  }

  lemma UnmatchedSlackens(c: Ctl, r: BoardReply)
    requires Valid(c) && r.boardSeq !in c.pending.m
    ensures var d := HandleResponse(c, r); Slackens(c, d) && d.ledger.outcome == c.ledger.outcome
  {
    hide Valid;
    SameBoardsSlacken(c, HandleResponse(c, r));
  }

  lemma VainSlackens(c: Ctl, id: Id)
    requires Valid(c) && id in c.timers.asleep && c.timers.asleep[id].boardSeq !in c.pending.m
    ensures var d := FireTimer(c, id); Slackens(c, d) && d.ledger.outcome == c.ledger.outcome
  {
    hide Valid;
    SameBoardsSlacken(c, FireTimer(c, id));
  }

  lemma DownShapeOf(c: Ctl, b: BoardId)
    requires Valid(c) && b in c.boards
    ensures var d := BoardDown(c, b);
            && d.cfg == c.cfg && d.accepted == c.accepted && d.closing == c.closing
            && d.boards == c.boards[b := c.boards[b].(conn := FAULTED, writer := false, fifo := [], inFlight := None)]
  {
  }

  lemma DownSlackens(c: Ctl, b: BoardId)
    requires Valid(c) && b in c.boards
    ensures Slackens(c, BoardDown(c, b))
  {
    hide BoardDown;
    DownShapeOf(c, b);
  }

  lemma DownSlots(c: Ctl, b: BoardId)
    requires Sound(c) && SlotOk(c) && b in c.boards
    ensures SlotOk(BoardDown(c, b))
  {
    hide BoardDown, LedgerOk, SlotOk, InFifo, KeepsAll, Slackens, Dict.Values;
    var d := BoardDown(c, b);
    DownSlackens(c, b);
    DownShapeOf(c, b);
    BoardDownSettles(c, b);
    BoardDownClears(c, b);
    forall id | Done(d, id) && !Done(c, id) ensures InFifo(c, id) || !Slotted(d, id) {
      NewlyDone(c, d, id);
      if !InFifo(c, id) { LostOnBoard(c, d, b, id); }
    }
    SlackensSlots(c, d);
  }

  /** Whose pending entry went down with board `b` was on that board. */
  lemma LostOnBoard(c: Ctl, d: Ctl, b: BoardId, id: Id)
    requires Tables(c) && Clears(c, d, OnBoard(c.pending.Values(), b), {b}) && InPending(c, id) && !InPending(d, id)
    ensures c.accepted[id].board == b
  {
    hide Dict.Values;
    PendingEntryOk(c, c.accepted[id].boardSeq);
  }

  lemma TriggerFrame(c: Ctl)
    requires Valid(c)
    ensures var d := TriggerEstop(c); Slackens(c, d) && d.pending == c.pending
  {
    hide ResolveAll, Queued;
  }

  lemma TriggerSlots(c: Ctl)
    requires Sound(c) && SlotOk(c)
    ensures SlotOk(TriggerEstop(c))
  {
    hide TriggerEstop, LedgerOk, SlotOk, InFifo, Slackens, InPending, Placed;
    var d := TriggerEstop(c);
    TriggerFrame(c);
    TriggerSettles(c);
    forall id | Done(d, id) && !Done(c, id) ensures InFifo(c, id) {
      NewlyDone(c, d, id);
      SameTable(c, d, id);
    }
    SlackensSlots(c, d);
  }

  lemma SameTable(c: Ctl, d: Ctl, id: Id)
    requires d.pending == c.pending && d.accepted == c.accepted
    ensures InPending(d, id) <==> InPending(c, id)
  {
  }

  lemma FailFrame(c: Ctl)
    requires Valid(c)
    ensures var d := FailRemaining(c);
            Slackens(c, d) && forall b :: b in d.boards ==> d.boards[b].inFlight.None?
  {
    hide ResolveAll, Queued, Withdraw;
    WithdrawFrame(c, c.pending.Values());
  }

  lemma FailSlots(c: Ctl)
    requires Sound(c) && SlotOk(c)
    ensures SlotOk(FailRemaining(c))
  {
    hide FailRemaining, LedgerOk, SlotOk, InFifo, Slackens;
    FailFrame(c);
    SlackensSlots(c, FailRemaining(c));
  }

  // ------------------------------------------------- connections and flags

  lemma SchemaSlackens(c: Ctl, b: BoardId, m: Object)
    requires b in c.boards && c.boards[b].fifo == []
    ensures var d := RegisterAndAssert(c, b, m); Slackens(c, d) && d.ledger.outcome == c.ledger.outcome
  {
  }

  lemma SetConnSlackens(c: Ctl, b: BoardId, state: ConnState)
    requires b in c.boards && state != REGISTERED
    ensures var d := SetConn(c, b, state); Slackens(c, d) && d.ledger.outcome == c.ledger.outcome
  {
  }

  lemma TaskSlackens(c: Ctl, b: BoardId)
    requires b in c.boards
    ensures var d := AckEstop(c, b); Slackens(c, d) && d.ledger.outcome == c.ledger.outcome
    ensures b in c.estopTasks ==>
              var d := RunEstopTask(c, b); Slackens(c, d) && d.ledger.outcome == c.ledger.outcome
  {
  }

  lemma CloseSlackens(c: Ctl)
    ensures Slackens(c, CloseWriters(c)) && CloseWriters(c).ledger.outcome == c.ledger.outcome
  {
  }

  /** The events that neither dispatch nor answer anybody. */
  predicate Calm(e: Event) {
    || e.WriteReturns? || e.WriteRaises? || e.Dial? || e.Link? || e.SchemaArrives? || e.LinkFails? || e.SessionEnds?
    || e.SkipReport? || e.StopBoard? || e.EstopTaskRuns? || e.EstopAcked? || e.EstopReset? || e.ShutdownBegins?
    || e.WritersClose? || e.Tick?
  }

  lemma WriteSlackens(c: Ctl, id: Id)
    requires Sound(c) && SlotOk(c) && id in c.writing
    ensures var d := ResumeWrite(c, id); Slackens(c, d) && d.ledger.outcome == c.ledger.outcome
    ensures var d := AbortWrite(c, id); Slackens(c, d) && d.ledger.outcome == c.ledger.outcome
  {
    hide ResumeWrite, SlotOk, Slackens, LedgerOk, Tables, Valid;
    SoundIsValid(c);
    ResumeFreesNone(c, id);
    SameBoardsSlacken(c, ResumeWrite(c, id));
    SameBoardsSlacken(c, AbortWrite(c, id));
  }

  lemma CalmSlackens(s: Sys, e: Event)
    requires Safe(s) && SlotOk(s.ctl) && Enabled(s, e) && Calm(e)
    ensures var d := CtlNext(s, e); Slackens(s.ctl, d) && d.ledger.outcome == s.ctl.ledger.outcome
  {
    hide Slackens, ResumeWrite, RegisterAndAssert, SetConn, AckEstop, RunEstopTask, CloseWriters, Sound, SlotOk,
         GateOk, SentOk, FailedOk;
    var c := s.ctl;
    if e.WriteReturns? || e.WriteRaises? { WriteSlackens(c, e.id); }
    else if e.SchemaArrives? { SchemaSlackens(c, e.board, e.schema); }
    else if e.Dial? { SetConnSlackens(c, e.board, CONNECTING); }
    else if e.Link? { SetConnSlackens(c, e.board, CONNECTED); }
    else if e.LinkFails? { SetConnSlackens(c, e.board, FAULTED); }
    else if e.EstopTaskRuns? || e.EstopAcked? { TaskSlackens(c, e.board); }
    else if e.WritersClose? { CloseSlackens(c); }
    else { SameBoardsSlacken(c, CtlNext(s, e)); }
  }

  // -------------------------------------------------------------- every event

  /** What a step guarantees: the slots stay right, queues stay bounded, and unless a
      response raised, boards stay served. */
  ghost predicate Serves(c: Ctl, d: Ctl, raises: bool) {
    && (SlotOk(c) ==> SlotOk(d)) && (Bounded(c) ==> Bounded(d))
    && (SlotOk(c) && AllServed(c) && !raises ==> AllServed(d))
  }

  lemma SlackServes(c: Ctl, d: Ctl)
    requires Slackens(c, d) && SlotOk(d)
    ensures Serves(c, d, false)
  {
    hide SlotOk, AllServed, Bounded, Slackens;
    SlackensServe(c, d);
  }

  lemma QuietServes(c: Ctl, d: Ctl)
    requires SlotOk(c) && Slackens(c, d) && d.ledger.outcome == c.ledger.outcome
    ensures Serves(c, d, false)
  {
    hide SlotOk, Slackens, Serves;
    SlackensSlots(c, d);
    SlackServes(c, d);
  }

  lemma AcceptServes(c: Ctl, command: Command)
    requires Sound(c) && SlotOk(c) && Accepts(c, command)
    ensures Serves(c, DispatchNext(Enqueue(c, command), command.target), false)
  {
    hide DispatchNext, LedgerOk, SlotOk, Tables;
    var m, b := Enqueue(c, command), command.target;
    EnqueueKeeps(c, command);
    EnqueueSlots(c, command);
    DispatchSlots(m, b);
    SoundIsValid(m);
    if Bounded(c) { DispatchBounds(m, b); }
    if AllServed(c) {
      forall x | x in m.boards && x != b ensures Served(m, x) { assert Served(c, x); }
      DispatchServes(m, b);
    }
  }

  lemma RouteServes(c: Ctl, command: Command, local: Reply)
    requires Sound(c) && SlotOk(c)
    ensures Serves(c, Route(c, command, local).0, false)
  {
    hide Serves, SlotOk, Route, LedgerOk, Tables, Slackens;
    SoundIsValid(c);
    if Accepts(c, command) {
      AcceptServes(c, command);
      AcceptedRoute(c, command, local);
    } else {
      RefusedSlackens(c, command, local);
      QuietServes(c, Route(c, command, local).0);
    }
  }

  /** A slot of `b` is freed and `b` is dispatched. */
  lemma FreedServes(c: Ctl, m: Ctl, b: BoardId)
    requires Sound(m) && SlotOk(m) && SlotOnly(c, m, b) && m.cfg == c.cfg && m.closing == c.closing
    ensures Serves(c, DispatchNext(m, b), false)
  {
    hide DispatchNext, LedgerOk, SlotOk, Tables;
    SoundIsValid(m);
    DispatchSlots(m, b);
    if Bounded(c) { DispatchBounds(m, b); }
    if AllServed(c) {
      forall x | x in m.boards && x != b ensures Served(m, x) { assert Served(c, x); }
      DispatchServes(m, b);
    }
  }

  /** The raising response frees the slot and calls for a dispatch that does not come. */
  lemma RaisedServes(c: Ctl, k: nat)
    requires Sound(c) && SlotOk(c) && k in c.pending.m
    ensures Serves(c, TakeOut(c, k), true)
  {
    hide TakeOut, LedgerOk, SlotOk, Tables;
    SoundIsValid(c);
    RaisedSlots(c, k);
    TakeOutFrame(c, k);
  }

  lemma ResponseServes(c: Ctl, r: BoardReply)
    requires Sound(c) && SlotOk(c) && Coupled(r.status, r.code)
    ensures Serves(c, HandleResponse(c, r), r.boardSeq in c.pending.m && r.overflows)
  {
    hide Serves, SlotOk, LedgerOk, Tables, Slackens, TakeOut, DispatchNext;
    SoundIsValid(c);
    if r.boardSeq !in c.pending.m {
      UnmatchedSlackens(c, r);
      QuietServes(c, HandleResponse(c, r));
    } else if r.overflows {
      RaisedServes(c, r.boardSeq);
    } else {
      MatchedSettles(c, r);
      MatchedSlots(c, r);
      TakeOutFrame(c, r.boardSeq);
      FreedServes(c, Matched(c, r), c.pending.m[r.boardSeq].board);
    }
  }

  lemma TimerServes(c: Ctl, id: Id)
    requires Sound(c) && SlotOk(c) && id in c.timers.asleep
    ensures Serves(c, FireTimer(c, id), false)
  {
    hide Serves, SlotOk, LedgerOk, Tables, Slackens, TimedOut, DispatchNext;
    SoundIsValid(c);
    var k := c.timers.asleep[id].boardSeq;
    if k !in c.pending.m {
      VainSlackens(c, id);
      QuietServes(c, FireTimer(c, id));
    } else {
      TimedOutSettles(c, id);
      TimedOutSlotsOk(c, id);
      TimeoutFrame(c, id);
      FreedServes(c, TimedOut(c, id), c.pending.m[k].board);
    }
  }

  lemma FlushServes(c: Ctl)
    requires Sound(c) && SlotOk(c)
    ensures Serves(c, TriggerEstop(c), false) && Serves(c, FailRemaining(c), false)
  {
    hide Serves, SlotOk, LedgerOk, Tables, Slackens, TriggerEstop, FailRemaining;
    SoundIsValid(c);
    TriggerFrame(c);
    TriggerSlots(c);
    SlackServes(c, TriggerEstop(c));
    FailFrame(c);
    FailSlots(c);
    SlackServes(c, FailRemaining(c));
  }

  lemma DownServes(c: Ctl, b: BoardId)
    requires Sound(c) && SlotOk(c) && b in c.boards
    ensures Serves(c, BoardDown(c, b), false)
  {
    hide Serves, SlotOk, LedgerOk, Tables, Slackens, BoardDown;
    SoundIsValid(c);
    DownSlackens(c, b);
    DownSlots(c, b);
    SlackServes(c, BoardDown(c, b));
  }

  lemma StepServes(s: Sys, e: Event)
    requires Safe(s) && SlotOk(s.ctl) && Enabled(s, e)
    ensures Serves(s.ctl, CtlNext(s, e), Raises(s.ctl, e))
  {
    hide Serves, SlotOk, Sound, Slackens, Route, HandleResponse, FireTimer, TriggerEstop, FailRemaining, BoardDown,
         GateOk, SentOk, FailedOk, LinkOk;
    var c := s.ctl;
    if Calm(e) {
      CalmSlackens(s, e);
      QuietServes(c, CtlNext(s, e));
    }
    else if e.RouteCommand? { RouteServes(c, e.command, e.local); }
    else if e.ResponseArrives? { ResponseServes(c, e.reply); }
    else if e.TimerFires? { TimerServes(c, e.id); }
    else if e.LivenessExpires? || e.ReportDown? { DownServes(c, e.board); }
    else { FlushServes(c); }
  }

  lemma ServesAfter(s: Sys, e: Event, t: Sys)
    requires Safe(s) && SlotOk(s.ctl) && Bounded(s.ctl) && Step(s, e, t)
    ensures SlotOk(t.ctl) && Bounded(t.ctl)
    ensures AllServed(s.ctl) && !Raises(s.ctl, e) ==> AllServed(t.ctl)
  {
    hide Safe, SlotOk, Bounded, AllServed, CtlNext, Raises;
    StepServes(s, e);
  }

  lemma StartServes(s: Sys)
    requires Init(s)
    ensures SlotOk(s.ctl) && Bounded(s.ctl) && AllServed(s.ctl)
  {
  }

  // --------------------------------------------------------------- theorems

  lemma {:induction false} RunsKeepSlots(states: seq<Sys>, events: seq<Event>, n: nat)
    requires Run(states, events) && n <= |events|
    ensures SlotOk(states[n].ctl) && Bounded(states[n].ctl)
    ensures NoRaise(states, events, n) ==> AllServed(states[n].ctl)
  {
    hide Init, Step, SlotOk, Bounded, AllServed, Raises, Safe;
    if n == 0 {
      StartServes(states[0]);
    } else {
      RunsKeepSlots(states, events, n - 1);
      RunsAreSafe(states, events, n - 1);
      AtStep(states, events, n - 1);
      ServesAfter(states[n - 1], events[n - 1], states[n]);
    }
  }

  /** In every run, over any boards, no queue ever exceeds the configured depth. */
  lemma QueuesAreBounded(states: seq<Sys>, events: seq<Event>, n: nat)
    requires Run(states, events) && n <= |events|
    ensures forall b :: b in states[n].ctl.boards ==> |states[n].ctl.boards[b].fifo| <= states[n].ctl.cfg.fifoDepth
  {
    RunsKeepSlots(states, events, n);
  }

  /** In every run, over any boards, in which no response raised on an entry it had
      taken out: a registered board with a writer and a free slot has an empty queue
      until shutdown begins. */
  lemma QueuesAreServed(states: seq<Sys>, events: seq<Event>, n: nat)
    requires Run(states, events) && n <= |events| && NoRaise(states, events, n)
    ensures var c := states[n].ctl;
            forall b :: b in c.boards && Ready(c.boards[b]) && !c.closing && c.boards[b].inFlight.None? ==>
              c.boards[b].fifo == []
  {
    RunsKeepSlots(states, events, n);
    var c := states[n].ctl;
    forall b | b in c.boards ensures Served(c, b) {}
  }

  /** In every run the slot of a board never holds the seq of a command of that board
      that is answered or still queued. So a write that returns never frees a slot,
      and the branch that would is dead. */
  lemma WritesFreeNoSlot(states: seq<Sys>, events: seq<Event>, n: nat, id: Id)
    requires Run(states, events) && n < |events| && events[n] == WriteReturns(id)
    ensures states[n + 1].ctl.boards == states[n].ctl.boards
    ensures forall x: Id :: Slotted(states[n].ctl, x) ==>
              x !in states[n].ctl.ledger.outcome && !InFifo(states[n].ctl, x)
  {
    hide Init, Sound, ResumeWrite, LinkOk, GateOk, SentOk, FailedOk;
    RunsKeepSlots(states, events, n);
    RunsAreSafe(states, events, n);
    AtStep(states, events, n);
    ResumeFreesNone(states[n].ctl, id);
  }
}
