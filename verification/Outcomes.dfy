/** Who is answered what by each resolver, in any sound state; every reachable
    state is one. */
module Outcomes {
  import opened Basics
  import opened Protocol
  import opened Controller
  import opened Accounts
  import opened Conservation
  import opened Steps
  import opened Resolvers
  import opened Flight
  import opened Loss
  import opened System
  import opened Safety
  import opened Service
  import opened Slots
  import opened Correlation

  /** From `c` to `d` exactly the commands of `who` are answered, with this code. */
  ghost predicate AnswersExactly(c: Ctl, d: Ctl, who: iset<Id>, code: ErrorCode) {
    && (forall id :: id in c.ledger.outcome ==> id in d.ledger.outcome && d.ledger.outcome[id] == c.ledger.outcome[id])
    && (forall id: Id :: id in d.ledger.outcome && id !in c.ledger.outcome <==> id in who)
    && (forall id: Id :: id in who ==>
          && id < |c.accepted| && id in d.ledger.outcome
          && FailsWith(d.ledger.outcome[id], c.accepted[id], code))
  }

  /** The commands of board `b` that wait or are in flight. */
  ghost function Unanswered(c: Ctl, b: BoardId): iset<Id> {
    iset id: Id | (InFifo(c, id) || InPending(c, id)) && c.accepted[id].board == b
  }

  lemma OpenAreNotDone(c: Ctl, id: Id)
    requires Tables(c) && (InFifo(c, id) || InPending(c, id))
    ensures id !in c.ledger.outcome && id < |c.accepted|
  {
    OnePlace(c, id);
  }

  lemma DropsAccepted(c: Ctl, d: Ctl, lost: seq<Entry>, queued: seq<Entry>)
    requires Tables(c) && Drops(c, d, lost, queued)
    ensures forall e :: e in lost + queued ==> IsAccepted(e, c.accepted)
  {
    DropsMembers(c, d, lost, queued);
    hide Tables, Drops;
    var es := lost + queued;
    forall e | e in es ensures (InFifo(c, e.id) && c.accepted[e.id] == e)
      || (e.boardSeq in c.pending.m && c.pending.m[e.boardSeq] == e) {
      assert e in lost || e in queued;
    }
    TableEntriesAccepted(c, es);
  }

  /** Entries that leave the tables together are answered together. */
  lemma DroppedAreAnswered(c: Ctl, d: Ctl, lost: seq<Entry>, queued: seq<Entry>, l: Ledger, code: ErrorCode,
    who: iset<Id>)
    requires Sound(c) && Drops(c, d, lost, queued) && LedgerOk(l, c.accepted) && l.outcome == c.ledger.outcome
    requires d.ledger == ResolveAll(l, lost + queued, code)
    requires forall id: Id :: id in who <==> (InFifo(c, id) || InPending(c, id)) && !InFifo(d, id) && !InPending(d, id)
    ensures AnswersExactly(c, d, who, code)
  {
    hide LedgerOk, InFifo, InPending, Tables, Drops, Mentions;
    var es := lost + queued;
    DropsAccepted(c, d, lost, queued);
    ResolveAllKeeps(l, c.accepted, es, code);
    forall id: Id ensures (Mentions(es, id) <==> id in who)
      && (id in who ==> id !in c.ledger.outcome && id < |c.accepted|) {
      WhoIsMentioned(c, d, lost, queued, who, id);
    }
  }

  lemma WhoIsMentioned(c: Ctl, d: Ctl, lost: seq<Entry>, queued: seq<Entry>, who: iset<Id>, id: Id)
    requires Tables(c) && Drops(c, d, lost, queued)
    requires forall id: Id :: id in who <==> (InFifo(c, id) || InPending(c, id)) && !InFifo(d, id) && !InPending(d, id)
    ensures (Mentions(lost + queued, id) <==> id in who) && (id in who ==> id !in c.ledger.outcome && id < |c.accepted|)
  {
    hide InFifo, InPending, Tables, Drops, Mentions;
    DroppedFrom(c, d, lost, queued, id);
    if id in who { OpenAreNotDone(c, id); }
  }

  /** What clearing some boards takes out of the tables. */
  lemma ClearsWho(c: Ctl, d: Ctl, lost: seq<Entry>, bs: set<BoardId>, id: Id)
    requires Tables(c) && Clears(c, d, lost, bs)
    ensures InFifo(d, id) <==> InFifo(c, id) && c.accepted[id].board !in bs
    ensures InPending(d, id) <==> InPending(c, id) && c.pending.m[c.accepted[id].boardSeq] !in lost
    ensures !(InFifo(c, id) && InPending(c, id))
    ensures InPending(c, id) ==> c.pending.m[c.accepted[id].boardSeq].board == c.accepted[id].board
  {
    if InPending(c, id) {
      OnePlace(c, id);
      PendingEntryOk(c, c.accepted[id].boardSeq);
    }
  }

  /** A lost board: exactly its own open commands are answered BOARD_UNAVAILABLE,
      and it is left faulted, without a writer, queue or command in flight. */
  lemma BoardDownAnswers(c: Ctl, b: BoardId)
    requires Sound(c) && b in c.boards
    ensures var d := BoardDown(c, b);
            && AnswersExactly(c, d, Unanswered(c, b), BOARD_UNAVAILABLE)
            && d.boards == c.boards[b := c.boards[b].(conn := FAULTED, writer := false, fifo := [], inFlight := None)]
            && (forall k :: k in d.pending.m <==> k in c.pending.m && c.pending.m[k].board != b)
  {
    hide Sound, AnswersExactly, Clears, BoardDown;
    SoundIsValid(c);
    DownAnswers(c, b);
    DownShapeOf(c, b);
    DownPending(c, b);
  }

  lemma DownPending(c: Ctl, b: BoardId)
    requires Valid(c) && b in c.boards
    ensures forall k :: k in BoardDown(c, b).pending.m <==> k in c.pending.m && c.pending.m[k].board != b
  {
    BoardDownClears(c, b);
    PendingValues(c);
    hide BoardDown, Dict.Values;
  }

  lemma DownWho(c: Ctl, b: BoardId)
    requires Sound(c) && b in c.boards
    ensures var d := BoardDown(c, b);
            && Drops(c, d, OnBoard(c.pending.Values(), b), c.boards[b].fifo)
            && forall id: Id :: id in Unanswered(c, b) <==>
               (InFifo(c, id) || InPending(c, id)) && !InFifo(d, id) && !InPending(d, id)
  {
    hide LedgerOk, Drops, InFifo, InPending, BoardDown, Dict.Values;
    var d, lost := BoardDown(c, b), OnBoard(c.pending.Values(), b);
    BoardDownClears(c, b);
    OneQueue(c, b);
    QueuedLeave(c, d, lost, {b}, c.boards[b].fifo);
    ClearsDrop(c, d, lost, {b}, c.boards[b].fifo);
    forall id: Id ensures id in Unanswered(c, b)
      <==> (InFifo(c, id) || InPending(c, id)) && !InFifo(d, id) && !InPending(d, id) {
      DownOne(c, b, id);
    }
  }

  lemma DownOne(c: Ctl, b: BoardId, id: Id)
    requires Valid(c) && Tables(c) && b in c.boards && Clears(c, BoardDown(c, b), OnBoard(c.pending.Values(), b), {b})
    ensures var d := BoardDown(c, b);
            id in Unanswered(c, b) <==> (InFifo(c, id) || InPending(c, id)) && !InFifo(d, id) && !InPending(d, id)
  {
    hide InFifo, InPending, Tables, Clears, BoardDown, OnBoard, Dict.Values;
    ClearsWho(c, BoardDown(c, b), OnBoard(c.pending.Values(), b), {b}, id);
    if InPending(c, id) { LostHere(c, b, id); }
  }

  lemma LostHere(c: Ctl, b: BoardId, id: Id)
    requires Tables(c) && InPending(c, id)
    ensures c.pending.m[c.accepted[id].boardSeq] in OnBoard(c.pending.Values(), b) <==> c.accepted[id].board == b
  {
    hide OnBoard, Dict.Values;
    PendingHere(c, id);
    PendingEntryOk(c, c.accepted[id].boardSeq);
  }

  lemma DownAnswers(c: Ctl, b: BoardId)
    requires Sound(c) && b in c.boards
    ensures AnswersExactly(c, BoardDown(c, b), Unanswered(c, b), BOARD_UNAVAILABLE)
  {
    hide Tables, LedgerOk, Drops, InFifo, InPending, AnswersExactly, BoardDown, Dict.Values, Unanswered;
    SoundIsValid(c);
    BoardDownLedger(c, b);
    RecountKeeps(c.ledger, c.accepted, CountDown(c.ledger).counters);
    DownWho(c, b);
    DroppedAreAnswered(c, BoardDown(c, b), OnBoard(c.pending.Values(), b), c.boards[b].fifo, CountDown(c.ledger),
                       BOARD_UNAVAILABLE, Unanswered(c, b));
  }

  lemma PendingHere(c: Ctl, id: Id)
    requires Tables(c) && InPending(c, id)
    ensures var e := c.pending.m[c.accepted[id].boardSeq]; e in c.pending.Values()
  {
    PendingValues(c);
    PendingEntryOk(c, c.accepted[id].boardSeq);
  }

  lemma QueuedLeave(c: Ctl, d: Ctl, lost: seq<Entry>, bs: set<BoardId>, queued: seq<Entry>)
    requires Tables(c) && Clears(c, d, lost, bs)
    requires forall e :: e in queued <==> exists b :: b in bs && e in c.boards[b].fifo
    ensures forall e :: e in queued ==> InFifo(c, e.id) && c.accepted[e.id] == e && !InFifo(d, e.id)
  {
    forall e | e in queued ensures InFifo(c, e.id) && c.accepted[e.id] == e && !InFifo(d, e.id) {
      ClearsQueued(c, d, lost, bs, queued, e);
    }
  }

  ghost function AllQueued(c: Ctl): iset<Id> { iset id: Id | InFifo(c, id) }

  ghost function AllOpen(c: Ctl): iset<Id> { iset id: Id | InFifo(c, id) || InPending(c, id) }

  lemma TriggerClears(c: Ctl)
    requires Valid(c) && !c.latched
    ensures Clears(c, TriggerEstop(c), [], c.boards.Keys)
    ensures TriggerEstop(c).ledger == ResolveAll(c.ledger, [] + Queued(c), ESTOP_ACTIVE)
  {
    hide ResolveAll, Queued;
    assert [] + Queued(c) == Queued(c);
    TriggerShape(c);
    PendingIsValid(c);
    hide TriggerEstop, Valid;
  }

  lemma TriggerShape(c: Ctl)
    requires Valid(c) && !c.latched
    ensures TriggerEstop(c)
            == c.(latched := true, boards := TriggerEstop(c).boards,
                  ledger := ResolveAll(c.ledger, Queued(c), ESTOP_ACTIVE), estopTasks := TriggerEstop(c).estopTasks)
    ensures TriggerEstop(c).boards.Keys == c.boards.Keys
    ensures forall b :: b in c.boards ==> TriggerEstop(c).boards[b] == c.boards[b].(fifo := [])
  {
    hide ResolveAll, Queued;
  }

  /** A latched e-stop: exactly the queued commands are answered ESTOP_ACTIVE; what
      is in flight, with its slot and its timer, is left to resolve naturally. */
  lemma TriggerAnswers(c: Ctl)
    requires Sound(c) && !c.latched
    ensures var d := TriggerEstop(c);
            && AnswersExactly(c, d, AllQueued(c), ESTOP_ACTIVE)
            && d.latched && d.pending == c.pending && d.timers == c.timers && d.writing == c.writing
            && (forall b :: b in c.boards ==> d.boards[b] == c.boards[b].(fifo := []))
            && (forall b :: b in c.boards && Ready(c.boards[b]) ==> b in d.estopTasks)
  {
    hide LedgerOk, Drops, InFifo, InPending, AnswersExactly, Queued;
    var d := TriggerEstop(c);
    TriggerClears(c);
    QueuedMembers(c);
    QueuedLeave(c, d, [], c.boards.Keys, Queued(c));
    ClearsDrop(c, d, [], c.boards.Keys, Queued(c));
    forall id: Id ensures id in AllQueued(c)
      <==> (InFifo(c, id) || InPending(c, id)) && !InFifo(d, id) && !InPending(d, id) {
      ClearsWho(c, d, [], c.boards.Keys, id);
      BoardOf(c, id);
    }
    DroppedAreAnswered(c, d, [], Queued(c), c.ledger, ESTOP_ACTIVE, AllQueued(c));
    forall b | b in c.boards && Ready(c.boards[b]) ensures b in d.estopTasks { assert b in ReadyBoards(c); }
  }

  lemma BoardOf(c: Ctl, id: Id)
    ensures InFifo(c, id) ==> c.accepted[id].board in c.boards
  {
  }

  lemma FailShape(c: Ctl)
    requires Valid(c)
    ensures var d, u := FailRemaining(c), Withdraw(c, c.pending.Values());
            && d.cfg == c.cfg && d.accepted == c.accepted && d.writing == c.writing && d.boards.Keys == c.boards.Keys
            && d.pending == u.pending && d.timers == u.timers
               && u.timers == CancelAll(c.timers, SeqsOf(c.pending.Values()))
            && u.pending == c.pending.PopAll(SeqsOf(c.pending.Values()))
            && (forall b :: b in c.boards ==> d.boards[b].fifo == [] && d.boards[b].nextSeq == c.boards[b].nextSeq)
            && d.ledger == ResolveAll(c.ledger, c.pending.Values() + Queued(c), CONTROLLER_SHUTDOWN)
  {
    hide ResolveAll, Queued, Dict.Values, Dict.PopAll, SeqsOf, CancelAll;
  }

  lemma FailClears(c: Ctl)
    requires Valid(c)
    ensures Clears(c, FailRemaining(c), c.pending.Values(), c.boards.Keys)
    ensures FailRemaining(c).ledger == ResolveAll(c.ledger, c.pending.Values() + Queued(c), CONTROLLER_SHUTDOWN)
  {
    hide FailRemaining, ResolveAll, Queued, Dict.Values, Dict.PopAll, SeqsOf, CancelAll, Withdraw, Valid;
    PendingIsValid(c);
    FailShape(c);
    PendingValues(c);
    WithdrawnPending(c, c.pending.Values());
    CancelAllShrinks(c.timers, SeqsOf(c.pending.Values()));
  }

  /** The fail phase of a shutdown: exactly the open commands are answered
      CONTROLLER_SHUTDOWN. */
  lemma FailRemainingAnswers(c: Ctl)
    requires Sound(c)
    ensures AnswersExactly(c, FailRemaining(c), AllOpen(c), CONTROLLER_SHUTDOWN)
  {
    hide LedgerOk, Drops, InFifo, InPending, AnswersExactly, Queued;
    var d, lost := FailRemaining(c), c.pending.Values();
    FailClears(c);
    QueuedMembers(c);
    QueuedLeave(c, d, lost, c.boards.Keys, Queued(c));
    ClearsDrop(c, d, lost, c.boards.Keys, Queued(c));
    forall id: Id ensures id in AllOpen(c)
      <==> (InFifo(c, id) || InPending(c, id)) && !InFifo(d, id) && !InPending(d, id) {
      ClearsWho(c, d, lost, c.boards.Keys, id);
      BoardOf(c, id);
      if InPending(c, id) { PendingHere(c, id); }
    }
    DroppedAreAnswered(c, d, lost, Queued(c), c.ledger, CONTROLLER_SHUTDOWN, AllOpen(c));
  }

  /** An execution timeout that finds its seq pending answers that entry's command
      COMMAND_TIMEOUT and frees its slot, whichever resolver it raced; all it
      answers besides is stale in the same queue. One that comes too late changes
      nothing but its own disappearance. */
  lemma TimeoutAnswers(c: Ctl, id: Id)
    requires Sound(c) && id in c.timers.asleep
    ensures var k, d := c.timers.asleep[id].boardSeq, FireTimer(c, id);
            if k !in c.pending.m then d == c.(timers := c.timers.(asleep := c.timers.asleep - {id}))
            else
              var e := c.pending.m[k];
              && e.id !in c.ledger.outcome && e.id < |c.accepted|
              && e.id in d.ledger.outcome && FailsWith(d.ledger.outcome[e.id], c.accepted[e.id], COMMAND_TIMEOUT)
              && forall x :: x in d.ledger.outcome && x !in c.ledger.outcome && x != e.id ==>
                 AnsweredStale(c, d, e.board, x)
  {
    hide LedgerOk, DispatchNext, TimedOut, FailsWith, KeepsAll, LosesOnly, NoneReturns, InFifo;
    var k := c.timers.asleep[id].boardSeq;
    if k in c.pending.m {
      var e, m := c.pending.m[k], TimedOut(c, id);
      TimedOutBooks(c, id);
      TimedOutSettles(c, id);
      DispatchAnswers(m, e.board);
      DispatchKeeps(m, e.board);
    }
  }

  lemma TimedOutShape(c: Ctl, id: Id)
    requires Valid(c) && id in c.timers.asleep && c.timers.asleep[id].boardSeq in c.pending.m
    ensures var e, m := c.pending.m[c.timers.asleep[id].boardSeq], TimedOut(c, id);
            && m.accepted == c.accepted && m.now == c.now && m.boards.Keys == c.boards.Keys
            && (forall x :: x in c.boards ==> m.boards[x].fifo == c.boards[x].fifo)
            && m.ledger == ResolveError(c.ledger, e, COMMAND_TIMEOUT)
  {
    hide ResolveError;
  }

  lemma TimedOutBooks(c: Ctl, id: Id)
    requires Sound(c) && id in c.timers.asleep && c.timers.asleep[id].boardSeq in c.pending.m
    ensures var e, m := c.pending.m[c.timers.asleep[id].boardSeq], TimedOut(c, id);
            && e.id < |c.accepted| && e.id !in c.ledger.outcome && m.accepted == c.accepted && m.now == c.now
            && m.ledger.outcome.Keys == c.ledger.outcome.Keys + {e.id}
            && FailsWith(m.ledger.outcome[e.id], c.accepted[e.id], COMMAND_TIMEOUT)
            && forall x :: InFifo(m, x) ==> InFifo(c, x)
  {
    hide TimedOut, InFifo, LogMatches;
    var k := c.timers.asleep[id].boardSeq;
    PendingEntryOk(c, k);
    TimedOutShape(c, id);
    ResolveErrorKeeps(c.ledger, c.accepted, c.pending.m[k], COMMAND_TIMEOUT);
    forall x ensures InFifo(TimedOut(c, id), x) ==> InFifo(c, x) { SameQueues(c, TimedOut(c, id), x); }
  }

  // ------------------------------------------------------------- at the door

  /** Nothing but the books has moved, and nobody queued or pending was answered. */
  ghost predicate OnlyBooked(c: Ctl, d: Ctl) {
    d == c.(ledger := d.ledger) && d.ledger == c.ledger.(counters := d.ledger.counters, taken := c.ledger.taken + 1)
  }

  /** Which answer routing gives at once, if any, told from the board's state. */
  ghost function AtTheDoor(c: Ctl, command: Command): Option<ErrorCode> {
    if c.closing then Some(CONTROLLER_SHUTDOWN)
    else if command.target !in c.boards then Some(UNKNOWN_TARGET)
    else
      var board := c.boards[command.target];
      if board.conn != REGISTERED || !board.writer then Some(BOARD_UNAVAILABLE)
      else if command.name !in board.reg.gates then Some(UNKNOWN_COMMAND)
      else if c.latched && board.reg.gates[command.name] then Some(ESTOP_ACTIVE)
      else if board.inFlight.Some? && |board.fifo| >= c.cfg.fifoDepth then Some(BOARD_BUSY)
      else None
  }

  /** The timeout a command would run under. */
  function LimitOf(c: Ctl, command: Command): real {
    if command.executionTimeout.None? then c.cfg.defaultTimeout else command.executionTimeout.value
  }

  /** Routing answers at once exactly when the state of the board says so, with that code
      and none of the fields of an ok, counts that one answer, and moves nothing else. */
  lemma RoutingRefusals(c: Ctl, command: Command, local: Reply)
    requires Sound(c) && Valid(c) && (c.closing || command.target != "controller")
    ensures var (d, r) := Route(c, command, local);
            var code, k := AtTheDoor(c, command), c.ledger.counters;
            && (r.Answered? <==> code.Some?)
            && (r.Answered? ==>
                  && OnlyBooked(c, d)
                  && r.reply == Reply(command.clientSeq, command.source, ERROR, code, None, None)
                  && d.ledger.counters == k.(error := k.error + 1,
                       busy := k.busy + (if code == Some(BOARD_BUSY) then 1 else 0),
                       estopRejections := k.estopRejections + (if code == Some(ESTOP_ACTIVE) then 1 else 0)))
  {
    hide DispatchNext, Tables, LedgerOk, Enqueue, Valid;
  }

  /** A command to the controller itself is answered by the controller's own handler. */
  lemma LocalAnswers(c: Ctl, command: Command, local: Reply)
    requires Sound(c) && Valid(c) && !c.closing && command.target == "controller"
    ensures var (d, r) := Route(c, command, local);
            var k, n := c.ledger.counters, d.ledger.counters;
            && r == Answered(local) && OnlyBooked(c, d)
            && n.ok == k.ok + (if local.status == OK then 1 else 0)
            && n.error == k.error + (if local.status == ERROR then 1 else 0)
            && n.timeout == k.timeout + (if local.status == TIMEOUT then 1 else 0)
  {
    hide DispatchNext, Tables, LedgerOk, Enqueue, Valid;
  }

  /** What routing does not answer at once it takes in, unless the board's seqs are used
      up or the command asks for more than ten seconds: then it raises. A command that is
      taken in gets the next identity, the time, and the defaults it left open. */
  lemma RoutingAccepts(c: Ctl, command: Command, local: Reply)
    requires Sound(c) && Valid(c)
    ensures var (d, r) := Route(c, command, local);
            var open := !c.closing && command.target != "controller" && AtTheDoor(c, command).None?;
            var used := open && c.boards[command.target].nextSeq > 0xFFFF_FFFF_FFFF_FFFF;
            && (r.Raised? <==> open && (used || LimitOf(c, command) > 10.0))
            && (r.Accepted? <==> open && !used && LimitOf(c, command) <= 10.0)
            && (r.Accepted? ==>
                  && r.id == |c.accepted| && |d.accepted| == |c.accepted| + 1 && d.accepted[..r.id] == c.accepted
                  && var seqno := c.boards[command.target].nextSeq;
                     var cap := if command.residencyCap.None? then c.cfg.defaultCap else command.residencyCap.value;
                     && d.accepted[r.id] == Entry(r.id, command.target, seqno, command.clientSeq, command.source,
                                                  command.name, c.now, cap, LimitOf(c, command), None)
                     && command.target in d.boards && d.boards[command.target].nextSeq == seqno + 1)
            && (r.Raised? ==>
                  var b := command.target;
                  d == if used then c
                       else c.(boards := c.boards[b := c.boards[b].(nextSeq := c.boards[b].nextSeq + 1)]))
  {
    hide DispatchNext, LedgerOk, Tables;
    if Accepts(c, command) { DispatchAccepted(Enqueue(c, command), command.target); }
  }

  lemma DispatchAccepted(c: Ctl, b: BoardId)
    requires b in c.boards && c.pending.Valid()
    ensures DispatchNext(c, b).accepted == c.accepted
    ensures b in DispatchNext(c, b).boards && DispatchNext(c, b).boards[b].nextSeq == c.boards[b].nextSeq
  {
  }

  // ------------------------------------------------------------ timers over runs

  /** In a run in which nothing was lost, a timer that fires is the armed one of the
      command it was set for, finds that command unanswered and answers it. */
  lemma TimersAnswerTheirOwn(states: seq<Sys>, events: seq<Event>, n: nat, id: Id)
    requires Run(states, events) && n < |events| && Clean(states, events, n) && events[n] == TimerFires(id)
    ensures var c, d := states[n].ctl, states[n + 1].ctl;
            && id < |c.accepted| && id !in c.ledger.outcome && id in d.ledger.outcome
            && FailsWith(d.ledger.outcome[id], c.accepted[id], COMMAND_TIMEOUT)
            && c.accepted[id].boardSeq in c.timers.armed && c.timers.armed[c.accepted[id].boardSeq] == id
  {
    hide Init, Forfeits, LedgerOk, LinkOk, GateOk, SentOk, FailedOk, Conserved, FireTimer;
    CleanRunsAreSteady(states, events, n);
    AtStep(states, events, n);
    var c := states[n].ctl;
    TimersFindTheirEntry(c, id);
    PendingEntryOk(c, c.timers.asleep[id].boardSeq);
    TimeoutAnswers(c, id);
  }
}
