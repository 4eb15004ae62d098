/** What a dispatch does, in plain arithmetic, and which events dispatch which board:
    who is answered as stale, what is written, and in which circumstances. */
module Dispatching {
  import opened Basics
  import opened Protocol
  import opened Controller
  import opened Accounts
  import opened Conservation
  import opened Steps
  import opened Resolvers
  import opened System
  import opened Loss
  import opened Distinct
  import opened Safety
  import opened SafetyRuns
  import opened Correlation
  import opened Outcomes
  import opened Delivery

  /** Up, in normal operation, and with nothing in flight. */
  predicate Free(c: Ctl, b: BoardId)
    requires b in c.boards
  {
    !c.closing && c.boards[b].conn == REGISTERED && c.boards[b].writer && c.boards[b].inFlight.None?
  }

  /** The first `n` of the queue are past their residency cap, and the next, if there
      is one, is not. */
  predicate FirstLive(q: seq<Entry>, n: nat, now: real) {
    && n <= |q|
    && (forall j :: 0 <= j < n ==> now - q[j].enqueuedAt > q[j].residencyCap)
    && (n < |q| ==> now - q[n].enqueuedAt <= q[n].residencyCap)
  }

  lemma FirstLiveIsOne(q: seq<Entry>, n: nat, m: nat, now: real)
    requires FirstLive(q, n, now) && FirstLive(q, m, now)
    ensures n == m
  {
  }

  /** The commands of these entries. */
  ghost function Named(es: seq<Entry>): iset<Id> { iset id: Id | Mentions(es, id) }

  /** The write of entry `e` begins: it is pending under its seq and in flight, stamped
      with the time, and told from now on among the writes begun. */
  ghost predicate Sends(c: Ctl, d: Ctl, b: BoardId, e: Entry, rest: seq<Entry>)
    requires b in c.boards
  {
    var w := e.(writtenAt := Some(c.now));
    && d.boards == c.boards[b := c.boards[b].(fifo := rest, inFlight := Some(e.boardSeq))]
    && d.pending.m == c.pending.m[e.boardSeq := w] && d.writing == c.writing[e.id := w]
    && |d.sent| == |c.sent| + 1 && d.sent[..|c.sent|] == c.sent
    && d.sent[|c.sent|] == BoardWrite(e.id, b, e.boardSeq, c.now - e.enqueuedAt, e.residencyCap, c.latched,
                                      e.name in c.boards[b].reg.gates ==> c.boards[b].reg.gates[e.name], c.closing)
  }

  /** The dispatcher but for one board's queue and slot, writes, and the books. */
  ghost predicate Beyond(c: Ctl, d: Ctl) {
    && d.cfg == c.cfg && d.now == c.now && d.latched == c.latched && d.closing == c.closing && d.timers == c.timers
    && d.estopTasks == c.estopTasks && d.accepted == c.accepted && d.stranded == c.stranded
  }

  /** What a dispatch of `b` does. Not idle, it does nothing. Idle, it answers the
      commands at the head of the queue that are past their cap, and those only, and
      writes the first that is not. */
  ghost predicate Dispatches(c: Ctl, d: Ctl, b: BoardId, n: nat)
    requires b in c.boards && n <= |c.boards[b].fifo|
  {
    var q := c.boards[b].fifo;
    && Beyond(c, d)
    && AnswersExactly(c, d, Named(q[..n]), COMMAND_TIMEOUT)
    && d.ledger.counters.stale == c.ledger.counters.stale + n
    && if n < |q| then Sends(c, d, b, q[n], q[n + 1..])
       else d.boards == c.boards[b := c.boards[b].(fifo := [])] && d.pending == c.pending
            && d.writing == c.writing && d.sent == c.sent
  }

  lemma {:induction false} ResolveAllCounters(l: Ledger, es: seq<Entry>, code: ErrorCode)
    ensures var t := ResolveAll(l, es, code);
            && t.taken == l.taken
            && t.counters == l.counters.(ok := t.counters.ok, error := t.counters.error, timeout := t.counters.timeout,
                                         commandTimeouts := t.counters.commandTimeouts)
    decreases |es|
  {
    if es != [] { ResolveAllCounters(ResolveError(l, es[0], code), es[1..], code); }
  }

  lemma DropAnswers(c: Ctl, b: BoardId)
    requires Sound(c) && b in c.boards
    ensures var q, d := c.boards[b].fifo, DropStale(c, b);
            var n := StalePrefix(q, c.now);
            && AnswersExactly(c, d, Named(q[..n]), COMMAND_TIMEOUT)
            && d.ledger.counters.stale == c.ledger.counters.stale + n
            && d == c.(boards := c.boards[b := c.boards[b].(fifo := q[n..])], ledger := d.ledger)
  {
    hide LedgerOk, StalePrefix, FailsWith, IsAccepted, ResolveAll;
    var q := c.boards[b].fifo;
    var n := StalePrefix(q, c.now);
    var es := q[..n];
    PrefixMembers(c, b, n);
    TableEntriesAccepted(c, es);
    ResolveAllKeeps(c.ledger, c.accepted, es, COMMAND_TIMEOUT);
    ResolveAllCounters(c.ledger, es, COMMAND_TIMEOUT);
    forall id: Id ensures Mentions(es, id) <==> id in Named(es) {}
    forall id: Id | id in Named(es) ensures id !in c.ledger.outcome && id < |c.accepted| {
      var j :| 0 <= j < |es| && es[j].id == id;
      assert es[j] in es;
      OnePlace(c, id);
    }
  }

  lemma WriteSends(c: Ctl, b: BoardId)
    requires c.pending.Valid() && b in c.boards && c.boards[b].fifo != []
    ensures var d, q := StartWrite(c, b), c.boards[b].fifo;
            Sends(c, d, b, q[0], q[1..]) && Beyond(c, d) && d.ledger == c.ledger
  {
  }

  /** The whole of a dispatch, in any sound state. */
  lemma DispatchExactly(c: Ctl, b: BoardId, n: nat)
    requires Sound(c) && b in c.boards && FirstLive(c.boards[b].fifo, n, c.now)
    ensures if Free(c, b) then Dispatches(c, DispatchNext(c, b), b, n) else DispatchNext(c, b) == c
  {
    hide LedgerOk, AnswersExactly, StalePrefix, DropStale, StartWrite, FirstLive, Sends;
    var q := c.boards[b].fifo;
    FirstLiveIsOne(q, n, StalePrefix(q, c.now), c.now) by { PrefixIsStale(q, c.now); }
    DropAnswers(c, b);
    if MayDispatch(c, b) && n < |q| {
      var m := DropStale(c, b);
      WriteSends(m, b);
      SendsAfter(c, m, StartWrite(m, b), b, n);
      AnswersAfter(c, m, StartWrite(m, b), Named(q[..n]));
    }
  }

  lemma PrefixIsStale(q: seq<Entry>, now: real)
    ensures FirstLive(q, StalePrefix(q, now), now)
  {
  }

  lemma SendsAfter(c: Ctl, m: Ctl, d: Ctl, b: BoardId, n: nat)
    requires b in c.boards && n < |c.boards[b].fifo|
    requires m == c.(boards := c.boards[b := c.boards[b].(fifo := c.boards[b].fifo[n..])], ledger := m.ledger)
    requires Sends(m, d, b, m.boards[b].fifo[0], m.boards[b].fifo[1..])
    ensures Sends(c, d, b, c.boards[b].fifo[n], c.boards[b].fifo[n + 1..])
  {
  }

  lemma AnswersAfter(c: Ctl, m: Ctl, d: Ctl, who: iset<Id>)
    requires AnswersExactly(c, m, who, COMMAND_TIMEOUT) && d.ledger == m.ledger
    ensures AnswersExactly(c, d, who, COMMAND_TIMEOUT)
  {
  }

  // ------------------------------------------------- which events dispatch whom

  /** The board `b` was offered the queue `q`, of which the first `j` are past their
      cap. If it may take it, those are answered COMMAND_TIMEOUT and the next is
      written; if not, the queue stays. Nobody else is answered but `settled`. */
  ghost predicate ServesFrom(c: Ctl, d: Ctl, b: BoardId, q: seq<Entry>, j: nat, may: bool, settled: iset<Id>)
    requires j <= |q|
  {
    && b in d.boards
    && d.boards[b].fifo == (if !may then q else if j < |q| then q[j + 1..] else [])
    && (forall id: Id :: id in d.ledger.outcome && id !in c.ledger.outcome
          <==> id in settled || (may && id in Named(q[..j])))
    && d.ledger.counters.stale == c.ledger.counters.stale + (if may then j else 0)
    && (may ==> forall i :: 0 <= i < j ==>
          q[i].id in d.ledger.outcome && FailsWith(d.ledger.outcome[q[i].id], q[i], COMMAND_TIMEOUT))
    && (if may && j < |q| then
          && |d.sent| == |c.sent| + 1 && d.sent[..|c.sent|] == c.sent
          && d.sent[|c.sent|].id == q[j].id && d.sent[|c.sent|].boardSeq == q[j].boardSeq
          && d.boards[b].inFlight == Some(q[j].boardSeq)
          && q[j].boardSeq in d.pending.m && d.pending.m[q[j].boardSeq] == q[j].(writtenAt := Some(c.now))
          && q[j].id in d.writing && d.writing[q[j].id] == q[j].(writtenAt := Some(c.now))
        else d.sent == c.sent)
  }

  /** Registered, with a writer, in normal operation, and with nothing in flight but
      perhaps what is pending under `k`. */
  predicate MayTake(c: Ctl, b: BoardId, k: Option<nat>)
    requires b in c.boards
  {
    !c.closing && c.boards[b].conn == REGISTERED && c.boards[b].writer && c.boards[b].inFlight in {None, k}
  }

  /** `m` is `c` up to the dispatch of `b`. */
  ghost predicate Offers(c: Ctl, m: Ctl, b: BoardId, q: seq<Entry>, may: bool, settled: iset<Id>) {
    && b in m.boards && m.boards[b].fifo == q && m.sent == c.sent && m.now == c.now
    && m.ledger.counters.stale == c.ledger.counters.stale
    && (Free(m, b) <==> may)
    && (forall id: Id :: id in m.ledger.outcome && id !in c.ledger.outcome <==> id in settled)
    && (forall id: Id :: id in c.ledger.outcome ==> id in m.ledger.outcome)
  }

  lemma OfferedIsServed(c: Ctl, m: Ctl, b: BoardId, q: seq<Entry>, j: nat, may: bool, settled: iset<Id>)
    requires Sound(m) && Offers(c, m, b, q, may, settled) && j <= |q| && FirstLive(q, j, c.now)
    ensures ServesFrom(c, DispatchNext(m, b), b, q, j, may, settled)
  {
    hide LedgerOk, Tables, FailsWith, DispatchNext, FirstLive;
    DispatchExactly(m, b, j);
    QueuedAreNamed(m, b, j);
  }

  lemma QueuedAreNamed(m: Ctl, b: BoardId, j: nat)
    requires Sound(m) && b in m.boards && j <= |m.boards[b].fifo|
    ensures var q := m.boards[b].fifo;
            && (forall i :: 0 <= i < j ==>
                  q[i].id in Named(q[..j]) && q[i].id < |m.accepted| && q[i] == m.accepted[q[i].id])
            && forall id: Id :: id in Named(q[..j]) ==> id !in m.ledger.outcome
  {
    hide LedgerOk;
    var q := m.boards[b].fifo;
    forall i | 0 <= i < j ensures q[i].id in Named(q[..j]) { assert q[..j][i] == q[i]; }
  }

  /** Exactly the slot that holds the seq of the entry taken out is freed. */
  lemma TakeOutSlot(c: Ctl, k: nat)
    requires Valid(c) && k in c.pending.m
    ensures var b, d := c.pending.m[k].board, TakeOut(c, k);
            && b in c.boards && d.boards.Keys == c.boards.Keys
            && d.boards[b] == c.boards[b].(inFlight := if c.boards[b].inFlight == Some(k) then None
                                                       else c.boards[b].inFlight)
  {
  }

  lemma TimedOutSlot(c: Ctl, id: Id)
    requires Valid(c) && id in c.timers.asleep && c.timers.asleep[id].boardSeq in c.pending.m
    ensures var k := c.timers.asleep[id].boardSeq;
            var b, d := c.pending.m[k].board, TimedOut(c, id);
            && b in c.boards && d.boards.Keys == c.boards.Keys
            && d.boards[b] == c.boards[b].(inFlight := if c.boards[b].inFlight == Some(k) then None
                                                       else c.boards[b].inFlight)
  {
    hide ResolveError;
  }

  lemma MatchedOffers(c: Ctl, r: BoardReply)
    requires Sound(c) && Valid(c) && r.boardSeq in c.pending.m && Coupled(r.status, r.code)
    ensures var k, b := r.boardSeq, c.pending.m[r.boardSeq].board;
            && b in c.boards
            && Offers(c, Matched(c, r), b, c.boards[b].fifo, MayTake(c, b, Some(k)), iset{c.pending.m[k].id})
  {
    hide LedgerOk, Tables, TakeOut, RelayedReply, Relays;
    TakeOutFrame(c, r.boardSeq);
    TakeOutSlot(c, r.boardSeq);
    MatchedCorrelates(c, r);
  }

  lemma TimedOutOffers(c: Ctl, id: Id)
    requires Sound(c) && Valid(c) && id in c.timers.asleep && c.timers.asleep[id].boardSeq in c.pending.m
    ensures var k := c.timers.asleep[id].boardSeq;
            var b := c.pending.m[k].board;
            && b in c.boards
            && Offers(c, TimedOut(c, id), b, c.boards[b].fifo, MayTake(c, b, Some(k)), iset{c.pending.m[k].id})
  {
    hide LedgerOk, Tables, TimedOut, FailsWith;
    TimeoutFrame(c, id);
    TimedOutSlot(c, id);
    TimedOutBooks(c, id);
  }

  lemma EnqueueOffers(c: Ctl, command: Command)
    requires Accepts(c, command)
    ensures var m, b := Enqueue(c, command), command.target;
            && b in c.boards && |m.accepted| == |c.accepted| + 1
            && Offers(c, m, b, c.boards[b].fifo + [m.accepted[|c.accepted|]], MayTake(c, b, None), iset{})
  {
  }

  // ----------------------------------------------------------------- theorems

  lemma ResponseDispatches(c: Ctl, r: BoardReply, j: nat)
    requires Sound(c) && Valid(c) && Coupled(r.status, r.code) && r.boardSeq in c.pending.m && !r.overflows
    requires var b := c.pending.m[r.boardSeq].board;
             b in c.boards && j <= |c.boards[b].fifo| && FirstLive(c.boards[b].fifo, j, c.now)
    ensures var k, b := r.boardSeq, c.pending.m[r.boardSeq].board;
            ServesFrom(c, HandleResponse(c, r), b, c.boards[b].fifo, j, MayTake(c, b, Some(k)), iset{c.pending.m[k].id})
  {
    hide LedgerOk, Tables, Matched, DispatchNext, FirstLive, ServesFrom, Offers, KeepsAll;
    var k, b := r.boardSeq, c.pending.m[r.boardSeq].board;
    MatchedSettles(c, r);
    MatchedOffers(c, r);
    OfferedIsServed(c, Matched(c, r), b, c.boards[b].fifo, j, MayTake(c, b, Some(k)), iset{c.pending.m[k].id});
  }

  lemma TimerDispatches(c: Ctl, id: Id, j: nat)
    requires Sound(c) && Valid(c) && id in c.timers.asleep && c.timers.asleep[id].boardSeq in c.pending.m
    requires var b := c.pending.m[c.timers.asleep[id].boardSeq].board;
             b in c.boards && j <= |c.boards[b].fifo| && FirstLive(c.boards[b].fifo, j, c.now)
    ensures var k := c.timers.asleep[id].boardSeq;
            var b := c.pending.m[k].board;
            ServesFrom(c, FireTimer(c, id), b, c.boards[b].fifo, j, MayTake(c, b, Some(k)), iset{c.pending.m[k].id})
  {
    hide LedgerOk, Tables, TimedOut, DispatchNext, FirstLive, ServesFrom, Offers, KeepsAll;
    var k := c.timers.asleep[id].boardSeq;
    var b := c.pending.m[k].board;
    TimedOutSettles(c, id);
    TimedOutOffers(c, id);
    OfferedIsServed(c, TimedOut(c, id), b, c.boards[b].fifo, j, MayTake(c, b, Some(k)), iset{c.pending.m[k].id});
  }

  /** The queue of the target with the routed command behind it. */
  function Joined(c: Ctl, d: Ctl, b: BoardId): seq<Entry>
    requires b in c.boards && |c.accepted| < |d.accepted|
  {
    c.boards[b].fifo + [d.accepted[|c.accepted|]]
  }

  lemma RouteDispatches(c: Ctl, command: Command, local: Reply, j: nat)
    requires Sound(c) && Valid(c) && Accepts(c, command)
    requires var m := Enqueue(c, command);
             && |m.accepted| == |c.accepted| + 1 && command.target in c.boards
             && j <= |Joined(c, m, command.target)| && FirstLive(Joined(c, m, command.target), j, c.now)
    ensures var d := Route(c, command, local).0;
            && d.accepted == Enqueue(c, command).accepted
            && ServesFrom(c, d, command.target, Joined(c, Enqueue(c, command), command.target), j,
                      MayTake(c, command.target, None), iset{})
  {
    hide LedgerOk, Tables, Enqueue, DispatchNext, FirstLive, ServesFrom, Offers, Route, LosesOnly, Accepts;
    var m, b := Enqueue(c, command), command.target;
    AcceptedKeeps(c, command);
    EnqueueOffers(c, command);
    AcceptedRoute(c, command, local);
    SoundIsValid(m);
    DispatchAccepted(m, b);
    OfferedIsServed(c, m, b, Joined(c, m, b), j, MayTake(c, b, None), iset{});
  }

  lemma AcceptedKeeps(c: Ctl, command: Command)
    requires Sound(c) && Accepts(c, command)
    ensures Sound(Enqueue(c, command))
  {
    hide Enqueue, LedgerOk, Tables, LosesOnly;
    EnqueueKeeps(c, command);
  }

  /** Event `e` takes the entry pending under `k` and settles it. */
  predicate TakesEntry(c: Ctl, e: Event, k: nat) {
    && k in c.pending.m
    && match e
       case ResponseArrives(_, r) => r.boardSeq == k && !r.overflows
       case TimerFires(id) => id in c.timers.asleep && c.timers.asleep[id].boardSeq == k
       case _ => false
  }

  /** In every run: the board whose command a response or a timer settles is offered
      its own queue. */
  lemma SettledBoardIsServed(states: seq<Sys>, events: seq<Event>, n: nat, k: nat, j: nat)
    requires Run(states, events) && n < |events| && TakesEntry(states[n].ctl, events[n], k)
    requires var c := states[n].ctl;
             var b := c.pending.m[k].board;
             b in c.boards && j <= |c.boards[b].fifo| && FirstLive(c.boards[b].fifo, j, c.now)
    ensures var c, d, b := states[n].ctl, states[n + 1].ctl, states[n].ctl.pending.m[k].board;
            ServesFrom(c, d, b, c.boards[b].fifo, j, MayTake(c, b, Some(k)), iset{c.pending.m[k].id})
  {
    hide Init, Sound, LinkOk, GateOk, SentOk, FailedOk, FirstLive, ServesFrom, HandleResponse, FireTimer, Valid;
    RunsAreSafe(states, events, n);
    AtStep(states, events, n);
    var c, e := states[n].ctl, events[n];
    if e.ResponseArrives? { ResponseDispatches(c, e.reply, j); } else { TimerDispatches(c, e.id, j); }
  }

  /** In every run: a command that is taken in joins the queue of its board, which is
      then offered to the board. */
  lemma RoutedCommandIsServed(states: seq<Sys>, events: seq<Event>, n: nat, j: nat)
    requires Run(states, events) && n < |events| && |states[n].ctl.accepted| < |states[n + 1].ctl.accepted|
    requires events[n].RouteCommand? && events[n].command.target in states[n].ctl.boards
    requires var c, d, b := states[n].ctl, states[n + 1].ctl, events[n].command.target;
             j <= |Joined(c, d, b)| && FirstLive(Joined(c, d, b), j, c.now)
    ensures var c, d, b := states[n].ctl, states[n + 1].ctl, events[n].command.target;
            ServesFrom(c, d, b, Joined(c, d, b), j, MayTake(c, b, None), iset{})
  {
    hide Init, Sound, LinkOk, GateOk, SentOk, FailedOk, FirstLive, ServesFrom, Route, Valid, Enqueue, Accepts,
         WritesFrom;
    RunsAreSafe(states, events, n);
    AtStep(states, events, n);
    var c, e := states[n].ctl, events[n];
    StepWrites(states[n], e);
    AcceptsOne(c, CtlNext(states[n], e), e);
    RouteDispatches(c, e.command, e.local, j);
  }
}
