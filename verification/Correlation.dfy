/** Which answer reaches which command, over runs: responses answer the command
    whose board seq they echo, leftovers answer nobody, the unmatched ones are
    told apart by the window of recent resolutions. */
module Correlation {
  import opened Basics
  import opened Protocol
  import RC = ResolvedCache
  import opened Controller
  import opened Accounts
  import opened Conservation
  import opened Steps
  import opened Resolvers
  import opened System
  import opened Loss
  import opened Distinct
  import opened Safety
  import opened Service

  // ----------------------------------------------------------- once and for all

  lemma FinalAfter(s: Sys, e: Event, t: Sys)
    requires Sound(s.ctl) && Step(s, e, t)
    ensures Final(s.ctl, t.ctl)
  {
    hide Sound, Final, Conserved, NoneReturns, Forfeits;
    StepPreserves(s, e);
  }

  lemma AnswersHold(c: Ctl, id: Id)
    requires Sound(c) && id in c.ledger.outcome
    ensures id < |c.accepted| && Answers(c.ledger.outcome[id], c.accepted[id])
  {
    hide Tables, LogMatches;
  }

  /** In every run, over any boards: a command is answered at most once, the
      answer never changes, it carries the client seq and the target of that very
      command, and its status and code are coupled. */
  lemma {:induction false} AnswersAreFinal(states: seq<Sys>, events: seq<Event>, i: nat, n: nat, id: Id)
    requires Run(states, events) && i <= n <= |events| && id in states[i].ctl.ledger.outcome
    ensures id in states[n].ctl.ledger.outcome && states[n].ctl.ledger.outcome[id] == states[i].ctl.ledger.outcome[id]
    ensures id < |states[n].ctl.accepted| && Answers(states[n].ctl.ledger.outcome[id], states[n].ctl.accepted[id])
    decreases n - i
  {
    hide Init, Step, Answers, Sound, Conserved, Forfeits;
    NothingLostIffClean(states, events, i);
    AnswersHold(states[i].ctl, id);
    if i < n {
      AtStep(states, events, i);
      FinalAfter(states[i], events[i], states[i + 1]);
      AnswersAreFinal(states, events, i + 1, n, id);
    }
  }

  /** In every run the log of resolutions names each answered command exactly
      once, with the status it was answered with. */
  lemma ResolvedOnce(states: seq<Sys>, events: seq<Event>, n: nat)
    requires Run(states, events) && n <= |events|
    ensures var l := states[n].ctl.ledger;
            && (forall i, j :: 0 <= i < j < |l.log| ==> l.log[i].id != l.log[j].id)
            && (forall id :: id in l.outcome <==> Logged(l.log, id))
            && (forall i :: 0 <= i < |l.log| ==>
               l.log[i].id in l.outcome && l.log[i].status == l.outcome[l.log[i].id].status)
  {
    hide Init, StepAt, Tables;
    NothingLostIffClean(states, events, n);
    var c := states[n].ctl;
    forall i | 0 <= i < |c.ledger.log| ensures LogEntryOk(c.ledger.log[i], c.ledger.outcome, c.accepted) {}
  }

  // ------------------------------------------------------------- the response

  /** Answered as stale by a dispatch of board `b`. */
  predicate AnsweredStale(c: Ctl, d: Ctl, b: BoardId, id: Id) {
    && InFifo(c, id) && c.accepted[id].board == b
    && c.now - c.accepted[id].enqueuedAt > c.accepted[id].residencyCap
    && id in d.ledger.outcome && FailsWith(d.ledger.outcome[id], c.accepted[id], COMMAND_TIMEOUT)
  }

  /** A dispatch answers nobody but the stale commands of its own queue. */
  lemma DispatchAnswers(c: Ctl, b: BoardId)
    requires Sound(c) && b in c.boards
    ensures forall id :: id in DispatchNext(c, b).ledger.outcome && id !in c.ledger.outcome ==>
              AnsweredStale(c, DispatchNext(c, b), b, id)
  {
    hide LedgerOk;
    if MayDispatch(c, b) {
      var d := DispatchNext(c, b);
      StaleAnswers(c, b);
      assert d.ledger == DropStale(c, b).ledger;
    }
  }

  lemma StaleAnswers(c: Ctl, b: BoardId)
    requires Sound(c) && b in c.boards
    ensures forall id :: id in DropStale(c, b).ledger.outcome && id !in c.ledger.outcome ==>
              AnsweredStale(c, DropStale(c, b), b, id)
  {
    hide LedgerOk, IsAccepted, FailsWith, ResolveAll;
    var q := c.boards[b].fifo;
    var n := StalePrefix(q, c.now);
    var es := q[..n];
    PrefixMembers(c, b, n);
    TableEntriesAccepted(c, es);
    ResolveAllKeeps(c.ledger, c.accepted, es, COMMAND_TIMEOUT);
    forall id | id in DropStale(c, b).ledger.outcome && id !in c.ledger.outcome
      ensures AnsweredStale(c, DropStale(c, b), b, id)
    {
      assert Mentions(es, id);
      var j :| 0 <= j < |es| && es[j].id == id;
      assert es[j] == q[j] && es[j] in es;
    }
  }

  /** A response to a pending board seq answers exactly the command accepted under
      that seq, with its own status and code, and on ok with the echoed seq and the
      milliseconds since the write of that command began; whoever else is answered in the same step was
      queued on the same board and past its residency cap. */
  ghost predicate Correlates(c: Ctl, d: Ctl, r: BoardReply)
    requires r.boardSeq in c.pending.m
  {
    var e := c.pending.m[r.boardSeq];
    && InPending(c, e.id) && c.accepted[e.id].boardSeq == r.boardSeq && c.accepted[e.id].board == e.board
    && e.id !in c.ledger.outcome && e.id in d.ledger.outcome
    && e.writtenAt.Some?
    && Relays(d.ledger.outcome[e.id], c.accepted[e.id], r, (c.now - e.writtenAt.value) * 1000.0)
    && forall id :: id in d.ledger.outcome && id !in c.ledger.outcome && id != e.id ==> AnsweredStale(c, d, e.board, id)
  }

  lemma MatchedCorrelates(c: Ctl, r: BoardReply)
    requires Sound(c) && r.boardSeq in c.pending.m
    ensures var e := c.pending.m[r.boardSeq];
            && InPending(c, e.id) && c.accepted[e.id].boardSeq == r.boardSeq && c.accepted[e.id].board == e.board
            && c.accepted[e.id].(writtenAt := e.writtenAt) == e && e.id !in c.ledger.outcome
            && e.id in Matched(c, r).ledger.outcome && e.writtenAt.Some?
            && (Coupled(r.status, r.code) ==>
                  Relays(Matched(c, r).ledger.outcome[e.id], c.accepted[e.id], r, (c.now - e.writtenAt.value) * 1000.0))
            && (forall id :: id in Matched(c, r).ledger.outcome && id != e.id ==> id in c.ledger.outcome)
            && Matched(c, r).accepted == c.accepted && Matched(c, r).now == c.now
            && forall id :: InFifo(Matched(c, r), id) ==> InFifo(c, id)
  {
    hide LedgerOk, TakeOut;
    var e := c.pending.m[r.boardSeq];
    assert WrittenOk(c, e);
    MatchedShape(c, r);
    forall id ensures InFifo(Matched(c, r), id) ==> InFifo(c, id) { SameQueues(c, Matched(c, r), id); }
  }

  lemma MatchedShape(c: Ctl, r: BoardReply)
    requires Valid(c) && r.boardSeq in c.pending.m
    ensures var e, m := c.pending.m[r.boardSeq], Matched(c, r);
            && m.accepted == c.accepted && m.now == c.now && m.boards.Keys == c.boards.Keys
            && (forall x :: x in c.boards ==> m.boards[x].fifo == c.boards[x].fifo)
            && m.ledger == Settle(c.ledger, e, RelayedReply(e, r, c.now))
  {
    hide TakeOut, Settle, RelayedReply;
    TakeOutFrame(c, r.boardSeq);
  }

  lemma ResponseCorrelates(c: Ctl, r: BoardReply)
    requires Sound(c) && Coupled(r.status, r.code) && r.boardSeq in c.pending.m && !r.overflows
    ensures Correlates(c, HandleResponse(c, r), r)
  {
    hide LedgerOk, Tables, Matched, DispatchNext, RelayedReply, Relays, FailsWith, KeepsAll, LosesOnly, NoneReturns,
         InFifo;
    SoundIsValid(c);
    var e, m := c.pending.m[r.boardSeq], Matched(c, r);
    MatchedSettles(c, r);
    MatchedCorrelates(c, r);
    DispatchAnswers(m, e.board);
    DispatchKeeps(m, e.board);
  }

  /** A response that raises answers nobody, and its command has no place left. */
  ghost predicate Vanishes(c: Ctl, d: Ctl, r: BoardReply)
    requires r.boardSeq in c.pending.m
  {
    var id := c.pending.m[r.boardSeq].id;
    d.ledger == c.ledger && d.accepted == c.accepted && id < |d.accepted| && !Placed(d, id)
  }

  lemma RaisedVanishes(c: Ctl, r: BoardReply)
    requires Sound(c) && r.boardSeq in c.pending.m && r.overflows
    ensures Vanishes(c, HandleResponse(c, r), r)
  {
    hide LedgerOk, Tables, TakeOut, Conserved, NoneReturns, Final;
    TakeOutLoses(c, r.boardSeq);
    SoundIsValid(c);
    TakeOutFrame(c, r.boardSeq);
  }

  lemma ResponsesCorrelate(states: seq<Sys>, events: seq<Event>, n: nat, b: BoardId, r: BoardReply)
    requires Run(states, events) && n < |events| && events[n] == ResponseArrives(b, r)
    requires r.boardSeq in states[n].ctl.pending.m
    ensures if r.overflows then Vanishes(states[n].ctl, states[n + 1].ctl, r)
            else Correlates(states[n].ctl, states[n + 1].ctl, r)
  {
    hide Sound, Init, Correlates, Vanishes, HandleResponse, Valid;
    NothingLostIffClean(states, events, n);
    AtStep(states, events, n);
    if r.overflows { RaisedVanishes(states[n].ctl, r); } else { ResponseCorrelates(states[n].ctl, r); }
  }

  lemma NoneReturnsAfter(s: Sys, e: Event, t: Sys)
    requires Sound(s.ctl) && Step(s, e, t)
    ensures NoneReturns(s.ctl, t.ctl)
  {
    hide Sound, Final, Conserved, NoneReturns, Forfeits;
    StepPreserves(s, e);
  }

  /** A command with no place left is never answered. */
  lemma {:induction false} VanishedForGood(states: seq<Sys>, events: seq<Event>, i: nat, n: nat, id: Id)
    requires Run(states, events) && i <= n <= |events|
    requires id < |states[i].ctl.accepted| && !Placed(states[i].ctl, id)
    ensures id < |states[n].ctl.accepted| && !Placed(states[n].ctl, id) && id !in states[n].ctl.ledger.outcome
    decreases n - i
  {
    hide Init, Step, Sound, Conserved, Forfeits;
    if i < n {
      NothingLostIffClean(states, events, i);
      AtStep(states, events, i);
      NoneReturnsAfter(states[i], events[i], states[i + 1]);
      VanishedForGood(states, events, i + 1, n, id);
    }
  }

  /** Responses are not matched on the board they come from. In a run in which
      nothing was lost, a matched response from board `b` answers a command of `b`
      if and only if its seq is the one in flight there. */
  lemma AnswersItsOwnBoardIff(states: seq<Sys>, events: seq<Event>, n: nat, b: BoardId, r: BoardReply)
    requires Run(states, events) && n < |events| && events[n] == ResponseArrives(b, r) && Clean(states, events, n)
    requires r.boardSeq in states[n].ctl.pending.m
    ensures b in states[n].ctl.boards
    ensures states[n].ctl.pending.m[r.boardSeq].board == b <==> states[n].ctl.boards[b].inFlight == Some(r.boardSeq)
  {
    hide Init, Sound, LinkOk, GateOk, SentOk, FailedOk, Conserved, HandleResponse, Forfeits;
    CleanRunsAreSteady(states, events, n);
    AtStep(states, events, n);
  }

  // ------------------------------------------------------------ the leftovers

  /** Tables, slots, timers and answers stand still; of the counters only the
      three for unmatched responses move. */
  ghost predicate OnlyCounted(c: Ctl, d: Ctl) {
    && d == c.(ledger := d.ledger)
    && d.ledger == c.ledger.(counters := d.ledger.counters)
    && d.ledger.counters == c.ledger.counters.(
         unmatched := c.ledger.counters.unmatched + 1, late := d.ledger.counters.late,
           duplicate := d.ledger.counters.duplicate)
  }

  /** Another command than `id` is pending under this seq. */
  ghost predicate Shared(c: Ctl, id: Id, k: nat) {
    exists other: Id :: other != id && InPending(c, other) && c.accepted[other].boardSeq == k
  }

  lemma SharedIffPending(c: Ctl, id: Id, k: nat)
    requires Tables(c) && Done(c, id)
    ensures Shared(c, id, k) <==> k in c.pending.m
  {
    if k in c.pending.m {
      PendingEntryOk(c, k);
      assert InPending(c, c.pending.m[k].id);
    }
  }

  /** A response to a command already answered answers somebody if and only if
      another command is pending under the same board seq and it does not raise;
      it moves more than the counters if and only if another is pending there. */
  lemma LeftoverAnswersIff(c: Ctl, r: BoardReply, id: Id)
    requires Sound(c) && Coupled(r.status, r.code)
    requires id in c.ledger.outcome && c.accepted[id].boardSeq == r.boardSeq
    ensures HandleResponse(c, r).ledger.outcome != c.ledger.outcome <==> Shared(c, id, r.boardSeq) && !r.overflows
    ensures OnlyCounted(c, HandleResponse(c, r)) <==> !Shared(c, id, r.boardSeq)
  {
    hide LedgerOk, Matched, DispatchNext, TakeOut, InPending;
    SharedIffPending(c, id, r.boardSeq);
    if r.boardSeq in c.pending.m {
      if r.overflows { TakeOutFrame(c, r.boardSeq); } else { ResponseCorrelates(c, r); }
    }
  }

  /** The same over runs, whatever the boards: a response left over from an earlier
      write, connection or timeout moves nothing but the counters if and only if no
      live command is pending under its seq. */
  lemma LeftoversAnswerNobody(states: seq<Sys>, events: seq<Event>, n: nat, b: BoardId, r: BoardReply, id: Id)
    requires Run(states, events) && n < |events| && events[n] == ResponseArrives(b, r)
    requires id in states[n].ctl.ledger.outcome && id < |states[n].ctl.accepted|
    requires states[n].ctl.accepted[id].boardSeq == r.boardSeq
    ensures OnlyCounted(states[n].ctl, states[n + 1].ctl) <==> !Shared(states[n].ctl, id, r.boardSeq)
  {
    hide Sound, Init, HandleResponse, Valid, OnlyCounted, Shared;
    NothingLostIffClean(states, events, n);
    AtStep(states, events, n);
    LeftoverAnswersIff(states[n].ctl, r, id);
  }

  lemma DistinctPair(acc: seq<Entry>, i: nat, j: nat)
    requires DistinctSeqs(acc) && i < |acc| && j < |acc| && i != j
    ensures acc[i].boardSeq != acc[j].boardSeq
  {
  }

  lemma NotShared(c: Ctl, id: Id)
    requires DistinctSeqs(c.accepted) && id < |c.accepted|
    ensures !Shared(c, id, c.accepted[id].boardSeq)
  {
    forall other: Id | other != id && InPending(c, other)
      ensures c.accepted[other].boardSeq != c.accepted[id].boardSeq {
      DistinctPair(c.accepted, other, id);
    }
  }

  /** One expected board: a leftover never resolves a later command. */
  lemma OneBoardLeftovers(states: seq<Sys>, events: seq<Event>, n: nat, b: BoardId, r: BoardReply, id: Id)
    requires Run(states, events) && n < |events| && events[n] == ResponseArrives(b, r)
    requires |states[0].ctl.cfg.boards| == 1
    requires id in states[n].ctl.ledger.outcome && id < |states[n].ctl.accepted|
    requires states[n].ctl.accepted[id].boardSeq == r.boardSeq
    ensures OnlyCounted(states[n].ctl, states[n + 1].ctl)
  {
    hide Sound, Init, StepAt, OnlyCounted, Conserved, Forfeits, Shared;
    NothingLostIffClean(states, events, n);
    RunConfig(states, events, n);
    OneBoardDistinct(states[n].ctl);
    NotShared(states[n].ctl, id);
    LeftoversAnswerNobody(states, events, n, b, r, id);
  }

  // ------------------------------------------------------- late or duplicate

  /** The last resolution of this seq has such a status, and the cache still has it. */
  ghost predicate Remembered(log: seq<RC.Resolution>, k: nat, timedOut: bool) {
    exists p: nat :: RC.LastAt(log, k, p) && !RC.Evicted(log, k, p) && (log[p].status == TIMEOUT <==> timedOut)
  }

  lemma LastIsOne(log: seq<RC.Resolution>, k: nat, p: nat, q: nat)
    requires RC.LastAt(log, k, p) && RC.LastAt(log, k, q)
    ensures p == q
  {
  }

  lemma CacheTells(log: seq<RC.Resolution>, k: nat, timedOut: bool)
    ensures var seen := RC.Replay(log).statuses;
            Remembered(log, k, timedOut) <==> k in seen && (seen[k] == TIMEOUT <==> timedOut)
  {
    if RC.Recurs(k, log) {
      var p := RC.LastExists(log, k);
      RC.ReplayLookup(log, k, p);
      forall q: nat | RC.LastAt(log, k, q) ensures q == p { LastIsOne(log, k, p, q); }
    } else {
      RC.NeverResolved(log, k);
    }
  }

  lemma CacheReplays(c: Ctl)
    requires Sound(c)
    ensures c.ledger.cache == RC.Replay(c.ledger.log)
  {
  }

  /** In every run: an unmatched response counts as late exactly if the last
      resolution of its seq timed it out, as a duplicate exactly if that answered it
      otherwise, and as neither if the seq was never resolved or has since been
      evicted from the window of 4096. */
  lemma UnmatchedAreToldApart(states: seq<Sys>, events: seq<Event>, n: nat, b: BoardId, r: BoardReply)
    requires Run(states, events) && n < |events| && events[n] == ResponseArrives(b, r)
    requires r.boardSeq !in states[n].ctl.pending.m
    ensures var l := states[n].ctl.ledger;
            var before, after := l.counters, states[n + 1].ctl.ledger.counters;
            && OnlyCounted(states[n].ctl, states[n + 1].ctl)
            && after.late == before.late + (if Remembered(l.log, r.boardSeq, true) then 1 else 0)
            && after.duplicate == before.duplicate + (if Remembered(l.log, r.boardSeq, false) then 1 else 0)
            && !(Remembered(l.log, r.boardSeq, true) && Remembered(l.log, r.boardSeq, false))
  {
    hide Sound, Init, Remembered, RC.Replay;
    NothingLostIffClean(states, events, n);
    AtStep(states, events, n);
    CacheReplays(states[n].ctl);
    CacheTells(states[n].ctl.ledger.log, r.boardSeq, true);
    CacheTells(states[n].ctl.ledger.log, r.boardSeq, false);
  }
}
