/** Where an accepted command can be, and what every dispatcher step does to it. */
module Conservation {
  import opened Basics
  import opened Protocol
  import opened Controller
  import opened Accounts

  // ----------------------------------------------------------------- places

  predicate Done(s: Ctl, id: Id) { id in s.ledger.outcome }

  predicate InFifo(s: Ctl, id: Id) {
    && id < |s.accepted|
    && s.accepted[id].board in s.boards
    && s.accepted[id] in s.boards[s.accepted[id].board].fifo
  }

  predicate InPending(s: Ctl, id: Id) {
    && id < |s.accepted|
    && s.accepted[id].boardSeq in s.pending.m
    && s.pending.m[s.accepted[id].boardSeq].id == id
  }

  predicate Placed(s: Ctl, id: Id) { Done(s, id) || InFifo(s, id) || InPending(s, id) }

  /** No accepted command has been lost. */
  ghost predicate Conserved(s: Ctl) {
    forall id :: 0 <= id < |s.accepted| ==> Placed(s, id)
  }

  // -------------------------------------------------- unconditional invariant

  ghost predicate AcceptedOk(s: Ctl, id: Id)
    requires id < |s.accepted|
  {
    var e := s.accepted[id];
    && e.id == id && e.writtenAt.None? && e.board in s.boards
    && 1 <= e.boardSeq < s.boards[e.board].nextSeq
    && e.executionTimeout <= MAX_COMMAND_TIMEOUT_S
  }

  ghost predicate QueuedOk(s: Ctl, e: Entry) {
    e.id < |s.accepted| && e == s.accepted[e.id] && !Done(s, e.id)
  }

  ghost predicate QueueOk(s: Ctl, q: seq<Entry>) {
    && (forall j :: 0 <= j < |q| ==> QueuedOk(s, q[j]))
    && (forall i, j :: 0 <= i < j < |q| ==> q[i].id < q[j].id)
  }

  ghost predicate WrittenOk(s: Ctl, e: Entry) {
    IsAccepted(e, s.accepted) && e.writtenAt.Some? && !InFifo(s, e.id)
  }

  ghost predicate SeqsIncrease(acc: seq<Entry>) {
    forall i, j :: 0 <= i < j < |acc| && acc[i].board == acc[j].board ==> acc[i].boardSeq < acc[j].boardSeq
  }

  /** Holds in every reachable state, whatever the boards and their seqs. */
  ghost predicate Tables(s: Ctl) {
    && Valid(s)
    && (forall id :: 0 <= id < |s.accepted| ==> AcceptedOk(s, id))
    && SeqsIncrease(s.accepted)
    && (forall id :: id in s.ledger.outcome ==> id < |s.accepted|)
    && (forall b :: b in s.boards ==> 1 <= s.boards[b].nextSeq <= UINT64_MAX + 1 && QueueOk(s, s.boards[b].fifo))
    && (forall k :: k in s.pending.m ==> WrittenOk(s, s.pending.m[k]) && !Done(s, s.pending.m[k].id))
    && (forall id :: id in s.writing ==> WrittenOk(s, s.writing[id]))
    && (forall id :: id in s.timers.asleep ==>
          id < |s.accepted| && s.timers.asleep[id].boardSeq == s.accepted[id].boardSeq)
  }

  lemma StartHolds(cfg: Config, now: real)
    requires NoDup(cfg.boards)
    ensures Tables(Start(cfg, now)) && Conserved(Start(cfg, now))
  {
  }

  /** A command is in at most one place; in exactly one when none is lost. */
  lemma OnePlace(s: Ctl, id: Id)
    requires Tables(s) && id < |s.accepted|
    ensures !(Done(s, id) && InFifo(s, id))
    ensures !(Done(s, id) && InPending(s, id)) && !(InFifo(s, id) && InPending(s, id))
    ensures Conserved(s) ==> Placed(s, id)
  {
    if InFifo(s, id) {
      var q := s.boards[s.accepted[id].board].fifo;
      var j :| 0 <= j < |q| && q[j] == s.accepted[id];
      assert QueuedOk(s, q[j]) && AcceptedOk(s, id);
    }
    if InPending(s, id) {
      assert WrittenOk(s, s.pending.m[s.accepted[id].boardSeq]);
    }
  }

  // ------------------------------------------- steps that only settle or drop

  predicate IsSuffix(q: seq<Entry>, of: seq<Entry>) {
    |q| <= |of| && forall j :: 0 <= j < |q| ==> q[j] == of[|of| - |q| + j]
  }

  /** `t` has nothing in its tables that `s` did not have, and has settled only
      commands that are no longer in them. */
  ghost predicate Shrinks(s: Ctl, t: Ctl) {
    && Valid(t)
    && t.accepted == s.accepted && t.boards.Keys == s.boards.Keys
    && (forall b :: b in s.boards ==>
          && IsSuffix(t.boards[b].fifo, s.boards[b].fifo)
          && s.boards[b].nextSeq <= t.boards[b].nextSeq <= UINT64_MAX + 1)
    && (forall k :: k in t.pending.m ==> k in s.pending.m && t.pending.m[k] == s.pending.m[k])
    && (forall id :: id in t.writing ==> id in s.writing && t.writing[id] == s.writing[id])
    && (forall id :: id in t.timers.asleep ==> id in s.timers.asleep && t.timers.asleep[id] == s.timers.asleep[id])
    && (forall id :: id in t.ledger.outcome && id !in s.ledger.outcome ==>
       id < |t.accepted| && !InFifo(t, id) && !InPending(t, id))
  }

  /** The same commands are placed in `t` as in `s`: none is lost, none returns. */
  ghost predicate KeepsAll(s: Ctl, t: Ctl) {
    && t.accepted == s.accepted
    && forall id :: 0 <= id < |s.accepted| ==> (Placed(s, id) <==> Placed(t, id))
  }

  /** A command with no place in `s` has none in `t`. */
  ghost predicate NoneReturns(s: Ctl, t: Ctl) {
    && s.accepted <= t.accepted
    && forall id :: 0 <= id < |s.accepted| && Placed(t, id) ==> Placed(s, id)
  }

  /** From `s` to `t` exactly the command `lost` loses its place, or none does; every
      command taken in meanwhile has one. */
  ghost predicate LosesOnly(s: Ctl, t: Ctl, lost: Option<Id>) {
    && s.accepted <= t.accepted
    && (lost.Some? ==> lost.value < |s.accepted| && Placed(s, lost.value))
    && (forall id: Id :: id < |s.accepted| ==> (Placed(t, id) <==> Placed(s, id) && lost != Some(id)))
    && (forall id: Id :: |s.accepted| <= id < |t.accepted| ==> Placed(t, id))
  }

  lemma LosesOnlyMeans(s: Ctl, t: Ctl, lost: Option<Id>)
    requires LosesOnly(s, t, lost)
    ensures NoneReturns(s, t)
    ensures Conserved(t) <==> Conserved(s) && lost.None?
  {
    hide Placed;
    if Conserved(t) {
      forall id: Id | id < |s.accepted| ensures Placed(s, id) && lost != Some(id) { assert Placed(t, id); }
    }
    if Conserved(s) && lost.None? {
      forall id: Id | id < |t.accepted| ensures Placed(t, id) { if id < |s.accepted| { assert Placed(s, id); } }
    }
  }

  lemma KeptLosesNone(s: Ctl, t: Ctl)
    requires KeepsAll(s, t)
    ensures LosesOnly(s, t, None)
  {
  }

  /** First nothing of `s` is lost, then at most one command that `s` had. */
  lemma LosesOnlyChain(s: Ctl, t: Ctl, u: Ctl, lost: Option<Id>)
    requires LosesOnly(s, t, None) && LosesOnly(t, u, lost) && (lost.Some? ==> lost.value < |s.accepted|)
    ensures LosesOnly(s, u, lost)
  {
    hide Placed;
  }

  lemma SuffixIn(s: Ctl, t: Ctl, id: Id)
    requires t.accepted == s.accepted && t.boards.Keys == s.boards.Keys
    requires forall b :: b in s.boards ==> IsSuffix(t.boards[b].fifo, s.boards[b].fifo)
    ensures InFifo(t, id) ==> InFifo(s, id)
  {
    if InFifo(t, id) {
      var b := s.accepted[id].board;
      var q, q' := s.boards[b].fifo, t.boards[b].fifo;
      var j :| 0 <= j < |q'| && q'[j] == s.accepted[id];
      assert q[|q| - |q'| + j] == s.accepted[id];
    }
  }

  lemma QueueMember(s: Ctl, b: BoardId, j: nat)
    requires Valid(s) && b in s.boards && j < |s.boards[b].fifo| && QueueOk(s, s.boards[b].fifo)
    ensures var e := s.boards[b].fifo[j];
            QueuedOk(s, e) && e.board == b && InFifo(s, e.id) && s.accepted[e.id] == e
  {
    var e := s.boards[b].fifo[j];
    assert QueuedOk(s, e);
  }

  lemma ShrinkQueue(s: Ctl, t: Ctl, b: BoardId)
    requires Valid(s) && b in s.boards && QueueOk(s, s.boards[b].fifo)
    requires b in t.boards && t.accepted == s.accepted && IsSuffix(t.boards[b].fifo, s.boards[b].fifo)
    requires forall id :: id in t.ledger.outcome && id !in s.ledger.outcome ==> !InFifo(t, id)
    ensures QueueOk(t, t.boards[b].fifo)
  {
    var q, q' := s.boards[b].fifo, t.boards[b].fifo;
    var d := |q| - |q'|;
    forall j | 0 <= j < |q'| ensures QueuedOk(t, q'[j]) {
      QueueMember(s, b, d + j);
      assert q'[j] == q[d + j];
      assert InFifo(t, q'[j].id);
    }
    forall i, j | 0 <= i < j < |q'| ensures q'[i].id < q'[j].id {
      assert q'[i] == q[d + i] && q'[j] == q[d + j];
    }
  }

  lemma ShrinksKeepTables(s: Ctl, t: Ctl)
    requires Tables(s) && Shrinks(s, t)
    ensures Tables(t)
  {
    forall id ensures InFifo(t, id) ==> InFifo(s, id) { SuffixIn(s, t, id); }
    forall b | b in t.boards ensures QueueOk(t, t.boards[b].fifo) { ShrinkQueue(s, t, b); }
    forall id | 0 <= id < |t.accepted| ensures AcceptedOk(t, id) { assert AcceptedOk(s, id); }
    forall k | k in t.pending.m ensures WrittenOk(t, t.pending.m[k]) && !Done(t, t.pending.m[k].id) {
      var e := s.pending.m[k];
      assert WrittenOk(s, e) && !Done(s, e.id);
      assert t.pending.m[k] == e && e.boardSeq == k;
      assert InPending(t, e.id);
    }
    forall id | id in t.writing ensures WrittenOk(t, t.writing[id]) { assert WrittenOk(s, s.writing[id]); }
  }
}
