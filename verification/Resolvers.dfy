/** The resolvers of controller.py one by one: none of them loses a command or
    settles one twice. */
module Resolvers {
  import opened Basics
  import opened Protocol
  import opened Controller
  import opened Accounts
  import opened Conservation
  import opened Steps

  /** What every resolver guarantees about the step it takes. */
  ghost predicate Settles(s: Ctl, t: Ctl) {
    Sound(t) && KeepsAll(s, t) && t.boards.Keys == s.boards.Keys && Final(s, t)
  }

  // ---------------------------------------------------------- one entry leaves

  /** `t` is `s` with the pending entry under `k` gone and settled. */
  ghost predicate Pops(s: Ctl, t: Ctl, k: nat)
    requires k in s.pending.m
  {
    && Valid(t) && t.accepted == s.accepted && t.boards.Keys == s.boards.Keys && t.writing == s.writing
    && (forall c :: c in s.boards ==>
       t.boards[c].fifo == s.boards[c].fifo && t.boards[c].nextSeq == s.boards[c].nextSeq)
    && t.pending.m == s.pending.m - {k}
    && (forall id :: id in t.timers.asleep ==> id in s.timers.asleep && t.timers.asleep[id] == s.timers.asleep[id])
    && (forall id :: id in t.ledger.outcome <==> id in s.ledger.outcome || id == s.pending.m[k].id)
    && forall id :: id in s.ledger.outcome ==> t.ledger.outcome[id] == s.ledger.outcome[id]
  }

  lemma PendingKey(s: Ctl, k: nat)
    requires Valid(s) && k in s.pending.m
    ensures s.pending.m[k].boardSeq == k
  {
  }

  lemma SameSuffixes(s: Ctl, t: Ctl)
    requires t.boards.Keys == s.boards.Keys && forall c :: c in s.boards ==> t.boards[c].fifo == s.boards[c].fifo
    ensures forall c :: c in s.boards ==> IsSuffix(t.boards[c].fifo, s.boards[c].fifo)
  {
  }

  lemma PopsShrink(s: Ctl, t: Ctl, k: nat)
    requires Valid(s) && k in s.pending.m && Pops(s, t, k)
    requires forall c :: c in s.boards ==> s.boards[c].nextSeq <= UINT64_MAX + 1
    requires WrittenOk(s, s.pending.m[k])
    ensures Shrinks(s, t)
  {
    var e := s.pending.m[k];
    PendingKey(s, k);
    hide Valid, InFifo;
    SameQueues(s, t, e.id);
    SameSuffixes(s, t);
    assert e.boardSeq == s.accepted[e.id].boardSeq == k;
    hide IsSuffix;
  }

  lemma PopsKeep(s: Ctl, t: Ctl, k: nat)
    requires Tables(s) && k in s.pending.m && Pops(s, t, k)
    ensures KeepsAll(s, t)
  {
    var e := s.pending.m[k];
    assert WrittenOk(s, e);
    forall id | 0 <= id < |s.accepted| ensures Placed(s, id) <==> Placed(t, id) {
      SameQueues(s, t, id);
    }
  }

  lemma PopsSettle(s: Ctl, t: Ctl, k: nat)
    requires Sound(s) && k in s.pending.m && Pops(s, t, k) && LedgerOk(t.ledger, s.accepted)
    ensures Settles(s, t)
  {
    PopsShrink(s, t, k);
    PopsKeep(s, t, k);
    ShrinksKeepTables(s, t);
  }

  lemma CancelShrinks(t: Timers, k: nat)
    ensures forall id :: id in CancelTimeout(t, k).asleep ==>
            id in t.asleep && CancelTimeout(t, k).asleep[id] == t.asleep[id]
    ensures CancelTimeout(t, k).armed == t.armed - {k}
  {
  }

  lemma {:induction false} CancelAllShrinks(t: Timers, ks: seq<nat>)
    ensures forall id :: id in CancelAll(t, ks).asleep ==> id in t.asleep && CancelAll(t, ks).asleep[id] == t.asleep[id]
    ensures forall k :: k in CancelAll(t, ks).armed <==> k in t.armed && k !in ks
    ensures forall k :: k in CancelAll(t, ks).armed ==> CancelAll(t, ks).armed[k] == t.armed[k]
    decreases |ks|
  {
    if ks != [] {
      CancelShrinks(t, ks[0]);
      CancelAllShrinks(CancelTimeout(t, ks[0]), ks[1..]);
      assert ks == [ks[0]] + ks[1..];
    }
  }

  lemma RelayedAnswers(e: Entry, r: BoardReply, now: real)
    requires Coupled(r.status, r.code)
    ensures Answers(RelayedReply(e, r, now), e)
  {
  }

  /** The board's own response settles the entry it names. */
  lemma FreeSlotFrame(s: Ctl, e: Entry)
    requires e.board in s.boards
    ensures var t := FreeSlot(s, e);
            && t == s.(boards := t.boards) && t.boards.Keys == s.boards.Keys
            && forall c :: c in s.boards ==>
               t.boards[c].fifo == s.boards[c].fifo && t.boards[c].nextSeq == s.boards[c].nextSeq
  {
  }

  /** What a single pop needs besides its slot. */
  lemma PopShape(s: Ctl, t: Ctl, k: nat)
    requires Valid(s) && k in s.pending.m && t.cfg == s.cfg && t.accepted == s.accepted && t.writing == s.writing
    requires t.boards.Keys == s.boards.Keys
    requires forall c :: c in s.boards ==>
             t.boards[c].fifo == s.boards[c].fifo && t.boards[c].nextSeq == s.boards[c].nextSeq
    requires t.pending.Valid() && t.pending.m == s.pending.m - {k}
    requires forall id :: id in t.timers.asleep ==> id in s.timers.asleep && t.timers.asleep[id] == s.timers.asleep[id]
    requires s.pending.m[k].id in t.ledger.outcome
    requires t.ledger.outcome == s.ledger.outcome[s.pending.m[k].id := t.ledger.outcome[s.pending.m[k].id]]
    requires s.pending.m[k].id !in s.ledger.outcome
    ensures Pops(s, t, k)
  {
  }

  /** `t` is `s` with the slot of `b` possibly freed. */
  ghost predicate SlotOnly(s: Ctl, t: Ctl, b: BoardId) {
    && t.boards.Keys == s.boards.Keys && b in s.boards
    && (forall c :: c in s.boards && c != b ==> t.boards[c] == s.boards[c])
    && (t.boards[b] == s.boards[b] || t.boards[b] == s.boards[b].(inFlight := None))
  }

  lemma TakeOutFrame(s: Ctl, k: nat)
    requires Valid(s) && k in s.pending.m
    ensures var t := TakeOut(s, k);
            && t == s.(pending := s.pending.Pop(k), timers := CancelTimeout(s.timers, k), boards := t.boards)
            && SlotOnly(s, t, s.pending.m[k].board) && t.pending.Valid() && t.pending.m == s.pending.m - {k}
  {
  }

  /** The entry taken out has no place left: its command is lost, and no other. */
  lemma TakeOutLoses(s: Ctl, k: nat)
    requires Sound(s) && k in s.pending.m
    ensures Sound(TakeOut(s, k)) && Final(s, TakeOut(s, k))
    ensures LosesOnly(s, TakeOut(s, k), Some(s.pending.m[k].id))
  {
    hide TakeOut, LedgerOk, Tables, Shrinks, Valid, SlotOnly;
    SoundTables(s);
    PendingEntryOk(s, k);
    TakeOutFrame(s, k);
    TakeOutKeepsTables(s, k);
    TakeOutPlaces(s, TakeOut(s, k), k);
  }

  lemma SoundTables(s: Ctl)
    requires Sound(s)
    ensures Valid(s) && Tables(s)
  {
  }

  lemma TakeOutKeepsTables(s: Ctl, k: nat)
    requires Tables(s) && k in s.pending.m
    ensures Tables(TakeOut(s, k))
  {
    hide TakeOut, Shrinks;
    TakeOutFrame(s, k);
    CancelShrinks(s.timers, k);
    TakeOutValid(s, TakeOut(s, k), k);
    TakeOutShrinks(s, TakeOut(s, k), k);
    ShrinksKeepTables(s, TakeOut(s, k));
  }

  lemma TakeOutPlaces(s: Ctl, t: Ctl, k: nat)
    requires k in s.pending.m && WrittenOk(s, s.pending.m[k])
    requires !Done(s, s.pending.m[k].id) && s.pending.m[k].boardSeq == k
    requires t.accepted == s.accepted && t.ledger == s.ledger && t.pending.m == s.pending.m - {k}
    requires SlotOnly(s, t, s.pending.m[k].board)
    ensures Final(s, t) && LosesOnly(s, t, Some(s.pending.m[k].id))
  {
    forall id ensures InFifo(t, id) <==> InFifo(s, id) { SameQueues(s, t, id); }
    hide InFifo, SlotOnly;
    forall id: Id | id < |s.accepted| ensures Placed(t, id) <==> Placed(s, id) && id != s.pending.m[k].id {
      assert s.accepted[id].boardSeq != k ==> (InPending(t, id) <==> InPending(s, id));
    }
  }

  lemma TakeOutValid(s: Ctl, t: Ctl, k: nat)
    requires Valid(s) && k in s.pending.m && t.pending.Valid() && t.pending.m == s.pending.m - {k}
    requires t.cfg == s.cfg && t.writing == s.writing && SlotOnly(s, t, s.pending.m[k].board)
    ensures Valid(t)
  {
  }

  lemma TakeOutShrinks(s: Ctl, t: Ctl, k: nat)
    requires Tables(s) && k in s.pending.m && Valid(t) && t.pending.m == s.pending.m - {k}
    requires t.cfg == s.cfg && t.accepted == s.accepted && t.writing == s.writing && t.ledger == s.ledger
    requires SlotOnly(s, t, s.pending.m[k].board)
    requires forall id :: id in t.timers.asleep ==> id in s.timers.asleep && t.timers.asleep[id] == s.timers.asleep[id]
    ensures Shrinks(s, t)
  {
    BoundedSeqs(s);
    hide Tables, Valid, IsSuffix;
    SlotSuffixes(s, t, s.pending.m[k].board);
  }

  lemma BoundedSeqs(s: Ctl)
    requires Tables(s)
    ensures forall b :: b in s.boards ==> s.boards[b].nextSeq <= UINT64_MAX + 1
  {
  }

  lemma SlotSuffixes(s: Ctl, t: Ctl, b: BoardId)
    requires SlotOnly(s, t, b)
    ensures forall c :: c in s.boards ==>
              IsSuffix(t.boards[c].fifo, s.boards[c].fifo) && t.boards[c].nextSeq == s.boards[c].nextSeq
  {
  }

  lemma MatchedSettles(s: Ctl, r: BoardReply)
    requires Sound(s) && r.boardSeq in s.pending.m && Coupled(r.status, r.code)
    ensures Settles(s, Matched(s, r))
  {
    hide Matched, LedgerOk, Answers;
    var e := s.pending.m[r.boardSeq];
    PendingEntryOk(s, r.boardSeq);
    RelayedAnswers(e, r, s.now);
    SettleKeeps(s.ledger, s.accepted, e, RelayedReply(e, r, s.now));
    MatchedPops(s, r);
    PopsSettle(s, Matched(s, r), r.boardSeq);
  }

  lemma MatchedPops(s: Ctl, r: BoardReply)
    requires Valid(s) && r.boardSeq in s.pending.m && s.pending.m[r.boardSeq].id !in s.ledger.outcome
    ensures Pops(s, Matched(s, r), r.boardSeq)
    ensures var e := s.pending.m[r.boardSeq]; Matched(s, r).ledger == Settle(s.ledger, e, RelayedReply(e, r, s.now))
  {
    hide TakeOut, Pops, RelayedReply, CancelTimeout, Dict.Pop;
    CancelShrinks(s.timers, r.boardSeq);
    TakeOutFrame(s, r.boardSeq);
    PopShape(s, Matched(s, r), r.boardSeq);
  }

  lemma TimeoutFrame(s: Ctl, id: Id)
    requires Valid(s) && id in s.timers.asleep && s.timers.asleep[id].boardSeq in s.pending.m
    ensures var k, t := s.timers.asleep[id].boardSeq, TimedOut(s, id);
            && t == s.(pending := s.pending.Pop(k), timers := Timers(s.timers.armed - {k}, s.timers.asleep - {id}),
                       boards := t.boards, ledger := ResolveError(s.ledger, s.pending.m[k], COMMAND_TIMEOUT))
            && SlotOnly(s, t, s.pending.m[k].board) && t.pending.Valid() && t.pending.m == s.pending.m - {k}
  {
    hide ResolveError;
  }

  lemma TimedOutPops(s: Ctl, id: Id)
    requires Valid(s) && id in s.timers.asleep && s.timers.asleep[id].boardSeq in s.pending.m
    requires s.pending.m[s.timers.asleep[id].boardSeq].id !in s.ledger.outcome
    ensures Pops(s, TimedOut(s, id), s.timers.asleep[id].boardSeq)
  {
    var k := s.timers.asleep[id].boardSeq;
    FreeSlotFrame(s.(pending := s.pending.Pop(k), timers := Timers(s.timers.armed - {k}, s.timers.asleep - {id})),
      s.pending.m[k]);
    PopShape(s, TimedOut(s, id), k);
  }

  lemma TimedOutSettles(s: Ctl, id: Id)
    requires Sound(s) && id in s.timers.asleep && s.timers.asleep[id].boardSeq in s.pending.m
    ensures Settles(s, TimedOut(s, id))
  {
    var k := s.timers.asleep[id].boardSeq;
    assert WrittenOk(s, s.pending.m[k]);
    ResolveErrorKeeps(s.ledger, s.accepted, s.pending.m[k], COMMAND_TIMEOUT);
    TimedOutPops(s, id);
    PopsSettle(s, TimedOut(s, id), k);
  }

  lemma WakeInVain(s: Ctl, id: Id)
    requires Sound(s) && id in s.timers.asleep && s.timers.asleep[id].boardSeq !in s.pending.m
    ensures Settles(s, FireTimer(s, id))
  {
    hide LedgerOk;
    TimersApart(s, FireTimer(s, id));
    hide Tables;
    forall x ensures InFifo(FireTimer(s, id), x) <==> InFifo(s, x) { SameQueues(s, FireTimer(s, id), x); }
  }

  lemma UnmatchedSettles(s: Ctl, r: BoardReply)
    requires Sound(s) && r.boardSeq !in s.pending.m
    ensures Settles(s, HandleResponse(s, r))
  {
    var t := HandleResponse(s, r);
    RecountKeeps(s.ledger, s.accepted, t.ledger.counters);
    LedgerApart(s, t);
  }

  /** Only the ledger differs, and only where it may. */
  lemma LedgerApart(s: Ctl, t: Ctl)
    requires Sound(s) && t == s.(ledger := t.ledger) && LedgerOk(t.ledger, s.accepted)
    requires t.ledger.outcome == s.ledger.outcome
    ensures Settles(s, t)
  {
    BesideSettles(s, t);
  }

  // ------------------------------------------------------------ batches leave

  lemma WithdrawnPending(s: Ctl, es: seq<Entry>)
    requires Valid(s) && forall e :: e in es ==> e.boardSeq in s.pending.m && s.pending.m[e.boardSeq] == e
    ensures forall k :: k in s.pending.PopAll(SeqsOf(es)).m <==> k in s.pending.m && s.pending.m[k] !in es
  {
    var ks := SeqsOf(es);
    forall k | k in s.pending.m ensures k in ks <==> s.pending.m[k] in es {
      if k in ks {
        var j :| 0 <= j < |ks| && ks[j] == k;
        assert es[j] in es;
      }
      if s.pending.m[k] in es {
        var j :| 0 <= j < |es| && es[j] == s.pending.m[k];
        assert ks[j] == k;
      }
    }
  }

  lemma PendingValues(s: Ctl)
    requires Valid(s)
    ensures forall e :: e in s.pending.Values() <==> e.boardSeq in s.pending.m && s.pending.m[e.boardSeq] == e
  {
    var vs := s.pending.Values();
    forall e ensures e in vs <==> e.boardSeq in s.pending.m && s.pending.m[e.boardSeq] == e {
      if e in vs {
        var j :| 0 <= j < |vs| && vs[j] == e;
        assert s.pending.order[j] in s.pending.m;
      }
      if e.boardSeq in s.pending.m && s.pending.m[e.boardSeq] == e {
        var j :| 0 <= j < |s.pending.order| && s.pending.order[j] == e.boardSeq;
        assert vs[j] == e;
      }
    }
  }

  /** `t` is `s` without these pending entries and with the queues of `bs` empty. */
  ghost predicate Clears(s: Ctl, t: Ctl, lost: seq<Entry>, bs: set<BoardId>) {
    && t.cfg == s.cfg && t.accepted == s.accepted && t.boards.Keys == s.boards.Keys && t.writing == s.writing
    && bs <= s.boards.Keys
    && (forall c :: c in s.boards ==>
       t.boards[c].fifo == (if c in bs then [] else s.boards[c].fifo) && t.boards[c].nextSeq == s.boards[c].nextSeq)
    && t.pending.Valid()
    && (forall k :: k in t.pending.m <==> k in s.pending.m && s.pending.m[k] !in lost)
    && (forall k :: k in t.pending.m ==> t.pending.m[k] == s.pending.m[k])
    && (forall e :: e in lost ==> e.boardSeq in s.pending.m && s.pending.m[e.boardSeq] == e)
    && (forall id :: id in t.timers.asleep ==> id in s.timers.asleep && t.timers.asleep[id] == s.timers.asleep[id])
  }

  lemma ClearsQueued(s: Ctl, t: Ctl, lost: seq<Entry>, bs: set<BoardId>, queued: seq<Entry>, e: Entry)
    requires Tables(s) && Clears(s, t, lost, bs)
    requires exists b :: b in bs && e in s.boards[b].fifo
    ensures InFifo(s, e.id) && s.accepted[e.id] == e && !InFifo(t, e.id)
  {
    var b :| b in bs && e in s.boards[b].fifo;
    var j :| 0 <= j < |s.boards[b].fifo| && s.boards[b].fifo[j] == e;
    QueueMember(s, b, j);
  }

  lemma ClearsAreValid(s: Ctl, t: Ctl, lost: seq<Entry>, bs: set<BoardId>)
    requires Valid(s) && Clears(s, t, lost, bs)
    ensures Valid(t)
  {
  }

  lemma ClearsSuffix(s: Ctl, t: Ctl, lost: seq<Entry>, bs: set<BoardId>)
    requires Clears(s, t, lost, bs)
    ensures forall b :: b in s.boards ==> IsSuffix(t.boards[b].fifo, s.boards[b].fifo)
  {
    hide IsSuffix;
    forall b | b in s.boards ensures IsSuffix(t.boards[b].fifo, s.boards[b].fifo) {
      var q := s.boards[b].fifo;
      TailIsSuffix(q, 0);
      TailIsSuffix(q, |q|);
      assert q[0..] == q && q[|q|..] == [];
    }
  }

  lemma ClearsOut(s: Ctl, t: Ctl, lost: seq<Entry>, bs: set<BoardId>, queued: seq<Entry>, id: Id)
    requires Clears(s, t, lost, bs) && InFifo(s, id) && !InFifo(t, id)
    requires forall e :: e in queued <==> exists b :: b in bs && e in s.boards[b].fifo
    ensures s.accepted[id] in queued
  {
    assert s.accepted[id].board in bs;
  }

  lemma ClearsDrop(s: Ctl, t: Ctl, lost: seq<Entry>, bs: set<BoardId>, queued: seq<Entry>)
    requires Clears(s, t, lost, bs)
    requires forall e :: e in queued <==> exists b :: b in bs && e in s.boards[b].fifo
    requires forall e :: e in queued ==> InFifo(s, e.id) && s.accepted[e.id] == e && !InFifo(t, e.id)
    ensures Drops(s, t, lost, queued)
  {
    hide IsSuffix;
    ClearsSuffix(s, t, lost, bs);
    forall id | 0 <= id < |s.accepted| && InFifo(s, id) && !InFifo(t, id) ensures s.accepted[id] in queued {
      ClearsOut(s, t, lost, bs, queued, id);
    }
  }

  lemma ClearAndFail(s: Ctl, t: Ctl, lost: seq<Entry>, bs: set<BoardId>, queued: seq<Entry>, l: Ledger, code: ErrorCode)
    requires Sound(s) && Clears(s, t, lost, bs)
    requires forall e :: e in queued <==> exists b :: b in bs && e in s.boards[b].fifo
    requires LedgerOk(l, s.accepted) && l.outcome == s.ledger.outcome && t.ledger == ResolveAll(l, lost + queued, code)
    ensures Settles(s, t)
  {
    ClearsAreValid(s, t, lost, bs);
    forall e | e in queued ensures InFifo(s, e.id) && s.accepted[e.id] == e && !InFifo(t, e.id) {
      ClearsQueued(s, t, lost, bs, queued, e);
    }
    ClearsDrop(s, t, lost, bs, queued);
    DropsFail(s, t, lost, queued, l, code);
  }

  lemma DropsMembers(s: Ctl, t: Ctl, lost: seq<Entry>, queued: seq<Entry>)
    requires Drops(s, t, lost, queued)
    ensures t.accepted == s.accepted
    ensures t.boards.Keys == s.boards.Keys
    ensures forall e :: e in lost ==> e.boardSeq in s.pending.m && s.pending.m[e.boardSeq] == e
    ensures forall e :: e in queued ==> InFifo(s, e.id) && s.accepted[e.id] == e
  {
  }

  lemma SameFailed(l: Ledger, m: Ledger, t: Ledger, acc: seq<Entry>, es: seq<Entry>, code: ErrorCode)
    requires Failed(l, t, acc, es, code) && l.outcome == m.outcome
    ensures Failed(m, t, acc, es, code)
    ensures forall id :: id in m.outcome ==> id in t.outcome && t.outcome[id] == m.outcome[id]
  {
  }

  lemma DropsFail(s: Ctl, t: Ctl, lost: seq<Entry>, queued: seq<Entry>, l: Ledger, code: ErrorCode)
    requires Sound(s) && Valid(t) && Drops(s, t, lost, queued)
    requires LedgerOk(l, s.accepted) && l.outcome == s.ledger.outcome && t.ledger == ResolveAll(l, lost + queued, code)
    ensures Settles(s, t)
  {
    hide Tables, LedgerOk, Drops, Failed, Shrinks, Valid;
    var es := lost + queued;
    DropsMembers(s, t, lost, queued);
    forall e | e in es ensures (InFifo(s, e.id) && s.accepted[e.id] == e)
      || (e.boardSeq in s.pending.m && s.pending.m[e.boardSeq] == e) {
      assert e in lost || e in queued;
    }
    TableEntriesAccepted(s, es);
    ResolveAllKeeps(l, s.accepted, es, code);
    SameFailed(l, s.ledger, t.ledger, s.accepted, es, code);
    DropAndFail(s, t, lost, queued, code);
  }

  lemma BoardDownClears(s: Ctl, b: BoardId)
    requires Valid(s) && b in s.boards
    ensures Clears(s, BoardDown(s, b), OnBoard(s.pending.Values(), b), {b})
  {
    var lost := OnBoard(s.pending.Values(), b);
    PendingValues(s);
    WithdrawnPending(s, lost);
    CancelAllShrinks(s.timers, SeqsOf(lost));
  }

  lemma OneQueue(s: Ctl, b: BoardId)
    requires b in s.boards
    ensures forall e :: e in s.boards[b].fifo <==> exists c :: c in {b} && e in s.boards[c].fifo
  {
    forall e ensures e in s.boards[b].fifo <==> exists c :: c in {b} && e in s.boards[c].fifo {
      assert b in {b};
    }
  }

  function CountDown(l: Ledger): Ledger {
    l.(counters := l.counters.(boardDisconnects := l.counters.boardDisconnects + 1))
  }

  lemma BoardDownLedger(s: Ctl, b: BoardId)
    requires Valid(s) && b in s.boards
    ensures BoardDown(s, b).ledger
            == ResolveAll(CountDown(s.ledger), OnBoard(s.pending.Values(), b) + s.boards[b].fifo, BOARD_UNAVAILABLE)
  {
    PendingIsValid(s);
    hide Valid, ResolveAll, OnBoard, CancelAll, SeqsOf, Dict.PopAll, Dict.Values;
  }

  lemma BoardDownSettles(s: Ctl, b: BoardId)
    requires Sound(s) && b in s.boards
    ensures Settles(s, BoardDown(s, b))
  {
    var l := CountDown(s.ledger);
    RecountKeeps(s.ledger, s.accepted, l.counters);
    BoardDownClears(s, b);
    BoardDownLedger(s, b);
    OneQueue(s, b);
    ClearAndFail(s, BoardDown(s, b), OnBoard(s.pending.Values(), b), {b}, s.boards[b].fifo, l, BOARD_UNAVAILABLE);
  }

  lemma {:induction false} QueuedFromMembers(s: Ctl, i: nat)
    requires Valid(s) && i <= |s.cfg.boards|
    ensures forall e :: e in QueuedFrom(s, i) <==>
            exists j :: i <= j < |s.cfg.boards| && e in s.boards[s.cfg.boards[j]].fifo
    decreases |s.cfg.boards| - i
  {
    if i < |s.cfg.boards| {
      QueuedFromMembers(s, i + 1);
      var head := s.boards[s.cfg.boards[i]].fifo;
      forall e ensures e in QueuedFrom(s, i)
        <==> exists j :: i <= j < |s.cfg.boards| && e in s.boards[s.cfg.boards[j]].fifo {
        assert e in QueuedFrom(s, i) <==> e in head || e in QueuedFrom(s, i + 1);
      }
    }
  }

  lemma QueuedMembers(s: Ctl)
    requires Valid(s)
    ensures forall e :: e in Queued(s) <==> exists b :: b in s.boards.Keys && e in s.boards[b].fifo
  {
    QueuedFromMembers(s, 0);
    forall e ensures e in Queued(s) <==> exists b :: b in s.boards.Keys && e in s.boards[b].fifo {
      if b :| b in s.boards.Keys && e in s.boards[b].fifo {
        var j :| 0 <= j < |s.cfg.boards| && s.cfg.boards[j] == b;
        assert e in s.boards[s.cfg.boards[j]].fifo;
      }
    }
  }

  lemma TriggerSettles(s: Ctl)
    requires Sound(s)
    ensures Settles(s, TriggerEstop(s))
  {
    if !s.latched {
      var t := TriggerEstop(s);
      QueuedMembers(s);
      assert Clears(s, t, [], s.boards.Keys);
      assert [] + Queued(s) == Queued(s);
      ClearAndFail(s, t, [], s.boards.Keys, Queued(s), s.ledger, ESTOP_ACTIVE);
    }
  }

  lemma FailRemainingSettles(s: Ctl)
    requires Sound(s)
    ensures Settles(s, FailRemaining(s))
  {
    var lost := s.pending.Values();
    var t := FailRemaining(s);
    PendingValues(s);
    WithdrawnPending(s, lost);
    CancelAllShrinks(s.timers, SeqsOf(lost));
    QueuedMembers(s);
    assert Clears(s, t, lost, s.boards.Keys);
    ClearAndFail(s, t, lost, s.boards.Keys, Queued(s), s.ledger, CONTROLLER_SHUTDOWN);
  }

  // ------------------------------------------------ steps that settle nothing

  /** Steps that touch neither the tables nor the ledger's outcomes. */
  ghost predicate Beside(s: Ctl, t: Ctl) {
    && t.cfg == s.cfg && t.accepted == s.accepted && t.boards.Keys == s.boards.Keys
    && (forall c :: c in s.boards ==> t.boards[c].fifo == s.boards[c].fifo
                                      && s.boards[c].nextSeq <= t.boards[c].nextSeq <= UINT64_MAX + 1)
    && t.pending == s.pending && t.timers == s.timers && t.writing == s.writing
    && t.ledger.outcome == s.ledger.outcome
  }

  lemma BesideValid(s: Ctl, t: Ctl)
    requires Valid(s) && Beside(s, t)
    ensures Valid(t)
  {
  }

  lemma BesideShrinks(s: Ctl, t: Ctl)
    requires Valid(s) && Beside(s, t)
    ensures Shrinks(s, t) && KeepsAll(s, t)
  {
    BesideValid(s, t);
    hide Valid, InFifo;
    forall x ensures InFifo(t, x) <==> InFifo(s, x) { SameQueues(s, t, x); }
  }

  lemma BesideSettles(s: Ctl, t: Ctl)
    requires Sound(s) && Beside(s, t) && LedgerOk(t.ledger, s.accepted)
    ensures Settles(s, t)
  {
    BesideShrinks(s, t);
    ShrinksKeepTables(s, t);
  }

  lemma RefuseSettles(s: Ctl, c: Command, code: ErrorCode)
    requires Sound(s)
    ensures Settles(s, Refuse(s, c, code))
  {
    var l := AnswerNow(s.ledger, ErrorReply(c.clientSeq, c.source, code));
    AnswerNowKeeps(s.ledger, s.accepted, ErrorReply(c.clientSeq, c.source, code));
    RecountKeeps(l, s.accepted, Refuse(s, c, code).ledger.counters);
    BesideSettles(s, Refuse(s, c, code));
  }

  lemma RegisterSettles(s: Ctl, b: BoardId, schema: Object)
    requires Sound(s) && b in s.boards
    ensures Settles(s, RegisterBoard(s, b, schema))
  {
    var t := RegisterBoard(s, b, schema);
    RecountKeeps(s.ledger, s.accepted, t.ledger.counters);
    RegisterBeside(s, b, schema);
    BesideSettles(s, t);
  }

  lemma RegisterBeside(s: Ctl, b: BoardId, schema: Object)
    requires Valid(s) && b in s.boards && forall c :: c in s.boards ==> s.boards[c].nextSeq <= UINT64_MAX + 1
    ensures Beside(s, RegisterBoard(s, b, schema))
  {
  }
}
