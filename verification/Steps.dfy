/** Every run-to-suspension step keeps the dispatcher sound, and keeps every
    accepted command except in the two situations named here. */
module Steps {
  import opened Basics
  import opened Protocol
  import opened Controller
  import opened Accounts
  import opened Conservation

  /** The invariant of every reachable state. */
  ghost predicate Sound(s: Ctl) {
    Tables(s) && LedgerOk(s.ledger, s.accepted)
  }

  /** Futures that are done stay done, with the answer they were given. */
  ghost predicate Final(s: Ctl, t: Ctl) {
    forall id :: id in s.ledger.outcome ==> id in t.ledger.outcome && t.ledger.outcome[id] == s.ledger.outcome[id]
  }

  // ------------------------------------------------------ failing in a batch

  /** `lost` are pending entries, `queued` the queue entries that `t` dropped. */
  ghost predicate Drops(s: Ctl, t: Ctl, lost: seq<Entry>, queued: seq<Entry>) {
    && t.accepted == s.accepted && t.boards.Keys == s.boards.Keys && t.writing == s.writing
    && (forall e :: e in lost ==> e.boardSeq in s.pending.m && s.pending.m[e.boardSeq] == e)
    && (forall k :: k in t.pending.m <==> k in s.pending.m && s.pending.m[k] !in lost)
    && (forall k :: k in t.pending.m ==> t.pending.m[k] == s.pending.m[k])
    && (forall b :: b in s.boards ==>
          && IsSuffix(t.boards[b].fifo, s.boards[b].fifo)
          && s.boards[b].nextSeq == t.boards[b].nextSeq)
    && (forall e :: e in queued ==> InFifo(s, e.id) && s.accepted[e.id] == e && !InFifo(t, e.id))
    && (forall id :: 0 <= id < |s.accepted| && InFifo(s, id) && !InFifo(t, id) ==> s.accepted[id] in queued)
    && (forall id :: id in t.timers.asleep ==> id in s.timers.asleep && t.timers.asleep[id] == s.timers.asleep[id])
  }

  lemma MentionsIn(es: seq<Entry>, e: Entry)
    requires e in es
    ensures Mentions(es, e.id)
  {
    var j :| 0 <= j < |es| && es[j] == e;
    assert es[j].id == e.id;
  }

  /** A mentioned command was in the tables of `s` and is not in those of `t`. */
  lemma DroppedFrom(s: Ctl, t: Ctl, lost: seq<Entry>, queued: seq<Entry>, id: Id)
    requires Tables(s) && Drops(s, t, lost, queued)
    ensures Mentions(lost + queued, id) ==> (InFifo(s, id) || InPending(s, id)) && !InFifo(t, id) && !InPending(t, id)
    ensures (InFifo(s, id) || InPending(s, id)) && !InFifo(t, id) && !InPending(t, id) ==> Mentions(lost + queued, id)
  {
    var all := lost + queued;
    SuffixIn(s, t, id);
    if Mentions(all, id) {
      var j :| 0 <= j < |all| && all[j].id == id;
      if j < |lost| {
        var e := lost[j];
        assert e in lost && WrittenOk(s, s.pending.m[e.boardSeq]);
      } else {
        assert queued[j - |lost|] == all[j] && all[j] in queued;
        OnePlace(s, id);
      }
    } else if InFifo(s, id) && !InFifo(t, id) {
      assert AcceptedOk(s, id) && s.accepted[id] in all;
      MentionsIn(all, s.accepted[id]);
    } else if InPending(s, id) && !InPending(t, id) {
      var e := s.pending.m[s.accepted[id].boardSeq];
      assert e in all;
      MentionsIn(all, e);
    }
  }

  /** Dropping commands from the tables and failing exactly those. */
  lemma DropAndFail(s: Ctl, t: Ctl, lost: seq<Entry>, queued: seq<Entry>, code: ErrorCode)
    requires Sound(s) && Valid(t) && Drops(s, t, lost, queued)
    requires LedgerOk(t.ledger, t.accepted) && Failed(s.ledger, t.ledger, s.accepted, lost + queued, code)
    ensures Shrinks(s, t) && KeepsAll(s, t) && Sound(t)
  {
    forall id | id in t.ledger.outcome && id !in s.ledger.outcome
      ensures id < |t.accepted| && !InFifo(t, id) && !InPending(t, id) {
      DroppedFrom(s, t, lost, queued, id);
    }
    forall id | 0 <= id < |s.accepted| ensures Placed(s, id) <==> Placed(t, id) {
      DroppedFrom(s, t, lost, queued, id);
      SuffixIn(s, t, id);
    }
    ShrinksKeepTables(s, t);
  }

  lemma TableEntriesAccepted(s: Ctl, es: seq<Entry>)
    requires Tables(s)
    requires forall e :: e in es ==>
               (InFifo(s, e.id) && s.accepted[e.id] == e) || (e.boardSeq in s.pending.m && s.pending.m[e.boardSeq] == e)
    ensures forall e :: e in es ==> IsAccepted(e, s.accepted)
  {
    forall e | e in es ensures IsAccepted(e, s.accepted) {
      if e.boardSeq in s.pending.m && s.pending.m[e.boardSeq] == e {
        assert WrittenOk(s, s.pending.m[e.boardSeq]);
      } else {
        assert AcceptedOk(s, e.id);
      }
    }
  }

  // ---------------------------------------------------------------- dispatch

  lemma PrefixMembers(s: Ctl, b: BoardId, n: nat)
    requires Tables(s) && b in s.boards && n <= |s.boards[b].fifo|
    ensures forall e :: e in s.boards[b].fifo[..n] ==> InFifo(s, e.id) && s.accepted[e.id] == e && e.board == b
    ensures forall e :: e in s.boards[b].fifo[..n] ==> e !in s.boards[b].fifo[n..]
  {
    var q := s.boards[b].fifo;
    forall e | e in q[..n] ensures InFifo(s, e.id) && s.accepted[e.id] == e && e.board == b && e !in q[n..] {
      var j :| 0 <= j < n && q[..n][j] == e;
      assert q[j] == e;
      QueueMember(s, b, j);
      forall i | 0 <= i < |q[n..]| ensures q[n..][i] != e {
        assert q[n..][i] == q[n + i] && q[j].id < q[n + i].id;
      }
    }
  }

  /** `t` is `s` without the first `n` entries of the queue of `b`. */
  ghost predicate Trims(s: Ctl, t: Ctl, b: BoardId, n: nat)
    requires b in s.boards
  {
    && t.accepted == s.accepted && t.boards.Keys == s.boards.Keys && t.cfg == s.cfg
    && t.pending == s.pending && t.writing == s.writing && t.timers == s.timers
    && n <= |s.boards[b].fifo| && t.boards[b].fifo == s.boards[b].fifo[n..]
    && (forall c :: c in s.boards && c != b ==> t.boards[c].fifo == s.boards[c].fifo)
    && (forall c :: c in s.boards ==> t.boards[c].nextSeq == s.boards[c].nextSeq)
  }

  lemma TrimsAreValid(s: Ctl, t: Ctl, b: BoardId, n: nat)
    requires Valid(s) && b in s.boards && Trims(s, t, b, n)
    ensures Valid(t)
  {
    forall c, j | c in t.boards && 0 <= j < |t.boards[c].fifo| ensures t.boards[c].fifo[j].board == c {
      if c == b { assert t.boards[c].fifo[j] == s.boards[c].fifo[n + j]; }
    }
  }

  lemma TrimsDrop(s: Ctl, t: Ctl, b: BoardId, n: nat)
    requires Tables(s) && b in s.boards && Trims(s, t, b, n)
    ensures Drops(s, t, [], s.boards[b].fifo[..n])
  {
    var q := s.boards[b].fifo;
    PrefixMembers(s, b, n);
    TrimsSuffix(s, t, b, n);
    forall e | e in q[..n] ensures !InFifo(t, e.id) { assert s.accepted[e.id] == e; }
    forall id | 0 <= id < |s.accepted| && InFifo(s, id) && !InFifo(t, id) ensures s.accepted[id] in q[..n] {
      TrimmedIn(s, t, b, n, id);
    }
    hide Tables, InFifo, IsSuffix;
  }

  lemma TrimsSuffix(s: Ctl, t: Ctl, b: BoardId, n: nat)
    requires b in s.boards && Trims(s, t, b, n)
    ensures forall c :: c in s.boards ==> IsSuffix(t.boards[c].fifo, s.boards[c].fifo)
  {
    hide IsSuffix;
    forall c | c in s.boards ensures IsSuffix(t.boards[c].fifo, s.boards[c].fifo) {
      TailIsSuffix(s.boards[c].fifo, if c == b then n else 0);
      assert s.boards[c].fifo[0..] == s.boards[c].fifo;
    }
  }

  lemma TailIsSuffix(q: seq<Entry>, n: nat)
    requires n <= |q|
    ensures IsSuffix(q[n..], q)
  {
  }

  lemma TrimmedIn(s: Ctl, t: Ctl, b: BoardId, n: nat, id: Id)
    requires b in s.boards && Trims(s, t, b, n) && InFifo(s, id) && !InFifo(t, id)
    ensures s.accepted[id] in s.boards[b].fifo[..n]
  {
    var q := s.boards[b].fifo;
    assert q == q[..n] + q[n..];
  }

  lemma StaleTrims(s: Ctl, b: BoardId)
    requires b in s.boards
    ensures var t, q := DropStale(s, b), s.boards[b].fifo;
            var n := StalePrefix(q, s.now);
            var settled := ResolveAll(s.ledger, q[..n], COMMAND_TIMEOUT);
            && Trims(s, t, b, n) && t.accepted == s.accepted
            && t.ledger == settled.(counters := settled.counters.(stale := t.ledger.counters.stale))
  {
    hide ResolveAll, StalePrefix;
  }

  lemma DropStaleKeeps(s: Ctl, b: BoardId)
    requires Sound(s) && b in s.boards
    ensures var t := DropStale(s, b); Shrinks(s, t) && KeepsAll(s, t) && Sound(t) && Final(s, t)
  {
    hide DropStale, Trims, ResolveAll, LedgerOk, Failed, Drops, Shrinks, KeepsAll, Placed, StalePrefix, Valid, QueueOk,
         AcceptedOk, WrittenOk, IsAccepted;
    PrefixMembers(s, b, StalePrefix(s.boards[b].fifo, s.now));
    StaleTrims(s, b);
    var q := s.boards[b].fifo;
    var es := q[..StalePrefix(q, s.now)];
    var t := DropStale(s, b);
    TrimsDrop(s, t, b, |es|);
    TrimsAreValid(s, t, b, |es|);
    TableEntriesAccepted(s, es);
    ResolveAllKeeps(s.ledger, s.accepted, es, COMMAND_TIMEOUT);
    RecountKeeps(ResolveAll(s.ledger, es, COMMAND_TIMEOUT), s.accepted, t.ledger.counters);
    assert [] + es == es;
    DropAndFail(s, t, [], es, COMMAND_TIMEOUT);
  }

  /** `t` is `s` with the head of the queue of `b` pending and being written. */
  ghost predicate Starts(s: Ctl, t: Ctl, b: BoardId)
    requires b in s.boards && s.boards[b].fifo != []
  {
    var e := s.boards[b].fifo[0].(writtenAt := Some(s.now));
    && Valid(t) && t.accepted == s.accepted && t.ledger == s.ledger && t.boards.Keys == s.boards.Keys
    && t.boards[b].fifo == s.boards[b].fifo[1..]
    && (forall c :: c in s.boards && c != b ==> t.boards[c].fifo == s.boards[c].fifo)
    && (forall c :: c in s.boards ==> t.boards[c].nextSeq == s.boards[c].nextSeq)
    && t.pending.m == s.pending.m[e.boardSeq := e] && t.writing == s.writing[e.id := e] && t.timers == s.timers
  }

  lemma StartsLeave(s: Ctl, t: Ctl, b: BoardId)
    requires Tables(s) && b in s.boards && s.boards[b].fifo != [] && Starts(s, t, b)
    ensures forall id :: InFifo(t, id) <==> InFifo(s, id) && id != s.boards[b].fifo[0].id
  {
    forall id ensures InFifo(t, id) <==> InFifo(s, id) && id != s.boards[b].fifo[0].id { HeadLeaves(s, t, b, id); }
  }

  lemma StartsQueues(s: Ctl, t: Ctl, b: BoardId)
    requires Tables(s) && b in s.boards && s.boards[b].fifo != [] && Starts(s, t, b)
    ensures forall c :: c in t.boards ==> QueueOk(t, t.boards[c].fifo)
  {
    hide IsSuffix, QueueOk, Valid;
    TablesAreValid(s);
    forall c | c in t.boards ensures QueueOk(t, t.boards[c].fifo) {
      TailIsSuffix(s.boards[c].fifo, if c == b then 1 else 0);
      assert s.boards[c].fifo[0..] == s.boards[c].fifo;
      ShrinkQueue(s, t, c);
    }
  }

  lemma TablesAreValid(s: Ctl)
    requires Tables(s)
    ensures Valid(s)
  {
  }

  /** A written entry stays well placed when queues only shrink. */
  lemma WrittenCarries(s: Ctl, t: Ctl, e: Entry)
    requires WrittenOk(s, e) && t.accepted == s.accepted && (InFifo(t, e.id) ==> InFifo(s, e.id))
    ensures WrittenOk(t, e)
  {
  }

  lemma HeadIsWritten(s: Ctl, t: Ctl, b: BoardId)
    requires Tables(s) && b in s.boards && s.boards[b].fifo != [] && Starts(s, t, b)
    requires forall id :: InFifo(t, id) <==> InFifo(s, id) && id != s.boards[b].fifo[0].id
    ensures var w := s.boards[b].fifo[0].(writtenAt := Some(s.now)); WrittenOk(t, w) && !Done(t, w.id)
  {
    QueueMember(s, b, 0);
  }

  lemma StartsWrites(s: Ctl, t: Ctl, b: BoardId)
    requires Tables(s) && b in s.boards && s.boards[b].fifo != [] && Starts(s, t, b)
    requires forall id :: InFifo(t, id) <==> InFifo(s, id) && id != s.boards[b].fifo[0].id
    ensures forall k :: k in t.pending.m ==> WrittenOk(t, t.pending.m[k]) && !Done(t, t.pending.m[k].id)
    ensures forall id :: id in t.writing ==> WrittenOk(t, t.writing[id])
  {
    hide Tables, Valid, InFifo, WrittenOk;
    var e := s.boards[b].fifo[0];
    HeadIsWritten(s, t, b);
    forall k | k in t.pending.m ensures WrittenOk(t, t.pending.m[k]) && !Done(t, t.pending.m[k].id) {
      if k != e.boardSeq { PendingEntryOk(s, k); WrittenCarries(s, t, s.pending.m[k]); }
    }
    forall id | id in t.writing ensures WrittenOk(t, t.writing[id]) {
      if id != e.id { WritingEntryWritten(s, id); WrittenCarries(s, t, s.writing[id]); }
    }
  }

  lemma StartsKeepTables(s: Ctl, t: Ctl, b: BoardId)
    requires Tables(s) && b in s.boards && s.boards[b].fifo != [] && Starts(s, t, b)
    ensures Tables(t)
  {
    StartsLeave(s, t, b);
    StartsQueues(s, t, b);
    StartsWrites(s, t, b);
    forall id | 0 <= id < |t.accepted| ensures AcceptedOk(t, id) { assert AcceptedOk(s, id); }
  }

  lemma PendingEntryOk(s: Ctl, k: nat)
    requires Tables(s) && k in s.pending.m
    ensures WrittenOk(s, s.pending.m[k]) && !Done(s, s.pending.m[k].id) && s.pending.m[k].boardSeq == k
  {
  }

  /** The command whose pending entry the next write of `b` takes over, if any. */
  function HeadVictim(s: Ctl, b: BoardId): Option<Id>
    requires b in s.boards && s.boards[b].fifo != []
  {
    var k := s.boards[b].fifo[0].boardSeq;
    if k in s.pending.m then Some(s.pending.m[k].id) else None
  }

  lemma StartsLoseOnly(s: Ctl, t: Ctl, b: BoardId)
    requires Tables(s) && b in s.boards && s.boards[b].fifo != [] && Starts(s, t, b)
    ensures LosesOnly(s, t, HeadVictim(s, b))
  {
    hide Tables, InFifo, InPending, Done, Valid, Placed, WrittenOk, Starts;
    StartsLeave(s, t, b);
    HeadIsQueued(s, b);
    StartsAccepts(s, t, b);
    forall id: Id | id < |s.accepted| ensures Placed(t, id) <==> Placed(s, id) && HeadVictim(s, b) != Some(id) {
      PlaceAfterStart(s, t, b, id);
    }
  }

  lemma HeadIsQueued(s: Ctl, b: BoardId)
    requires Tables(s) && b in s.boards && s.boards[b].fifo != []
    ensures var e := s.boards[b].fifo[0];
            && InFifo(s, e.id) && s.accepted[e.id] == e
            && (e.boardSeq in s.pending.m ==>
                  var p := s.pending.m[e.boardSeq];
                  && WrittenOk(s, p) && !Done(s, p.id) && p.boardSeq == e.boardSeq
                  && p.id < |s.accepted| && Placed(s, p.id))
  {
    hide InFifo, Valid;
    var k := s.boards[b].fifo[0].boardSeq;
    QueueMember(s, b, 0);
    if k in s.pending.m {
      PendingEntryOk(s, k);
      VictimIsPlaced(s, k);
    }
  }

  lemma StartsAccepts(s: Ctl, t: Ctl, b: BoardId)
    requires b in s.boards && s.boards[b].fifo != [] && Starts(s, t, b)
    ensures t.accepted == s.accepted
  {
  }

  lemma VictimIsPlaced(s: Ctl, k: nat)
    requires Tables(s) && k in s.pending.m
    ensures s.pending.m[k].id < |s.accepted| && Placed(s, s.pending.m[k].id)
  {
    PendingEntryOk(s, k);
  }

  lemma PlaceAfterStart(s: Ctl, t: Ctl, b: BoardId, id: Id)
    requires b in s.boards && s.boards[b].fifo != [] && Starts(s, t, b) && id < |s.accepted|
    requires forall x :: InFifo(t, x) <==> InFifo(s, x) && x != s.boards[b].fifo[0].id
    requires var e := s.boards[b].fifo[0];
             && InFifo(s, e.id) && s.accepted[e.id] == e
             && (e.boardSeq in s.pending.m ==>
                   var p := s.pending.m[e.boardSeq];
                   WrittenOk(s, p) && !Done(s, p.id) && p.boardSeq == e.boardSeq)
    ensures Placed(t, id) <==> Placed(s, id) && HeadVictim(s, b) != Some(id)
  {
    hide InFifo, Valid;
    assert s.accepted[id].boardSeq != s.boards[b].fifo[0].boardSeq ==> (InPending(t, id) <==> InPending(s, id));
  }

  /** Beginning a write takes the place of exactly the command pending under its seq. */
  lemma StartWriteKeeps(s: Ctl, b: BoardId)
    requires Tables(s) && b in s.boards && s.boards[b].fifo != []
    ensures Tables(StartWrite(s, b)) && Starts(s, StartWrite(s, b), b)
    ensures LosesOnly(s, StartWrite(s, b), HeadVictim(s, b))
  {
    hide StartWrite, LosesOnly, Starts;
    StartWriteShape(s, b);
    StartsLoseOnly(s, StartWrite(s, b), b);
    StartsKeepTables(s, StartWrite(s, b), b);
  }

  lemma StartWriteValid(s: Ctl, b: BoardId)
    requires Valid(s) && b in s.boards && s.boards[b].fifo != []
    ensures Valid(StartWrite(s, b))
  {
    hide Dict.Set;
    var t := StartWrite(s, b);
    forall c, j | c in t.boards && 0 <= j < |t.boards[c].fifo| ensures t.boards[c].fifo[j].board == c {
      if c == b { assert t.boards[c].fifo[j] == s.boards[c].fifo[1 + j]; }
    }
    assert s.boards[b].fifo[0].board == b;
  }

  lemma StartWriteShape(s: Ctl, b: BoardId)
    requires Valid(s) && b in s.boards && s.boards[b].fifo != []
    ensures Starts(s, StartWrite(s, b), b)
  {
    StartWriteValid(s, b);
    PendingIsValid(s);
    hide Valid, Dict.Set;
  }

  lemma SoundIsValid(s: Ctl)
    requires Sound(s)
    ensures Valid(s)
  {
  }

  lemma BoardsListed(s: Ctl)
    requires Valid(s)
    ensures NoDup(s.cfg.boards) && forall b :: b in s.cfg.boards <==> b in s.boards
  {
  }

  lemma PendingIsValid(s: Ctl)
    requires Valid(s)
    ensures s.pending.Valid()
  {
  }

  lemma HeadLeaves(s: Ctl, t: Ctl, b: BoardId, id: Id)
    requires Tables(s) && b in s.boards && s.boards[b].fifo != []
    requires t.accepted == s.accepted && t.boards.Keys == s.boards.Keys
    requires t.boards[b].fifo == s.boards[b].fifo[1..]
    requires forall c :: c in s.boards && c != b ==> t.boards[c].fifo == s.boards[c].fifo
    ensures InFifo(t, id) <==> InFifo(s, id) && id != s.boards[b].fifo[0].id
  {
    var q := s.boards[b].fifo;
    QueueMember(s, b, 0);
    assert q == [q[0]] + q[1..];
    forall j | 0 <= j < |q[1..]| ensures q[1..][j].id != q[0].id { assert q[1..][j] == q[j + 1]; }
    if id < |s.accepted| { assert AcceptedOk(s, id); }
  }

  /** The next dispatch of board `b` would write over a live pending entry. */
  predicate Overwrites(s: Ctl, b: BoardId)
    requires b in s.boards
  {
    var q := s.boards[b].fifo;
    var n := StalePrefix(q, s.now);
    MayDispatch(s, b) && n < |q| && q[n].boardSeq in s.pending.m
  }

  lemma KeptThenNone(s: Ctl, t: Ctl, u: Ctl)
    requires KeepsAll(s, t) && NoneReturns(t, u)
    ensures NoneReturns(s, u) && (Conserved(s) <==> Conserved(t))
  {
    if Conserved(t) {
      forall id | 0 <= id < |s.accepted| ensures Placed(s, id) { assert Placed(t, id); }
    }
  }

  lemma StaleHead(s: Ctl, b: BoardId)
    requires b in s.boards
    ensures var q, n := s.boards[b].fifo, StalePrefix(s.boards[b].fifo, s.now);
            && DropStale(s, b).boards[b].fifo == q[n..] && DropStale(s, b).pending == s.pending
            && (n < |q| ==> q[n..] != [] && q[n..][0] == q[n])
            && (n == |q| ==> q[n..] == [])
  {
  }

  /** The command the next dispatch of `b` takes the place of, if any. */
  function DispatchVictim(s: Ctl, b: BoardId): Option<Id>
    requires b in s.boards
  {
    var q, n := s.boards[b].fifo, StalePrefix(s.boards[b].fifo, s.now);
    if Overwrites(s, b) then Some(s.pending.m[q[n].boardSeq].id) else None
  }

  lemma DispatchKeeps(s: Ctl, b: BoardId)
    requires Sound(s) && b in s.boards
    ensures Sound(DispatchNext(s, b))
    ensures LosesOnly(s, DispatchNext(s, b), DispatchVictim(s, b)) && Final(s, DispatchNext(s, b))
    ensures NoneReturns(s, DispatchNext(s, b))
  {
    hide LosesOnly, NoneReturns, KeepsAll, Sound, Final, DropStale, StartWrite, DispatchVictim;
    SoundIsValid(s);
    if MayDispatch(s, b) {
      DropStaleKeeps(s, b);
      KeptLosesNone(s, DropStale(s, b));
      HeadIsVictim(s, b);
      if DropStale(s, b).boards[b].fifo != [] { DispatchStarts(s, b); }
    } else {
      NoVictim(s, b);
      NoneLost(s);
    }
    LosesOnlyMeans(s, DispatchNext(s, b), DispatchVictim(s, b));
  }

  lemma NoVictim(s: Ctl, b: BoardId)
    requires b in s.boards && !MayDispatch(s, b)
    ensures DispatchVictim(s, b) == None && Final(s, s)
  {
  }

  /** The victim of a dispatch is the victim of the write it begins, if it begins one. */
  lemma HeadIsVictim(s: Ctl, b: BoardId)
    requires b in s.boards && MayDispatch(s, b)
    ensures var t := DropStale(s, b);
            b in t.boards && DispatchVictim(s, b) == if t.boards[b].fifo == [] then None else HeadVictim(t, b)
  {
    hide MayDispatch;
    StaleHead(s, b);
  }

  lemma DispatchStarts(s: Ctl, b: BoardId)
    requires Sound(s) && b in s.boards && MayDispatch(s, b)
    requires b in DropStale(s, b).boards && DropStale(s, b).boards[b].fifo != []
    requires Sound(DropStale(s, b)) && LosesOnly(s, DropStale(s, b), None) && Final(s, DropStale(s, b))
    requires DispatchVictim(s, b) == HeadVictim(DropStale(s, b), b)
    ensures var d := StartWrite(DropStale(s, b), b);
            Sound(d) && LosesOnly(s, d, DispatchVictim(s, b)) && Final(s, d)
  {
    hide LosesOnly, LedgerOk, Tables, DropStale, StartWrite, HeadVictim, DispatchVictim, Starts;
    var t := DropStale(s, b);
    StartWriteKeeps(t, b);
    VictimKnown(s, b);
    SoundIsValid(t);
    StartWriteBooks(t, b);
    LosesOnlyChain(s, t, StartWrite(t, b), DispatchVictim(s, b));
  }

  lemma NoneLost(s: Ctl)
    ensures LosesOnly(s, s, None)
  {
    hide Placed;
  }

  lemma StartWriteBooks(s: Ctl, b: BoardId)
    requires b in s.boards && s.boards[b].fifo != [] && s.pending.Valid()
    ensures StartWrite(s, b).ledger == s.ledger && StartWrite(s, b).accepted == s.accepted
  {
  }

  lemma VictimKnown(s: Ctl, b: BoardId)
    requires Tables(s) && b in s.boards
    ensures var v := DispatchVictim(s, b); v.Some? ==> v.value < |s.accepted| && InPending(s, v.value)
  {
    var q, n := s.boards[b].fifo, StalePrefix(s.boards[b].fifo, s.now);
    if Overwrites(s, b) { PendingEntryOk(s, q[n].boardSeq); }
  }

  // ----------------------------------------------------------------- routing

  /** `t` is `s` with one more accepted command at the tail of its board's queue. */
  ghost predicate Enqueues(s: Ctl, t: Ctl, e: Entry) {
    && Valid(t) && e.id == |s.accepted| && t.accepted == s.accepted + [e] && t.boards.Keys == s.boards.Keys
    && e.board in s.boards && e.boardSeq == s.boards[e.board].nextSeq <= UINT64_MAX
    && e.writtenAt.None? && e.executionTimeout <= MAX_COMMAND_TIMEOUT_S
    && t.boards[e.board].nextSeq == e.boardSeq + 1
    && t.boards[e.board].fifo == s.boards[e.board].fifo + [e]
    && (forall c :: c in s.boards && c != e.board ==>
       t.boards[c].fifo == s.boards[c].fifo && t.boards[c].nextSeq == s.boards[c].nextSeq)
    && t.pending == s.pending && t.writing == s.writing && t.timers == s.timers
    && t.ledger.outcome == s.ledger.outcome
  }

  lemma TailJoins(s: Ctl, t: Ctl, e: Entry, id: Id)
    requires Tables(s) && Enqueues(s, t, e)
    ensures InFifo(t, id) <==> InFifo(s, id) || id == e.id
  {
    var q := s.boards[e.board].fifo;
    assert (q + [e])[|q|] == e && t.accepted[|s.accepted|] == e;
    if id < |s.accepted| {
      assert AcceptedOk(s, id);
      assert t.accepted[id] == s.accepted[id] && t.accepted[id] != e;
    }
  }

  lemma EnqueuesAccept(s: Ctl, t: Ctl, e: Entry)
    requires Tables(s) && Enqueues(s, t, e)
    ensures forall id :: 0 <= id < |t.accepted| ==> AcceptedOk(t, id)
    ensures SeqsIncrease(t.accepted)
  {
    forall id | 0 <= id < |s.accepted| ensures AcceptedOk(t, id)
      && (s.accepted[id].board == e.board ==> s.accepted[id].boardSeq < e.boardSeq) {
      assert AcceptedOk(s, id);
    }
  }

  lemma EnqueuesKeepTables(s: Ctl, t: Ctl, e: Entry)
    requires Tables(s) && Enqueues(s, t, e)
    ensures Tables(t)
  {
    hide QueueOk, AcceptedOk, InFifo, WrittenOk, Valid;
    EnqueuesAccept(s, t, e);
    forall b | b in t.boards ensures QueueOk(t, t.boards[b].fifo) { TailQueue(s, t, e, b); }
    forall k | k in t.pending.m ensures WrittenOk(t, t.pending.m[k]) { TailWritten(s, t, e, s.pending.m[k]); }
    forall id | id in t.writing ensures WrittenOk(t, t.writing[id]) { TailWritten(s, t, e, s.writing[id]); }
  }

  lemma TailWritten(s: Ctl, t: Ctl, e: Entry, w: Entry)
    requires Tables(s) && Enqueues(s, t, e) && WrittenOk(s, w)
    ensures WrittenOk(t, w)
  {
    hide Tables, Valid, InFifo;
    TailJoins(s, t, e, w.id);
  }

  lemma TailQueue(s: Ctl, t: Ctl, e: Entry, b: BoardId)
    requires Tables(s) && Enqueues(s, t, e) && b in s.boards
    ensures QueueOk(t, t.boards[b].fifo)
  {
    var q := s.boards[b].fifo;
    forall j | 0 <= j < |q| ensures QueuedOk(t, q[j]) { assert QueuedOk(s, q[j]); }
    assert QueuedOk(t, e);
  }

  lemma EnqueuesLoseNone(s: Ctl, t: Ctl, e: Entry)
    requires Tables(s) && Enqueues(s, t, e)
    ensures LosesOnly(s, t, None)
  {
    forall id ensures InFifo(t, id) <==> InFifo(s, id) || id == e.id { TailJoins(s, t, e, id); }
    hide Tables, InFifo, Valid;
    forall id: Id | id < |s.accepted| ensures Placed(t, id) <==> Placed(s, id) {
      assert t.accepted[id] == s.accepted[id];
    }
  }

  lemma EnqueueShape(s: Ctl, c: Command)
    requires Tables(s) && c.target in s.boards && s.boards[c.target].nextSeq <= UINT64_MAX && !TimeoutTooLong(s, c)
    ensures Enqueues(s, Enqueue(s, c), Enqueue(s, c).accepted[|s.accepted|])
  {
  }

  lemma EnqueueKeeps(s: Ctl, c: Command)
    requires Sound(s) && c.target in s.boards && s.boards[c.target].nextSeq <= UINT64_MAX && !TimeoutTooLong(s, c)
    ensures Sound(Enqueue(s, c))
    ensures LosesOnly(s, Enqueue(s, c), None)
  {
    hide Tables, LosesOnly, LedgerOk, Enqueues;
    var t := Enqueue(s, c);
    var e := t.accepted[|s.accepted|];
    AcceptKeeps(s.ledger, s.accepted, e);
    EnqueueShape(s, c);
    EnqueuesKeepTables(s, t, e);
    EnqueuesLoseNone(s, t, e);
  }

  // --------------------------------------------------------- write resumption

  /** A finished write loses a command exactly when its own is settled already
      and another entry is pending under the same seq. */
  predicate DropsOther(s: Ctl, id: Id)
    requires id in s.writing
  {
    Done(s, id) && s.writing[id].boardSeq in s.pending.m
  }

  /** The write of `id` leaves; nothing else changes but its timer. */
  ghost predicate Arms(s: Ctl, t: Ctl, id: Id)
    requires id in s.writing
  {
    && Valid(t) && t.accepted == s.accepted && t.ledger == s.ledger && t.boards == s.boards
    && t.pending == s.pending && t.writing == s.writing - {id}
    && t.timers.asleep.Keys == s.timers.asleep.Keys + {id}
    && t.timers.asleep[id].boardSeq == s.writing[id].boardSeq
    && forall x :: x in s.timers.asleep && x != id ==> t.timers.asleep[x] == s.timers.asleep[x]
  }

  lemma ArmsKeepTables(s: Ctl, t: Ctl, id: Id)
    requires Tables(s) && id in s.writing && Arms(s, t, id)
    ensures Tables(t)
  {
    hide Tables, Shrinks;
    var u := t.(timers := s.timers);
    ArmsShrink(s, u, id);
    ShrinksKeepTables(s, u);
    ArmedSleepers(s, t, id);
    TimersApart(u, t);
  }

  lemma ArmedSleepers(s: Ctl, t: Ctl, id: Id)
    requires Tables(s) && id in s.writing && Arms(s, t, id)
    ensures forall x :: x in t.timers.asleep ==>
            x < |t.accepted| && t.timers.asleep[x].boardSeq == t.accepted[x].boardSeq
  {
    WritingEntryOk(s, id);
    SleepersOk(s);
    hide Tables, Valid;
  }

  lemma WritingEntryWritten(s: Ctl, id: Id)
    requires Tables(s) && id in s.writing
    ensures WrittenOk(s, s.writing[id])
  {
  }

  lemma WritingEntryOk(s: Ctl, id: Id)
    requires Tables(s) && id in s.writing
    ensures id < |s.accepted| && s.writing[id].boardSeq == s.accepted[id].boardSeq
  {
    assert WrittenOk(s, s.writing[id]);
  }

  lemma SleepersOk(s: Ctl)
    requires Tables(s)
    ensures forall id :: id in s.timers.asleep ==>
            id < |s.accepted| && s.timers.asleep[id].boardSeq == s.accepted[id].boardSeq
  {
  }

  lemma ArmsShrink(s: Ctl, u: Ctl, id: Id)
    requires Tables(s) && id in s.writing && Valid(u)
    requires u == s.(writing := s.writing - {id}, cfg := u.cfg, now := u.now,
      latched := u.latched, closing := u.closing, estopTasks := u.estopTasks, sent := u.sent, stranded := u.stranded)
    ensures Shrinks(s, u)
  {
    hide Valid;
    forall x ensures InFifo(u, x) <==> InFifo(s, x) { SameQueues(s, u, x); }
  }

  lemma SameValid(u: Ctl, t: Ctl)
    requires Valid(u) && t == u.(timers := t.timers)
    ensures Valid(t)
  {
  }

  lemma SameAccepted(u: Ctl, t: Ctl, id: Id)
    requires id < |u.accepted| && AcceptedOk(u, id) && t == u.(timers := t.timers)
    ensures AcceptedOk(t, id)
  {
  }

  lemma SameQueue(u: Ctl, t: Ctl, q: seq<Entry>)
    requires QueueOk(u, q) && t == u.(timers := t.timers)
    ensures QueueOk(t, q)
  {
    forall j | 0 <= j < |q| ensures QueuedOk(t, q[j]) { assert QueuedOk(u, q[j]); }
  }

  /** Tables differ only in timers that name accepted commands. */
  lemma TimersApart(u: Ctl, t: Ctl)
    requires Tables(u) && t == u.(timers := t.timers)
    requires forall id :: id in t.timers.asleep ==>
             id < |t.accepted| && t.timers.asleep[id].boardSeq == t.accepted[id].boardSeq
    ensures Tables(t)
  {
    hide InFifo, AcceptedOk, QueueOk, Valid;
    SameValid(u, t);
    forall x ensures InFifo(t, x) <==> InFifo(u, x) { SameQueues(u, t, x); }
    forall x | 0 <= x < |t.accepted| ensures AcceptedOk(t, x) { SameAccepted(u, t, x); }
    forall b | b in t.boards ensures QueueOk(t, t.boards[b].fifo) { SameQueue(u, t, t.boards[b].fifo); }
    forall k | k in t.pending.m ensures WrittenOk(t, t.pending.m[k]) { assert WrittenOk(u, u.pending.m[k]); }
    forall x | x in t.writing ensures WrittenOk(t, t.writing[x]) { assert WrittenOk(u, u.writing[x]); }
  }

  /** The write of `id` leaves and takes nothing but a pending entry with it. */
  ghost predicate Leaves(s: Ctl, t: Ctl, id: Id)
    requires id in s.writing
  {
    && t.cfg == s.cfg && t.accepted == s.accepted && t.ledger == s.ledger && t.boards.Keys == s.boards.Keys
    && (forall c :: c in s.boards ==>
       t.boards[c].fifo == s.boards[c].fifo && t.boards[c].nextSeq == s.boards[c].nextSeq)
    && t.pending.Valid() && t.writing == s.writing - {id} && t.timers == s.timers
    && t.pending.m == if Done(s, id) then s.pending.m - {s.writing[id].boardSeq} else s.pending.m
  }

  lemma LeavesShrink(s: Ctl, t: Ctl, id: Id)
    requires Valid(s) && id in s.writing && Leaves(s, t, id)
    requires forall b :: b in s.boards ==> s.boards[b].nextSeq <= UINT64_MAX + 1
    ensures Shrinks(s, t)
  {
  }

  lemma SameQueues(s: Ctl, t: Ctl, id: Id)
    requires t.accepted == s.accepted && t.boards.Keys == s.boards.Keys
    requires forall c :: c in s.boards ==> t.boards[c].fifo == s.boards[c].fifo
    ensures InFifo(t, id) <==> InFifo(s, id)
  {
  }

  /** The command a finished write pops that is not its own, if any. */
  function ResumeVictim(s: Ctl, id: Id): Option<Id>
    requires id in s.writing
  {
    if DropsOther(s, id) then Some(s.pending.m[s.writing[id].boardSeq].id) else None
  }

  lemma ResumeLosesOnly(s: Ctl, t: Ctl, id: Id)
    requires Tables(s) && id in s.writing
    requires t.accepted == s.accepted && t.ledger == s.ledger
    requires t.pending.m == if Done(s, id) then s.pending.m - {s.writing[id].boardSeq} else s.pending.m
    requires forall x :: InFifo(t, x) <==> InFifo(s, x)
    ensures LosesOnly(s, t, ResumeVictim(s, id))
  {
    var k := s.writing[id].boardSeq;
    if DropsOther(s, id) { PendingEntryOk(s, k); }
    hide Tables, InFifo;
    forall x: Id | x < |s.accepted| ensures Placed(t, x) <==> Placed(s, x) && ResumeVictim(s, id) != Some(x) {
      assert s.accepted[x].boardSeq != k ==> (InPending(t, x) <==> InPending(s, x));
    }
  }

  lemma ResumeFrame(s: Ctl, id: Id)
    requires Tables(s) && id in s.writing
    ensures var t := ResumeWrite(s, id);
            && t.accepted == s.accepted && t.ledger == s.ledger && t.boards.Keys == s.boards.Keys
            && t.pending.m == (if Done(s, id) then s.pending.m - {s.writing[id].boardSeq} else s.pending.m)
            && forall x :: InFifo(t, x) <==> InFifo(s, x)
  {
    hide Tables, Valid, InFifo;
    TablesAreValid(s);
    WritingBoard(s, id);
    PendingIsValid(s);
    var t := ResumeWrite(s, id);
    forall x ensures InFifo(t, x) <==> InFifo(s, x) { SameQueues(s, t, x); }
  }

  lemma ResumeKeeps(s: Ctl, id: Id)
    requires Tables(s) && id in s.writing
    ensures Tables(ResumeWrite(s, id))
    ensures LosesOnly(s, ResumeWrite(s, id), ResumeVictim(s, id))
  {
    hide ResumeWrite, LosesOnly;
    ResumeFrame(s, id);
    ResumeLosesOnly(s, ResumeWrite(s, id), id);
    ResumeKeepsTables(s, id);
  }

  lemma ResumeKeepsTables(s: Ctl, id: Id)
    requires Tables(s) && id in s.writing
    ensures Tables(ResumeWrite(s, id))
  {
    hide ResumeWrite, Leaves, Arms, Shrinks;
    var t := ResumeWrite(s, id);
    if Done(s, id) || s.closing {
      ResumeLeaves(s, id);
      LeavesShrink(s, t, id);
      ShrinksKeepTables(s, t);
    } else {
      ResumeArms(s, id);
      ArmsKeepTables(s, t, id);
    }
  }

  lemma ResumeLeaves(s: Ctl, id: Id)
    requires Valid(s) && id in s.writing && (Done(s, id) || s.closing)
    ensures Leaves(s, ResumeWrite(s, id), id)
  {
    WritingBoard(s, id);
    hide Valid;
  }

  lemma WritingBoard(s: Ctl, id: Id)
    requires Valid(s) && id in s.writing
    ensures s.writing[id].board in s.boards && s.pending.Valid()
  {
  }

  lemma ResumeArms(s: Ctl, id: Id)
    requires Valid(s) && id in s.writing && !Done(s, id) && !s.closing
    ensures Arms(s, ResumeWrite(s, id), id)
  {
  }

  lemma AbortKeeps(s: Ctl, id: Id)
    requires Tables(s) && id in s.writing
    ensures Tables(AbortWrite(s, id)) && KeepsAll(s, AbortWrite(s, id))
  {
    forall x ensures InFifo(AbortWrite(s, id), x) <==> InFifo(s, x) { SameQueues(s, AbortWrite(s, id), x); }
    assert Shrinks(s, AbortWrite(s, id));
    ShrinksKeepTables(s, AbortWrite(s, id));
  }
}
