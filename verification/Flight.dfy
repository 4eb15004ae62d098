/** The in-flight slot, the pending table, the suspended writes and the timers agree,
    as long as no step forfeits. */
module Flight {
  import opened Basics
  import opened Protocol
  import opened Controller
  import opened Accounts
  import opened Conservation
  import opened Steps
  import opened Resolvers
  import opened Loss

  /** Sleeping timeout tasks and the table of armed timers match one to one. */
  ghost predicate Paired(t: Timers) {
    && (forall k :: k in t.armed ==> t.armed[k] in t.asleep && t.asleep[t.armed[k]].boardSeq == k)
    && (forall id :: id in t.asleep ==> t.asleep[id].boardSeq in t.armed && t.armed[t.asleep[id].boardSeq] == id)
  }

  predicate ExactlyOne(a: bool, b: bool, c: bool) {
    (a || b || c) && !(a && b) && !(a && c) && !(b && c)
  }

  /** Slot `s` taken iff that board's pending entries are exactly {s}; timers only
      for pending entries; each of those has its write suspended, or its timer
      armed, or is stranded by a write that ended without arming one. */
  ghost predicate InFlightOk(s: Ctl) {
    && (forall b :: b in s.boards && s.boards[b].inFlight.Some? ==>
          && s.boards[b].inFlight.value in s.pending.m
          && s.pending.m[s.boards[b].inFlight.value].board == b)
    && (forall k :: k in s.pending.m ==>
          && s.pending.m[k].board in s.boards
          && s.boards[s.pending.m[k].board].inFlight == Some(k))
    && Paired(s.timers)
    && (forall k :: k in s.timers.armed ==> k in s.pending.m && s.timers.armed[k] == s.pending.m[k].id)
    && (forall k :: k in s.pending.m ==> CoveredOnce(s, k))
    && (forall id :: id in s.stranded ==> id < |s.accepted| && !InFifo(s, id))
  }

  predicate CoveredOnce(s: Ctl, k: nat)
    requires k in s.pending.m
  {
    ExactlyOne(s.pending.m[k].id in s.writing, k in s.timers.armed, s.pending.m[k].id in s.stranded)
  }

  // ----------------------------------------------------------------- timers

  lemma CancelKeepsPairs(t: Timers, k: nat)
    requires Paired(t)
    ensures Paired(CancelTimeout(t, k))
  {
  }

  lemma {:induction false} CancelAllKeepsPairs(t: Timers, ks: seq<nat>)
    requires Paired(t)
    ensures Paired(CancelAll(t, ks))
    decreases |ks|
  {
    if ks != [] {
      CancelKeepsPairs(t, ks[0]);
      CancelAllKeepsPairs(CancelTimeout(t, ks[0]), ks[1..]);
    }
  }

  // ------------------------------------------------------------- one by one

  /** Queues may shrink; everything this invariant speaks of is unchanged. */
  lemma SlotsSame(s: Ctl, t: Ctl)
    requires InFlightOk(s)
    requires t.boards.Keys == s.boards.Keys && forall b :: b in s.boards ==>
             t.boards[b].inFlight == s.boards[b].inFlight
    requires t.pending.m == s.pending.m && t.timers == s.timers && t.writing == s.writing && t.stranded == s.stranded
    requires |s.accepted| <= |t.accepted| && forall id :: 0 <= id < |s.accepted| && InFifo(t, id) ==> InFifo(s, id)
    ensures InFlightOk(t)
  {
    forall k | k in t.pending.m ensures CoveredOnce(t, k) { assert CoveredOnce(s, k); }
  }

  /** Pending entries leave together with their slots and timers. */
  lemma SlotsFreed(s: Ctl, t: Ctl)
    requires InFlightOk(s)
    requires t.boards.Keys == s.boards.Keys && t.accepted == s.accepted
    requires t.writing == s.writing && t.stranded == s.stranded
    requires forall k :: k in t.pending.m ==> k in s.pending.m && t.pending.m[k] == s.pending.m[k]
    requires forall b :: b in s.boards ==>
               t.boards[b].inFlight == if s.boards[b].inFlight.Some? && s.boards[b].inFlight.value in t.pending.m
                                       then s.boards[b].inFlight else None
    requires Paired(t.timers)
    requires forall k :: k in t.timers.armed <==> k in s.timers.armed && k in t.pending.m
    requires forall k :: k in t.timers.armed ==> t.timers.armed[k] == s.timers.armed[k]
    requires forall id :: InFifo(t, id) ==> InFifo(s, id)
    ensures InFlightOk(t)
  {
    forall k | k in t.pending.m ensures CoveredOnce(t, k) { assert CoveredOnce(s, k); }
  }

  lemma StartsCover(s: Ctl, t: Ctl, b: BoardId, k: nat)
    requires Tables(s) && InFlightOk(s) && b in s.boards && s.boards[b].fifo != [] && Starts(s, t, b)
    requires s.boards[b].fifo[0].boardSeq !in s.pending.m && t.stranded == s.stranded && k in t.pending.m
    ensures CoveredOnce(t, k)
  {
    var e := s.boards[b].fifo[0];
    QueueMember(s, b, 0);
    if k != e.boardSeq {
      assert CoveredOnce(s, k) && WrittenOk(s, s.pending.m[k]);
    }
  }

  lemma StartsInFlight(s: Ctl, t: Ctl, b: BoardId)
    requires Tables(s) && InFlightOk(s) && b in s.boards && s.boards[b].fifo != [] && Starts(s, t, b)
    requires s.boards[b].inFlight.None? && s.boards[b].fifo[0].boardSeq !in s.pending.m
    requires forall c :: c in s.boards ==>
               t.boards[c].inFlight == if c == b then Some(s.boards[b].fifo[0].boardSeq) else s.boards[c].inFlight
    requires t.stranded == s.stranded
    ensures InFlightOk(t)
  {
    hide Tables, InFlightOk, CoveredOnce, InFifo, InPending;
    StartsLeave(s, t, b);
    forall k | k in t.pending.m ensures CoveredOnce(t, k) { StartsCover(s, t, b, k); }
    HeadBoard(s, b);
    OneMoreInFlight(s, t, b, s.boards[b].fifo[0].boardSeq);
  }

  lemma HeadBoard(s: Ctl, b: BoardId)
    requires Tables(s) && b in s.boards && s.boards[b].fifo != []
    ensures s.boards[b].fifo[0].board == b
  {
  }

  /** The free slot of `b` takes a seq that was not pending. */
  lemma OneMoreInFlight(s: Ctl, t: Ctl, b: BoardId, k: nat)
    requires InFlightOk(s) && b in s.boards && s.boards[b].inFlight.None? && k !in s.pending.m
    requires t.accepted == s.accepted && t.boards.Keys == s.boards.Keys
    requires t.timers == s.timers && t.stranded == s.stranded
    requires t.pending.m.Keys == s.pending.m.Keys + {k} && t.pending.m[k].board == b
    requires forall j :: j in s.pending.m ==> t.pending.m[j] == s.pending.m[j]
    requires forall c :: c in s.boards ==> t.boards[c].inFlight == if c == b then Some(k) else s.boards[c].inFlight
    requires forall id :: InFifo(t, id) ==> InFifo(s, id)
    requires forall j :: j in t.pending.m ==> CoveredOnce(t, j)
    ensures InFlightOk(t)
  {
    hide CoveredOnce, InFifo;
  }

  lemma DropFrame(s: Ctl, b: BoardId)
    requires b in s.boards
    ensures var t := DropStale(s, b);
            && t.boards.Keys == s.boards.Keys
               && (forall c :: c in s.boards ==> t.boards[c].inFlight == s.boards[c].inFlight)
            && t.pending == s.pending && t.timers == s.timers && t.writing == s.writing && t.stranded == s.stranded
            && t.accepted == s.accepted
  {
  }

  lemma DropStaleInFlight(s: Ctl, b: BoardId)
    requires Sound(s) && InFlightOk(s) && b in s.boards
    ensures InFlightOk(DropStale(s, b))
  {
    hide DropStale, Sound, InFlightOk, IsSuffix;
    var t := DropStale(s, b);
    DropStaleKeeps(s, b);
    DropFrame(s, b);
    forall id ensures InFifo(t, id) ==> InFifo(s, id) { SuffixIn(s, t, id); }
    SlotsSame(s, t);
  }

  lemma DispatchInFlight(s: Ctl, b: BoardId)
    requires Sound(s) && InFlightOk(s) && b in s.boards && !Overwrites(s, b)
    ensures InFlightOk(DispatchNext(s, b))
  {
    hide InFlightOk, LedgerOk, Shrinks, KeepsAll, Final, StartWrite, DropStale;
    if MayDispatch(s, b) {
      var t := DropStale(s, b);
      DropStaleKeeps(s, b);
      DropStaleInFlight(s, b);
      DropFrame(s, b);
      StaleHead(s, b);
      if t.boards[b].fifo != [] {
        StartInFlight(t, b);
      }
    }
  }

  lemma StartInFlight(s: Ctl, b: BoardId)
    requires Tables(s) && InFlightOk(s) && b in s.boards && s.boards[b].fifo != []
    requires s.boards[b].inFlight.None? && s.boards[b].fifo[0].boardSeq !in s.pending.m
    ensures InFlightOk(StartWrite(s, b))
  {
    hide InFlightOk, Starts;
    StartWriteShape(s, b);
    StartsInFlight(s, StartWrite(s, b), b);
  }

  lemma EnqueuesInFlight(s: Ctl, t: Ctl, e: Entry)
    requires Tables(s) && InFlightOk(s) && Enqueues(s, t, e)
    requires forall b :: b in s.boards ==> t.boards[b].inFlight == s.boards[b].inFlight
    requires t.stranded == s.stranded
    ensures InFlightOk(t)
  {
    forall id | 0 <= id < |s.accepted| && InFifo(t, id) ensures InFifo(s, id) { TailJoins(s, t, e, id); }
    SlotsSame(s, t);
  }

  lemma EnqueueInFlight(s: Ctl, c: Command)
    requires Sound(s) && InFlightOk(s) && Accepts(s, c)
    ensures InFlightOk(Enqueue(s, c))
  {
    EnqueueShape(s, c);
    EnqueuesInFlight(s, Enqueue(s, c), Enqueue(s, c).accepted[|s.accepted|]);
  }

  lemma MatchedInFlight(s: Ctl, r: BoardReply)
    requires Valid(s) && InFlightOk(s) && r.boardSeq in s.pending.m
    ensures InFlightOk(Matched(s, r))
  {
    var t := Matched(s, r);
    CancelKeepsPairs(s.timers, r.boardSeq);
    CancelShrinks(s.timers, r.boardSeq);
    forall id ensures InFifo(t, id) <==> InFifo(s, id) { SameQueues(s, t, id); }
    SlotsFreed(s, t);
  }

  lemma TimedOutInFlight(s: Ctl, id: Id)
    requires Valid(s) && InFlightOk(s) && id in s.timers.asleep && s.timers.asleep[id].boardSeq in s.pending.m
    ensures InFlightOk(TimedOut(s, id))
  {
    hide TimedOut, InFifo, Paired, CancelTimeout, CoveredOnce, Valid;
    var t := TimedOut(s, id);
    var k := s.timers.asleep[id].boardSeq;
    ArePaired(s);
    TimedOutSlots(s, id);
    CancelKeepsPairs(s.timers, k);
    CancelShrinks(s.timers, k);
    forall x ensures InFifo(t, x) <==> InFifo(s, x) { SameQueues(s, t, x); }
    SlotsFreed(s, t);
  }

  lemma TimedOutSlots(s: Ctl, id: Id)
    requires Valid(s) && Paired(s.timers) && id in s.timers.asleep && s.timers.asleep[id].boardSeq in s.pending.m
    ensures var t, k := TimedOut(s, id), s.timers.asleep[id].boardSeq;
            && t.timers == CancelTimeout(s.timers, k) && t.pending.m == s.pending.m - {k}
            && t.accepted == s.accepted && t.writing == s.writing && t.stranded == s.stranded
               && t.boards.Keys == s.boards.Keys
            && forall c :: c in s.boards ==>
                 && t.boards[c].fifo == s.boards[c].fifo
                 && t.boards[c].inFlight == if c == s.pending.m[k].board && s.boards[c].inFlight == Some(k) then None
                                            else s.boards[c].inFlight
  {
    hide ResolveError, Valid, Dict.Pop, Paired;
    PendingBoard(s, s.timers.asleep[id].boardSeq);
    PairedTimer(s.timers, id);
  }

  lemma PairedTimer(t: Timers, id: Id)
    requires Paired(t) && id in t.asleep
    ensures t.asleep[id].boardSeq in t.armed && t.armed[t.asleep[id].boardSeq] == id
  {
  }

  lemma PendingBoard(s: Ctl, k: nat)
    requires Valid(s) && k in s.pending.m
    ensures s.pending.Valid() && s.pending.m[k].board in s.boards && s.pending.m[k].boardSeq == k
  {
  }

  lemma TimersFindTheirEntry(s: Ctl, id: Id)
    requires InFlightOk(s) && id in s.timers.asleep
    ensures s.timers.asleep[id].boardSeq in s.pending.m && s.pending.m[s.timers.asleep[id].boardSeq].id == id
  {
  }

  lemma ResumeFlags(s: Ctl, t: Ctl, id: Id)
    requires InFlightOk(s) && Tables(s) && id in s.writing && !DropsOther(s, id)
    requires Done(s, id) || s.closing
    requires t.accepted == s.accepted && t.boards.Keys == s.boards.Keys && t.pending.m == s.pending.m
    requires forall b :: b in s.boards ==> t.boards[b].inFlight == s.boards[b].inFlight
    requires forall x :: InFifo(t, x) <==> InFifo(s, x)
    requires t.timers == s.timers && t.writing == s.writing - {id}
    requires t.stranded == if Done(s, id) then s.stranded else s.stranded + {id}
    ensures InFlightOk(t)
  {
    hide Tables, InFifo, Paired, CoveredOnce, DropsOther;
    NotQueued(s, id);
    forall k | k in t.pending.m ensures CoveredOnce(t, k) { ResumeCover(s, t, id, k); }
  }

  lemma NotQueued(s: Ctl, id: Id)
    requires Tables(s) && id in s.writing
    ensures id < |s.accepted| && !InFifo(s, id)
  {
    assert WrittenOk(s, s.writing[id]);
  }

  lemma ResumeCover(s: Ctl, t: Ctl, id: Id, k: nat)
    requires InFlightOk(s) && Tables(s) && id in s.writing && k in s.pending.m && (Done(s, id) || s.closing)
    requires t.pending.m == s.pending.m && t.timers == s.timers && t.writing == s.writing - {id}
    requires t.stranded == if Done(s, id) then s.stranded else s.stranded + {id}
    ensures CoveredOnce(t, k)
  {
    assert CoveredOnce(s, k);
    PendingEntryOk(s, k);
  }

  lemma ArmsCover(s: Ctl, t: Ctl, id: Id, k: nat)
    requires InFlightOk(s) && Tables(s) && k in s.pending.m && s.pending.m[k].id == id && id in s.writing
    requires t.pending == s.pending && t.stranded == s.stranded && t.writing == s.writing - {id}
    requires t.timers.armed == s.timers.armed[k := id]
    ensures forall j :: j in t.pending.m ==> CoveredOnce(t, j)
  {
    assert CoveredOnce(s, k) && WrittenOk(s, s.pending.m[k]);
    forall j | j in t.pending.m ensures CoveredOnce(t, j) {
      assert CoveredOnce(s, j) && WrittenOk(s, s.pending.m[j]);
    }
  }

  lemma ArmsPair(s: Timers, t: Timers, id: Id, k: nat)
    requires Paired(s) && k !in s.armed && t.armed == s.armed[k := id]
    requires t.asleep.Keys == s.asleep.Keys + {id} && t.asleep[id].boardSeq == k
    requires forall x :: x in s.asleep && x != id ==> t.asleep[x] == s.asleep[x]
    requires id !in s.asleep
    ensures Paired(t)
  {
  }

  lemma ResumeArms(s: Ctl, t: Ctl, id: Id)
    requires InFlightOk(s) && Tables(s) && Conserved(s) && id in s.writing && !Done(s, id)
    requires t.accepted == s.accepted && t.boards == s.boards && t.pending == s.pending && t.stranded == s.stranded
    requires t.writing == s.writing - {id}
    requires t.timers.armed == s.timers.armed[s.writing[id].boardSeq := id]
    requires t.timers.asleep.Keys == s.timers.asleep.Keys + {id}
    requires t.timers.asleep[id].boardSeq == s.writing[id].boardSeq
    requires forall x :: x in s.timers.asleep && x != id ==> t.timers.asleep[x] == s.timers.asleep[x]
    ensures InFlightOk(t)
  {
    var k := s.writing[id].boardSeq;
    WrittenIsPending(s, id);
    ArmsCover(s, t, id, k);
    hide Tables, Conserved, InFifo, CoveredOnce, InFlightOk, Paired;
    ArePaired(s);
    ArmsPair(s.timers, t.timers, id, k);
    forall x ensures InFifo(t, x) <==> InFifo(s, x) { SameQueues(s, t, x); }
    ArmedInFlight(s, t, id, k);
  }

  lemma ArmedInFlight(s: Ctl, t: Ctl, id: Id, k: nat)
    requires InFlightOk(s) && k in s.pending.m && s.pending.m[k].id == id
    requires t.accepted == s.accepted && t.boards == s.boards && t.pending == s.pending && t.stranded == s.stranded
    requires t.timers.armed == s.timers.armed[k := id] && Paired(t.timers)
    requires forall j :: j in t.pending.m ==> CoveredOnce(t, j)
    requires forall x :: InFifo(t, x) ==> InFifo(s, x)
    ensures InFlightOk(t)
  {
    hide CoveredOnce, Paired, InFifo;
  }

  lemma WrittenIsPending(s: Ctl, id: Id)
    requires InFlightOk(s) && Tables(s) && Conserved(s) && id in s.writing && !Done(s, id)
    ensures var k := s.writing[id].boardSeq;
            && k in s.pending.m && s.pending.m[k].id == id && k !in s.timers.armed && id !in s.timers.asleep
  {
    var k := s.writing[id].boardSeq;
    assert WrittenOk(s, s.writing[id]) && Placed(s, id);
    assert CoveredOnce(s, k);
  }

  /** Neither the boards nor the pending table notice a write that ends. */
  lemma ResumeStays(s: Ctl, id: Id)
    requires Valid(s) && InFlightOk(s) && id in s.writing && !DropsOther(s, id)
    ensures var t := ResumeWrite(s, id); t.boards == s.boards && t.pending.m == s.pending.m
  {
  }

  lemma ResumeShape(s: Ctl, id: Id)
    requires Valid(s) && id in s.writing
    ensures var t, k := ResumeWrite(s, id), s.writing[id].boardSeq;
            && t.accepted == s.accepted && t.writing == s.writing - {id}
            && (Done(s, id) || s.closing ==>
                  t.timers == s.timers && t.stranded == if Done(s, id) then s.stranded else s.stranded + {id})
            && (!Done(s, id) && !s.closing ==>
                  && t.pending == s.pending && t.stranded == s.stranded && t.timers.armed == s.timers.armed[k := id]
                  && t.timers.asleep.Keys == s.timers.asleep.Keys + {id} && t.timers.asleep[id].boardSeq == k
                  && forall x :: x in s.timers.asleep && x != id ==> t.timers.asleep[x] == s.timers.asleep[x])
  {
    hide Valid;
    assert s.writing[id].board in s.boards && s.pending.Valid() by { WritingBoard(s, id); }
  }

  lemma ResumeInFlight(s: Ctl, id: Id)
    requires Sound(s) && InFlightOk(s) && Conserved(s) && id in s.writing && !DropsOther(s, id)
    ensures InFlightOk(ResumeWrite(s, id))
  {
    hide ResumeWrite, InFlightOk, LedgerOk, Conserved;
    var t := ResumeWrite(s, id);
    ResumeFrame(s, id);
    ResumeShape(s, id);
    ResumeStays(s, id);
    if Done(s, id) || s.closing {
      ResumeFlags(s, t, id);
    } else {
      ResumeArms(s, t, id);
    }
  }

  lemma AbortInFlight(s: Ctl, id: Id)
    requires Tables(s) && InFlightOk(s) && id in s.writing
    ensures InFlightOk(AbortWrite(s, id))
  {
    var t := AbortWrite(s, id);
    assert WrittenOk(s, s.writing[id]);
    forall x ensures InFifo(t, x) <==> InFifo(s, x) { SameQueues(s, t, x); }
    forall k | k in t.pending.m ensures CoveredOnce(t, k) { assert CoveredOnce(s, k); }
  }

  lemma BoardDownInFlight(s: Ctl, b: BoardId)
    requires Sound(s) && InFlightOk(s) && b in s.boards
    ensures InFlightOk(BoardDown(s, b))
  {
    hide BoardDown, InFlightOk, Tables, LedgerOk, Valid, Paired, InFifo, Dict.Values;
    SoundIsValid(s);
    var t := BoardDown(s, b);
    var lost := OnBoard(s.pending.Values(), b);
    BoardDownClears(s, b);
    DownSlots(s, b);
    ArePaired(s);
    CancelAllKeepsPairs(s.timers, SeqsOf(lost));
    PendingValues(s);
    WithdrawnTimers(s, lost);
    forall id ensures InFifo(t, id) ==> InFifo(s, id) { ClearedFifo(s, t, b, id); }
    ClearedSlots(s, t, b);
    SlotsFreed(s, t);
  }

  lemma ArePaired(s: Ctl)
    requires InFlightOk(s)
    ensures Paired(s.timers)
  {
  }

  lemma ClearedFifo(s: Ctl, t: Ctl, b: BoardId, id: Id)
    requires t.accepted == s.accepted && t.boards.Keys == s.boards.Keys
    requires forall c :: c in s.boards ==> t.boards[c].fifo == if c == b then [] else s.boards[c].fifo
    ensures InFifo(t, id) ==> InFifo(s, id)
  {
  }

  /** Slots are freed together with the pending entries of their board. */
  lemma ClearedSlots(s: Ctl, t: Ctl, b: BoardId)
    requires InFlightOk(s) && Valid(s) && b in s.boards && t.boards.Keys == s.boards.Keys
    requires forall c :: c in s.boards ==> t.boards[c].inFlight == if c == b then None else s.boards[c].inFlight
    requires forall k :: k in t.pending.m <==> k in s.pending.m && s.pending.m[k] !in OnBoard(s.pending.Values(), b)
    ensures forall c :: c in s.boards ==>
              t.boards[c].inFlight == if s.boards[c].inFlight.Some? && s.boards[c].inFlight.value in t.pending.m
                                      then s.boards[c].inFlight else None
  {
    PendingValues(s);
  }

  lemma DownSlots(s: Ctl, b: BoardId)
    requires Valid(s) && b in s.boards
    ensures var t, u := BoardDown(s, b), Withdraw(s, OnBoard(s.pending.Values(), b));
            && t.pending == u.pending && t.timers == u.timers && t.stranded == s.stranded
            && u.timers == CancelAll(s.timers, SeqsOf(OnBoard(s.pending.Values(), b)))
            && t.boards.Keys == s.boards.Keys
            && forall c :: c in s.boards ==> t.boards[c].inFlight == if c == b then None else s.boards[c].inFlight
  {
    hide OnBoard, SeqsOf, CancelAll, Dict.PopAll, Dict.Values, ResolveAll;
  }

  lemma WithdrawnTimers(s: Ctl, es: seq<Entry>)
    requires Valid(s) && InFlightOk(s) && forall e :: e in es ==>
             e.boardSeq in s.pending.m && s.pending.m[e.boardSeq] == e
    ensures var t := Withdraw(s, es);
            && (forall k :: k in t.timers.armed <==> k in s.timers.armed && k in t.pending.m)
            && (forall k :: k in t.timers.armed ==> t.timers.armed[k] == s.timers.armed[k])
  {
    CancelAllShrinks(s.timers, SeqsOf(es));
  }

  lemma NothingPendingAfterFail(s: Ctl)
    requires Valid(s)
    ensures FailRemaining(s).pending.m == map[]
  {
    var lost := s.pending.Values();
    PendingValues(s);
    WithdrawnPending(s, lost);
    assert forall k :: k in s.pending.m ==> s.pending.m[k] in lost;
    assert FailRemaining(s).pending == s.pending.PopAll(SeqsOf(lost));
  }

  lemma FailRemainingInFlight(s: Ctl)
    requires Sound(s) && InFlightOk(s)
    ensures InFlightOk(FailRemaining(s))
  {
    var t := FailRemaining(s);
    var lost := s.pending.Values();
    PendingValues(s);
    NothingPendingAfterFail(s);
    CancelAllKeepsPairs(s.timers, SeqsOf(lost));
    WithdrawnTimers(s, lost);
    AllSlotsFreed(s, t);
  }

  lemma AllSlotsFreed(s: Ctl, t: Ctl)
    requires InFlightOk(s) && t.boards.Keys == s.boards.Keys && t.accepted == s.accepted && t.stranded == s.stranded
    requires t.pending.m == map[] && Paired(t.timers)
    requires forall b :: b in t.boards ==> t.boards[b].inFlight.None? && t.boards[b].fifo == []
    requires forall k :: k in t.timers.armed ==> k in t.pending.m
    ensures InFlightOk(t)
  {
  }

  lemma TriggerInFlight(s: Ctl)
    requires Valid(s) && InFlightOk(s)
    ensures InFlightOk(TriggerEstop(s))
  {
    var t := TriggerEstop(s);
    forall id ensures InFifo(t, id) ==> InFifo(s, id) {}
    SlotsSame(s, t);
  }
}
