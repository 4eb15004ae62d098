/** Bounded completion. Writes take at most W, timers fire on time, a session that
    has ended is reported down within T: then every accepted command is answered
    within (fifoDepth + 1) * (W + 10 s) + T of being accepted. */
module Timing {
  import opened Basics
  import opened Protocol
  import opened SchemaGate
  import opened Controller
  import opened Accounts
  import opened Conservation
  import opened Steps
  import opened Resolvers
  import opened System
  import opened Loss
  import opened Distinct
  import opened Safety
  import opened SafetyRuns
  import opened Flight
  import opened Service
  import opened Slots

  /** `n` turns of length `k`. */
  function Turns(n: nat, k: real): real { if n == 0 then 0.0 else k + Turns(n - 1, k) }

  lemma {:induction false} TurnsIsProduct(n: nat, k: real)
    ensures Turns(n, k) == n as real * k
  {
    if n > 0 { TurnsIsProduct(n - 1, k); }
  }

  lemma {:induction false} TurnsGrow(m: nat, n: nat, k: real)
    requires m <= n && k >= 0.0
    ensures Turns(m, k) <= Turns(n, k)
  {
    if m < n { TurnsGrow(m, n - 1, k); }
  }

  /** Write bound and teardown bound. */
  datatype Limits = Limits(w: real, t: real) {
    predicate Sane() { w >= 0.0 && t >= 0.0 }
    function Turn(): real { w + MAX_COMMAND_TIMEOUT_S }
  }

  /** Time may pass only while nothing is overdue. */
  ghost predicate Punctual(s: Sys, e: Event, lim: Limits) {
    e.Tick? ==>
      var later := s.ctl.now + e.elapsed;
      && (forall id :: id in s.ctl.writing && s.ctl.writing[id].writtenAt.Some? ==>
         later <= s.ctl.writing[id].writtenAt.value + lim.w)
      && (forall id :: id in s.ctl.timers.asleep ==> later <= s.ctl.timers.asleep[id].deadline)
      && (forall b :: b in s.phase && s.phase[b] == Ending && b in s.hist.endedAt ==>
         later <= s.hist.endedAt[b] + lim.t)
  }

  /** The events under which the bound is promised. */
  ghost predicate Timely(s: Sys, e: Event, lim: Limits) {
    Punctual(s, e, lim) && !e.WriteRaises? && !e.ShutdownBegins?
  }

  // --------------------------------------------------------------- invariant

  function Due(c: Ctl, e: Entry, lim: Limits): real { e.enqueuedAt + Turns(c.cfg.fifoDepth + 1, lim.Turn()) }

  ghost predicate WritesOnTime(c: Ctl, lim: Limits) {
    forall id :: id in c.writing ==>
      c.writing[id].writtenAt.Some? && c.writing[id].writtenAt.value <= c.now <= c.writing[id].writtenAt.value + lim.w
  }

  ghost predicate TimersOnTime(c: Ctl, lim: Limits) {
    && (forall id :: id in c.timers.asleep ==> c.now <= c.timers.asleep[id].deadline)
    && (forall k :: k in c.timers.armed && c.timers.armed[k] in c.timers.asleep && k in c.pending.m ==>
          c.pending.m[k].writtenAt.Some? ==>
            c.timers.asleep[c.timers.armed[k]].deadline <= c.pending.m[k].writtenAt.value + lim.Turn())
  }

  ghost predicate PendingOnTime(c: Ctl, lim: Limits) {
    forall k :: k in c.pending.m ==>
      var e := c.pending.m[k];
      e.writtenAt.Some? && e.writtenAt.value <= c.now && e.writtenAt.value + lim.Turn() <= Due(c, e, lim)
  }

  /** The entry at position `i` waits at most `i + 2` turns from the time the
      command in flight was written. */
  ghost predicate Waits(c: Ctl, b: BoardId, i: nat, lim: Limits)
    requires b in c.boards && i < |c.boards[b].fifo|
  {
    var slot := c.boards[b].inFlight;
    && slot.Some? && slot.value in c.pending.m && c.pending.m[slot.value].writtenAt.Some?
    && c.pending.m[slot.value].writtenAt.value + Turns(i + 2, lim.Turn()) <= Due(c, c.boards[b].fifo[i], lim)
  }

  ghost predicate QueueOnTime(c: Ctl, b: BoardId, lim: Limits)
    requires b in c.boards
  {
    Ready(c.boards[b]) ==> forall i: nat :: i < |c.boards[b].fifo| ==> Waits(c, b, i, lim)
  }

  ghost predicate EndedOnTime(s: Sys, b: BoardId, lim: Limits)
    requires b in s.phase && b in s.ctl.boards
  {
    && (s.phase[b] == Live ==> Ready(s.ctl.boards[b]))
    && (s.phase[b] == Ending ==>
          && b in s.hist.endedAt && s.hist.endedAt[b] <= s.ctl.now <= s.hist.endedAt[b] + lim.t
          && (!Ready(s.ctl.boards[b]) ==>
                forall e :: e in s.ctl.boards[b].fifo ==> s.hist.endedAt[b] <= Due(s.ctl, e, lim)))
  }

  /** A pending entry whose write is suspended is the one being written. */
  ghost predicate SameStamp(c: Ctl) {
    forall k :: k in c.pending.m && c.pending.m[k].id in c.writing ==> c.writing[c.pending.m[k].id] == c.pending.m[k]
  }

  ghost predicate CtlOnTime(c: Ctl, lim: Limits) {
    && !c.closing && SameStamp(c) && WritesOnTime(c, lim) && TimersOnTime(c, lim) && PendingOnTime(c, lim)
    && forall b :: b in c.boards ==> QueueOnTime(c, b, lim)
  }

  ghost predicate OnTime(s: Sys, lim: Limits) {
    && CtlOnTime(s.ctl, lim) && s.phase.Keys == s.ctl.boards.Keys
    && forall b :: b in s.phase ==> EndedOnTime(s, b, lim)
  }

  // ---------------------------------------------------------------- dispatch

  /** After its slot was freed: the queue of `b` can afford to start over now. */
  ghost predicate Affords(c: Ctl, b: BoardId, lim: Limits)
    requires b in c.boards
  {
    forall i: nat :: i < |c.boards[b].fifo| ==> c.now + Turns(i + 1, lim.Turn()) <= Due(c, c.boards[b].fifo[i], lim)
  }

  /** The queue of `x` and the command in its slot stand still. */
  lemma QueueStands(c: Ctl, d: Ctl, x: BoardId, lim: Limits)
    requires x in c.boards && x in d.boards && d.cfg == c.cfg && QueueOnTime(c, x, lim)
    requires Ready(d.boards[x]) && d.boards[x].fifo != [] ==> Ready(c.boards[x])
    requires (d.boards[x].fifo == c.boards[x].fifo && d.boards[x].inFlight == c.boards[x].inFlight)
             || d.boards[x].fifo == []
    requires var slot := c.boards[x].inFlight;
             d.boards[x].fifo != [] && slot.Some? && slot.value in c.pending.m ==>
               slot.value in d.pending.m && d.pending.m[slot.value] == c.pending.m[slot.value]
    ensures QueueOnTime(d, x, lim)
  {
    forall i: nat | Ready(d.boards[x]) && i < |d.boards[x].fifo| ensures Waits(d, x, i, lim) {
      assert Waits(c, x, i, lim);
    }
  }

  lemma FreedAffords(c: Ctl, b: BoardId, f: Entry, q: seq<Entry>, lim: Limits)
    requires lim.Sane() && b in c.boards && c.boards[b].fifo == q && f.writtenAt.Some?
    requires c.now <= f.writtenAt.value + lim.Turn()
    requires forall i: nat :: i < |q| ==> f.writtenAt.value + Turns(i + 2, lim.Turn()) <= Due(c, q[i], lim)
    ensures Affords(c, b, lim)
  {
    forall i: nat | i < |q| ensures c.now + Turns(i + 1, lim.Turn()) <= Due(c, q[i], lim) {
      assert Turns(i + 2, lim.Turn()) == lim.Turn() + Turns(i + 1, lim.Turn());
    }
  }

  lemma DropAffords(c: Ctl, b: BoardId, lim: Limits)
    requires lim.Sane() && b in c.boards && Affords(c, b, lim)
    ensures Affords(DropStale(c, b), b, lim)
  {
    var d := DropStale(c, b);
    var q, n := c.boards[b].fifo, StalePrefix(c.boards[b].fifo, c.now);
    forall i: nat | i < |d.boards[b].fifo|
      ensures d.now + Turns(i + 1, lim.Turn()) <= Due(d, d.boards[b].fifo[i], lim) {
      assert d.boards[b].fifo[i] == q[n + i];
      TurnsGrow(i + 1, n + i + 1, lim.Turn());
    }
  }

  /** Everything but the boards and the ledger stands still. */
  ghost predicate SameClock(c: Ctl, d: Ctl) {
    && d.cfg == c.cfg && d.now == c.now && d.closing == c.closing && d.pending == c.pending && d.timers == c.timers
    && d.writing == c.writing && d.boards.Keys == c.boards.Keys
  }

  lemma StartTimes(c: Ctl, b: BoardId, lim: Limits)
    requires lim.Sane() && c.pending.Valid() && b in c.boards && c.boards[b].fifo != []
    requires c.boards[b].fifo[0].boardSeq !in c.pending.m
    requires forall k :: k in c.timers.armed ==> k in c.pending.m
    requires WritesOnTime(c, lim) && TimersOnTime(c, lim) && PendingOnTime(c, lim) && Affords(c, b, lim)
    ensures var d := StartWrite(c, b); WritesOnTime(d, lim) && TimersOnTime(d, lim) && PendingOnTime(d, lim)
  {
    assert Turns(1, lim.Turn()) == lim.Turn();
    assert c.now + Turns(0 + 1, lim.Turn()) <= Due(c, c.boards[b].fifo[0], lim);
  }

  lemma StartQueue(c: Ctl, b: BoardId, lim: Limits)
    requires b in c.boards && c.boards[b].fifo != [] && c.pending.Valid() && Affords(c, b, lim)
    ensures QueueOnTime(StartWrite(c, b), b, lim)
  {
    var d, q := StartWrite(c, b), c.boards[b].fifo;
    forall i: nat | i < |d.boards[b].fifo| ensures Waits(d, b, i, lim) {
      assert d.boards[b].fifo[i] == q[i + 1];
      assert c.now + Turns(i + 1 + 1, lim.Turn()) <= Due(c, q[i + 1], lim);
    }
  }

  lemma StartOtherQueue(c: Ctl, b: BoardId, x: BoardId, lim: Limits)
    requires b in c.boards && c.boards[b].fifo != []
    requires c.pending.Valid() && c.boards[b].fifo[0].boardSeq !in c.pending.m
    requires x in c.boards && x != b && QueueOnTime(c, x, lim)
    ensures QueueOnTime(StartWrite(c, b), x, lim)
  {
    QueueStands(c, StartWrite(c, b), x, lim);
  }

  lemma StartOnTime(c: Ctl, b: BoardId, lim: Limits)
    requires lim.Sane() && Tables(c) && InFlightOk(c) && SameStamp(c)
    requires b in c.boards && c.boards[b].fifo != [] && c.boards[b].inFlight.None?
    requires c.boards[b].fifo[0].boardSeq !in c.pending.m
    requires !c.closing && WritesOnTime(c, lim) && TimersOnTime(c, lim) && PendingOnTime(c, lim)
    requires Affords(c, b, lim) && forall x :: x in c.boards && x != b ==> QueueOnTime(c, x, lim)
    ensures CtlOnTime(StartWrite(c, b), lim)
  {
    hide SameStamp, WritesOnTime, TimersOnTime, PendingOnTime, QueueOnTime, Affords, Paired, CoveredOnce, InFifo,
         QueueOk, WrittenOk;
    StampsStart(c, b);
    StartTimes(c, b, lim);
    StartQueue(c, b, lim);
    forall x | x in c.boards && x != b ensures QueueOnTime(StartWrite(c, b), x, lim) { StartOtherQueue(c, b, x, lim); }
  }

  lemma StampsStart(c: Ctl, b: BoardId)
    requires Tables(c) && SameStamp(c) && b in c.boards && c.boards[b].fifo != []
    ensures SameStamp(StartWrite(c, b))
  {
    var d := StartWrite(c, b);
    QueueMember(c, b, 0);
    forall k | k in d.pending.m && d.pending.m[k].id in d.writing
      ensures d.writing[d.pending.m[k].id] == d.pending.m[k] {
      if k != c.boards[b].fifo[0].boardSeq { assert WrittenOk(c, c.pending.m[k]); }
    }
  }

  lemma DropOnTime(c: Ctl, b: BoardId, lim: Limits)
    requires b in c.boards && WritesOnTime(c, lim) && TimersOnTime(c, lim) && PendingOnTime(c, lim)
    requires forall x :: x in c.boards && x != b ==> QueueOnTime(c, x, lim)
    ensures var d := DropStale(c, b);
            && WritesOnTime(d, lim) && TimersOnTime(d, lim) && PendingOnTime(d, lim) && SameClock(c, d)
            && (forall x :: x in d.boards && x != b ==> QueueOnTime(d, x, lim))
            && d.boards[b] == c.boards[b].(fifo := d.boards[b].fifo)
  {
    var d := DropStale(c, b);
    forall x | x in d.boards && x != b ensures QueueOnTime(d, x, lim) { QueueStands(c, d, x, lim); }
  }

  lemma DispatchOnTime(c: Ctl, b: BoardId, lim: Limits)
    requires lim.Sane() && Sound(c) && InFlightOk(c) && b in c.boards && c.boards[b].inFlight.None? && !Overwrites(c, b)
    requires !c.closing && SameStamp(c) && WritesOnTime(c, lim) && TimersOnTime(c, lim) && PendingOnTime(c, lim)
    requires forall x :: x in c.boards && x != b ==> QueueOnTime(c, x, lim)
    requires Ready(c.boards[b]) ==> Affords(c, b, lim)
    ensures CtlOnTime(DispatchNext(c, b), lim)
  {
    if MayDispatch(c, b) {
      var d := DropStale(c, b);
      DropOnTime(c, b, lim);
      DropAffords(c, b, lim);
      DropStaleKeeps(c, b);
      DropStaleInFlight(c, b);
      StaleHead(c, b);
      if d.boards[b].fifo != [] {
        StartOnTime(d, b, lim);
      } else {
        assert QueueOnTime(d, b, lim);
      }
    } else {
      assert QueueOnTime(c, b, lim);
    }
  }

  // ----------------------------------------------------------- the commands

  lemma PendingNotOverdue(c: Ctl, k: nat, lim: Limits)
    requires lim.Sane() && CtlOnTime(c, lim) && InFlightOk(c) && c.stranded == {} && k in c.pending.m
    ensures c.pending.m[k].writtenAt.Some? && c.now <= c.pending.m[k].writtenAt.value + lim.Turn()
  {
    assert CoveredOnce(c, k);
  }

  /** Freeing a slot leaves its queue able to start over now. */
  lemma SlotAffords(c: Ctl, m: Ctl, b: BoardId, k: nat, lim: Limits)
    requires lim.Sane() && CtlOnTime(c, lim) && InFlightOk(c) && c.stranded == {} && b in c.boards && b in m.boards
    requires c.boards[b].inFlight == Some(k) && k in c.pending.m && Ready(c.boards[b])
    requires m.cfg == c.cfg && m.now == c.now && m.boards[b].fifo == c.boards[b].fifo
    ensures Affords(m, b, lim)
  {
    PendingNotOverdue(c, k, lim);
    var q := c.boards[b].fifo;
    forall i: nat | i < |q| ensures c.pending.m[k].writtenAt.value + Turns(i + 2, lim.Turn()) <= Due(m, q[i], lim) {
      assert QueueOnTime(c, b, lim) && Waits(c, b, i, lim);
    }
    FreedAffords(m, b, c.pending.m[k], q, lim);
  }

  /** `m` is `c` without the pending entry `k` of board `b`. */
  ghost predicate Frees(c: Ctl, m: Ctl, b: BoardId, k: nat) {
    && b in c.boards && m.boards.Keys == c.boards.Keys && m.cfg == c.cfg && m.now == c.now && m.closing == c.closing
    && c.boards[b].inFlight == Some(k) && k in c.pending.m && m.pending.m == c.pending.m - {k}
    && m.writing == c.writing
    && (forall x :: x in c.boards && x != b ==> m.boards[x] == c.boards[x])
    && m.boards[b] == c.boards[b].(inFlight := None)
    && (forall j :: j in m.timers.armed ==> j in c.timers.armed && m.timers.armed[j] == c.timers.armed[j])
    && (forall id :: id in m.timers.asleep ==> id in c.timers.asleep && m.timers.asleep[id] == c.timers.asleep[id])
  }

  lemma FreesTimes(c: Ctl, m: Ctl, b: BoardId, k: nat, lim: Limits)
    requires CtlOnTime(c, lim) && Frees(c, m, b, k)
    ensures SameStamp(m) && WritesOnTime(m, lim) && TimersOnTime(m, lim) && PendingOnTime(m, lim) && !m.closing
  {
  }

  lemma FreesOnTime(c: Ctl, m: Ctl, b: BoardId, k: nat, lim: Limits)
    requires lim.Sane() && CtlOnTime(c, lim) && InFlightOk(c) && c.stranded == {} && Frees(c, m, b, k)
    ensures SameStamp(m) && WritesOnTime(m, lim) && TimersOnTime(m, lim) && PendingOnTime(m, lim) && !m.closing
    ensures forall x :: x in m.boards && x != b ==> QueueOnTime(m, x, lim)
    ensures Ready(m.boards[b]) ==> Affords(m, b, lim)
  {
    hide SameStamp, WritesOnTime, TimersOnTime, PendingOnTime, QueueOnTime, Affords;
    FreesTimes(c, m, b, k, lim);
    forall x | x in m.boards && x != b ensures QueueOnTime(m, x, lim) { QueueStands(c, m, x, lim); }
    if Ready(m.boards[b]) { SlotAffords(c, m, b, k, lim); }
  }

  lemma MatchedFrees(c: Ctl, r: BoardReply)
    requires Valid(c) && InFlightOk(c) && r.boardSeq in c.pending.m
    ensures Frees(c, Matched(c, r), c.pending.m[r.boardSeq].board, r.boardSeq)
  {
    CancelShrinks(c.timers, r.boardSeq);
  }

  lemma TimedOutFrees(c: Ctl, id: Id)
    requires Valid(c) && InFlightOk(c) && id in c.timers.asleep && c.timers.asleep[id].boardSeq in c.pending.m
    ensures Frees(c, TimedOut(c, id), c.pending.m[c.timers.asleep[id].boardSeq].board, c.timers.asleep[id].boardSeq)
  {
  }

  lemma ResponseOnTime(c: Ctl, r: BoardReply, lim: Limits)
    requires lim.Sane() && CtlOnTime(c, lim) && Sound(c)
    requires InFlightOk(c) && c.stranded == {} && Coupled(r.status, r.code)
    requires !ResponseForfeits(c, r)
    ensures CtlOnTime(HandleResponse(c, r), lim)
  {
    if r.boardSeq in c.pending.m {
      var m, b := Matched(c, r), c.pending.m[r.boardSeq].board;
      MatchedSettles(c, r);
      MatchedInFlight(c, r);
      MatchedFrees(c, r);
      FreesOnTime(c, m, b, r.boardSeq, lim);
      DispatchOnTime(m, b, lim);
    } else {
      SameTimes(c, HandleResponse(c, r), lim);
    }
  }

  lemma TimerOnTime(c: Ctl, id: Id, lim: Limits)
    requires lim.Sane() && CtlOnTime(c, lim) && Sound(c) && InFlightOk(c) && c.stranded == {} && id in c.timers.asleep
    requires var k := c.timers.asleep[id].boardSeq;
             k in c.pending.m ==> !Overwrites(TimedOut(c, id), c.pending.m[k].board)
    ensures CtlOnTime(FireTimer(c, id), lim)
  {
    TimersFindTheirEntry(c, id);
    var k := c.timers.asleep[id].boardSeq;
    var m, b := TimedOut(c, id), c.pending.m[k].board;
    TimedOutSettles(c, id);
    TimedOutInFlight(c, id);
    TimedOutFrees(c, id);
    FreesOnTime(c, m, b, k, lim);
    DispatchOnTime(m, b, lim);
  }

  /** Nothing this invariant speaks of has moved. */
  lemma SameTimes(c: Ctl, d: Ctl, lim: Limits)
    requires CtlOnTime(c, lim) && d.cfg == c.cfg && d.now == c.now && d.closing == c.closing
    requires d.pending == c.pending && d.timers == c.timers && d.writing == c.writing && d.boards.Keys == c.boards.Keys
    requires forall b :: b in c.boards ==>
               && (d.boards[b].fifo == c.boards[b].fifo || d.boards[b].fifo == [])
                  && d.boards[b].inFlight == c.boards[b].inFlight
               && (Ready(d.boards[b]) ==> Ready(c.boards[b]) || d.boards[b].fifo == [])
    ensures CtlOnTime(d, lim)
  {
    forall b | b in d.boards ensures QueueOnTime(d, b, lim) { QueueStands(c, d, b, lim); }
  }

  lemma SlotHeld(c: Ctl, b: BoardId)
    requires InFlightOk(c) && b in c.boards && c.boards[b].inFlight.Some?
    ensures var k := c.boards[b].inFlight.value; k in c.pending.m && c.pending.m[k].board == b
  {
  }

  lemma QueuedOnTime(c: Ctl, command: Command, lim: Limits)
    requires lim.Sane() && CtlOnTime(c, lim) && Valid(c) && InFlightOk(c) && Accepts(c, command)
    requires c.boards[command.target].inFlight.Some?
    ensures CtlOnTime(Enqueue(c, command), lim)
  {
    hide Valid, InFlightOk;
    SlotHeld(c, command.target);
    var m, b := Enqueue(c, command), command.target;
    var q, slot := c.boards[b].fifo, c.boards[b].inFlight.value;
    TurnsGrow(|q| + 2, c.cfg.fifoDepth + 1, lim.Turn());
    forall x | x in m.boards ensures QueueOnTime(m, x, lim) {
      forall i: nat | Ready(m.boards[x]) && i < |m.boards[x].fifo| ensures Waits(m, x, i, lim) {
        if x != b || i < |q| { assert QueueOnTime(c, x, lim) && Waits(c, x, i, lim); }
      }
    }
  }

  /** Flags, timers, writes and the boards other than `b` stand still. */
  ghost predicate Beside1(c: Ctl, m: Ctl, b: BoardId) {
    && m.cfg == c.cfg && m.now == c.now && m.closing == c.closing && m.pending == c.pending && m.timers == c.timers
    && m.writing == c.writing && m.boards.Keys == c.boards.Keys
    && forall x :: x in c.boards && x != b ==> m.boards[x] == c.boards[x]
  }

  lemma BesideOnTime(c: Ctl, m: Ctl, b: BoardId, lim: Limits)
    requires CtlOnTime(c, lim) && Beside1(c, m, b)
    ensures !m.closing && SameStamp(m) && WritesOnTime(m, lim) && TimersOnTime(m, lim) && PendingOnTime(m, lim)
    ensures forall x :: x in m.boards && x != b ==> QueueOnTime(m, x, lim)
  {
    forall x | x in m.boards && x != b ensures QueueOnTime(m, x, lim) { QueueStands(c, m, x, lim); }
  }

  lemma EnqueueBeside(c: Ctl, command: Command, lim: Limits)
    requires lim.Sane() && Accepts(c, command)
    requires Served(c, command.target) && c.boards[command.target].inFlight.None?
    ensures Beside1(c, Enqueue(c, command), command.target) && Enqueue(c, command).boards[command.target].inFlight.None?
    ensures Affords(Enqueue(c, command), command.target, lim)
  {
    TurnsGrow(1, c.cfg.fifoDepth + 1, lim.Turn());
  }

  lemma StartedOnTime(c: Ctl, command: Command, lim: Limits)
    requires lim.Sane() && CtlOnTime(c, lim) && Sound(c) && InFlightOk(c) && Accepts(c, command)
    requires Served(c, command.target)
    requires c.boards[command.target].inFlight.None? && !Overwrites(Enqueue(c, command), command.target)
    ensures CtlOnTime(DispatchNext(Enqueue(c, command), command.target), lim)
  {
    hide Enqueue, DispatchNext, Sound, InFlightOk, CtlOnTime, Affords, SameStamp, WritesOnTime, TimersOnTime,
         PendingOnTime,
         QueueOnTime, Overwrites, Served;
    var m, b := Enqueue(c, command), command.target;
    EnqueueKeeps(c, command);
    EnqueueInFlight(c, command);
    EnqueueBeside(c, command, lim);
    BesideOnTime(c, m, b, lim);
    DispatchOnTime(m, b, lim);
  }

  lemma BusyWaits(c: Ctl, command: Command)
    requires Accepts(c, command) && c.pending.Valid() && c.boards[command.target].inFlight.Some?
    ensures DispatchNext(Enqueue(c, command), command.target) == Enqueue(c, command)
  {
  }

  lemma RefusedOnTime(c: Ctl, command: Command, local: Reply, lim: Limits)
    requires CtlOnTime(c, lim) && Valid(c) && !Accepts(c, command)
    ensures CtlOnTime(Route(c, command, local).0, lim)
  {
    hide CtlOnTime, Route, Accepts, Valid;
    RefusedFrame(c, command, local);
    SameTimes(c, Route(c, command, local).0, lim);
  }

  lemma RouteOnTime(c: Ctl, command: Command, local: Reply, lim: Limits)
    requires lim.Sane() && CtlOnTime(c, lim) && Valid(c) && Sound(c)
    requires InFlightOk(c) && AllServed(c) && !RouteOverwrites(c, command)
    ensures CtlOnTime(Route(c, command, local).0, lim)
  {
    hide CtlOnTime, Route, Enqueue, DispatchNext, Overwrites, Sound, InFlightOk, Served;
    if Accepts(c, command) {
      AcceptedRoute(c, command, local);
      assert Served(c, command.target);
      if c.boards[command.target].inFlight.Some? {
        QueuedOnTime(c, command, lim);
        BusyWaits(c, command);
      } else {
        StartedOnTime(c, command, lim);
      }
    } else {
      RefusedOnTime(c, command, local, lim);
    }
  }

  /** What a write that ends leaves in place. */
  lemma ResumeLeaves(c: Ctl, id: Id)
    requires Valid(c) && InFlightOk(c) && id in c.writing && !DropsOther(c, id)
    ensures var d := ResumeWrite(c, id);
            && d.now == c.now && d.pending.m == c.pending.m && d.writing == c.writing - {id}
            && (Done(c, id) ==> d.timers == c.timers)
    ensures ResumeWrite(c, id).boards == c.boards
    ensures ResumeWrite(c, id).cfg == c.cfg && ResumeWrite(c, id).closing == c.closing
  {
    hide InFlightOk, Valid;
    PendingIsValid(c);
    ResumeSlots(c, id);
  }

  lemma LeavesOnTime(c: Ctl, d: Ctl, lim: Limits)
    requires CtlOnTime(c, lim) && d.now == c.now && d.cfg == c.cfg && d.closing == c.closing && d.boards == c.boards
    requires d.pending.m == c.pending.m && TimersOnTime(d, lim)
    requires forall id :: id in d.writing ==> id in c.writing && d.writing[id] == c.writing[id]
    ensures CtlOnTime(d, lim)
  {
    forall b | b in d.boards ensures QueueOnTime(d, b, lim) { QueueStands(c, d, b, lim); }
  }

  lemma SameTimers(c: Ctl, d: Ctl, lim: Limits)
    requires CtlOnTime(c, lim) && d.now == c.now && d.pending.m == c.pending.m && d.timers == c.timers
    ensures TimersOnTime(d, lim)
  {
  }

  lemma ResumeOnTime(c: Ctl, id: Id, lim: Limits)
    requires lim.Sane() && CtlOnTime(c, lim) && Valid(c) && Sound(c) && Conserved(c) && InFlightOk(c)
    requires id in c.writing && !DropsOther(c, id)
    ensures CtlOnTime(ResumeWrite(c, id), lim)
  {
    hide CtlOnTime, TimersOnTime, InFlightOk, Valid, ResumeWrite, LedgerOk;
    ResumeLeaves(c, id);
    if Done(c, id) { SameTimers(c, ResumeWrite(c, id), lim); } else { ArmedOnTime(c, id, lim); }
    LeavesOnTime(c, ResumeWrite(c, id), lim);
  }

  lemma ArmedOnTime(c: Ctl, id: Id, lim: Limits)
    requires lim.Sane() && CtlOnTime(c, lim) && Tables(c) && Conserved(c) && InFlightOk(c)
    requires id in c.writing && !Done(c, id)
    ensures TimersOnTime(ResumeWrite(c, id), lim)
  {
    var e, t := c.writing[id], ResumeWrite(c, id).timers;
    assert WrittenOk(c, e) && AcceptedOk(c, id) && Placed(c, id);
    forall k | k in t.armed && t.armed[k] in t.asleep && k in c.pending.m && k != e.boardSeq
      ensures t.armed[k] != id
    {
      assert WrittenOk(c, c.pending.m[k]);
    }
    assert c.pending.m[e.boardSeq].id == id;
    assert c.pending.m[e.boardSeq] == e && e.executionTimeout <= MAX_COMMAND_TIMEOUT_S;
  }

  // -------------------------------------------------------- everything else

  /** Pending entries and timers leave, one queue empties, other boards stand still. */
  ghost predicate Loses(c: Ctl, d: Ctl, b: BoardId) {
    && d.cfg == c.cfg && d.now == c.now && d.closing == c.closing && d.writing == c.writing
       && d.boards.Keys == c.boards.Keys
    && (forall x :: x in c.boards && x != b ==> d.boards[x] == c.boards[x])
    && (b in d.boards ==> d.boards[b].fifo == [])
    && (forall k :: k in d.pending.m ==> k in c.pending.m && d.pending.m[k] == c.pending.m[k])
    && (forall k :: k in c.pending.m && c.pending.m[k].board != b ==> k in d.pending.m)
    && (forall k :: k in d.timers.armed ==> k in c.timers.armed && d.timers.armed[k] == c.timers.armed[k])
    && (forall id :: id in d.timers.asleep ==> id in c.timers.asleep && d.timers.asleep[id] == c.timers.asleep[id])
  }

  lemma LosesTimes(c: Ctl, d: Ctl, b: BoardId, lim: Limits)
    requires CtlOnTime(c, lim) && Loses(c, d, b)
    ensures SameStamp(d) && WritesOnTime(d, lim) && TimersOnTime(d, lim) && PendingOnTime(d, lim) && !d.closing
  {
    hide QueueOnTime;
  }

  lemma LosesQueue(c: Ctl, d: Ctl, b: BoardId, x: BoardId, lim: Limits)
    requires CtlOnTime(c, lim) && InFlightOk(c) && Loses(c, d, b) && x in c.boards
    ensures QueueOnTime(d, x, lim)
  {
    hide SameStamp, WritesOnTime, TimersOnTime, PendingOnTime, QueueOnTime;
    QueueStands(c, d, x, lim);
  }

  lemma LosesOnTime(c: Ctl, d: Ctl, b: BoardId, lim: Limits)
    requires CtlOnTime(c, lim) && InFlightOk(c) && Loses(c, d, b)
    ensures CtlOnTime(d, lim)
  {
    hide SameStamp, WritesOnTime, TimersOnTime, PendingOnTime, QueueOnTime, InFlightOk;
    LosesTimes(c, d, b, lim);
    forall x | x in d.boards ensures QueueOnTime(d, x, lim) { LosesQueue(c, d, b, x, lim); }
  }

  lemma DownLoses(c: Ctl, b: BoardId)
    requires Valid(c) && b in c.boards
    ensures Loses(c, BoardDown(c, b), b)
  {
    var lost := OnBoard(c.pending.Values(), b);
    BoardDownClears(c, b);
    DownFrame(c, b);
    CancelAllShrinks(c.timers, SeqsOf(lost));
  }

  lemma DownOnTime(c: Ctl, b: BoardId, lim: Limits)
    requires CtlOnTime(c, lim) && Valid(c) && InFlightOk(c) && b in c.boards
    ensures CtlOnTime(BoardDown(c, b), lim)
  {
    hide CtlOnTime, BoardDown, InFlightOk;
    DownLoses(c, b);
    LosesOnTime(c, BoardDown(c, b), b, lim);
  }

  lemma TickOnTime(s: Sys, e: Event, lim: Limits)
    requires CtlOnTime(s.ctl, lim) && Enabled(s, e) && e.Tick? && Punctual(s, e, lim)
    ensures CtlOnTime(CtlNext(s, e), lim)
  {
    var c, d := s.ctl, CtlNext(s, e);
    forall b | b in d.boards ensures QueueOnTime(d, b, lim) { QueueStands(c, d, b, lim); }
  }

  // --------------------------------------------------------- the connections

  lemma RelinkOnTime(c: Ctl, d: Ctl, b: BoardId, lim: Limits)
    requires CtlOnTime(c, lim) && Relinks(c, d, b) && d.now == c.now
    ensures CtlOnTime(d, lim)
  {
    hide CtlOnTime;
    SameTimes(c, d, lim);
  }

  lemma ConnectionOnTime(s: Sys, e: Event, lim: Limits)
    requires CtlOnTime(s.ctl, lim) && InFlightOk(s.ctl) && LinkOk(s) && Enabled(s, e) && OnConnection(e)
    ensures CtlOnTime(CtlNext(s, e), lim)
  {
    hide CtlOnTime, InFlightOk, BoardDown, RegisterAndAssert, SetConn;
    var c, b := s.ctl, e.board;
    match e
    case SchemaArrives(_, m) =>
      SchemaRelinks(c, b, m);
      SchemaClock(c, b, m);
      RelinkOnTime(c, RegisterAndAssert(c, b, m), b, lim);
    case LivenessExpires(_) => DownOnTime(c, b, lim);
    case ReportDown(_) => DownOnTime(c, b, lim);
    case Dial(_) => SetConnOnTime(c, b, CONNECTING, lim);
    case Link(_) => SetConnOnTime(c, b, CONNECTED, lim);
    case LinkFails(_) => SetConnOnTime(c, b, FAULTED, lim);
    case _ =>
  }

  lemma SchemaClock(c: Ctl, b: BoardId, m: Object)
    requires b in c.boards
    ensures RegisterAndAssert(c, b, m).now == c.now
  {
  }

  lemma SetConnOnTime(c: Ctl, b: BoardId, state: ConnState, lim: Limits)
    requires CtlOnTime(c, lim) && b in c.boards && state != REGISTERED
    ensures CtlOnTime(SetConn(c, b, state), lim)
  {
    hide CtlOnTime;
    SetConnRelinks(c, b, state);
    RelinkOnTime(c, SetConn(c, b, state), b, lim);
  }

  lemma TriggerOnTime(c: Ctl, lim: Limits)
    requires CtlOnTime(c, lim) && Valid(c)
    ensures CtlOnTime(TriggerEstop(c), lim)
  {
    hide CtlOnTime;
    SameTimes(c, TriggerEstop(c), lim);
  }

  lemma EstopOnTime(c: Ctl, b: BoardId, lim: Limits)
    requires CtlOnTime(c, lim) && b in c.boards
    ensures CtlOnTime(AckEstop(c, b), lim)
    ensures b in c.estopTasks ==> CtlOnTime(RunEstopTask(c, b), lim)
  {
    hide CtlOnTime;
    SameTimes(c, AckEstop(c, b), lim);
    if b in c.estopTasks { SameTimes(c, RunEstopTask(c, b), lim); }
  }

  lemma ResetOnTime(c: Ctl, kind: string, target: string, cleared: bool, lim: Limits)
    requires CtlOnTime(c, lim)
    ensures CtlOnTime(ResetEstop(c, kind, target, cleared), lim)
  {
    hide CtlOnTime;
    SameTimes(c, ResetEstop(c, kind, target, cleared), lim);
  }

  lemma NotClosing(s: Sys, e: Event, lim: Limits)
    requires CtlOnTime(s.ctl, lim) && FailedOk(s) && Enabled(s, e)
    ensures !e.ShutdownFails? && !e.WritersClose?
  {
  }

  lemma GlobalOnTime(s: Sys, e: Event, lim: Limits)
    requires CtlOnTime(s.ctl, lim) && FailedOk(s) && Enabled(s, e) && Timely(s, e, lim)
    requires !OnCommand(e) && !OnConnection(e)
    ensures CtlOnTime(CtlNext(s, e), lim)
  {
    hide CtlOnTime, TriggerEstop, AckEstop, RunEstopTask, ResetEstop, FailedOk;
    NotClosing(s, e, lim);
    var c := s.ctl;
    match e
    case EstopTriggered => TriggerOnTime(c, lim);
    case EstopTaskRuns(b) => EstopOnTime(c, b, lim);
    case EstopAcked(b) => EstopOnTime(c, b, lim);
    case EstopReset(kind, target, cleared) => ResetOnTime(c, kind, target, cleared, lim);
    case Tick(_) => TickOnTime(s, e, lim);
  }

  lemma CommandOnTime(s: Sys, e: Event, lim: Limits)
    requires lim.Sane() && CtlOnTime(s.ctl, lim) && Steady(s) && AllServed(s.ctl) && s.ctl.stranded == {}
    requires Enabled(s, e) && OnCommand(e)
    requires Timely(s, e, lim) && !Forfeits(s, e)
    ensures CtlOnTime(CtlNext(s, e), lim)
  {
    hide CtlOnTime, Sound, InFlightOk, Route, ResumeWrite, HandleResponse, FireTimer,
         LinkOk, GateOk, SentOk, FailedOk;
    SafeIsSound(s);
    var c := s.ctl;
    match e
    case RouteCommand(command, local) => RouteOnTime(c, command, local, lim);
    case WriteReturns(id) => ResumeOnTime(c, id, lim);
    case ResponseArrives(_, r) => ResponseOnTime(c, r, lim);
    case TimerFires(id) => TimerOnTime(c, id, lim);
  }

  // ------------------------------------------------------- sessions that end

  /** Connections stand still, and an unready board's queue gains nothing. */
  ghost predicate Calm(c: Ctl, d: Ctl) {
    && d.cfg == c.cfg && d.now == c.now && d.boards.Keys == c.boards.Keys
    && forall b :: b in c.boards ==>
         && d.boards[b].conn == c.boards[b].conn && d.boards[b].writer == c.boards[b].writer
         && (!Ready(c.boards[b]) ==> forall e :: e in d.boards[b].fifo ==> e in c.boards[b].fifo)
  }

  lemma CalmChain(c: Ctl, d: Ctl, f: Ctl)
    requires Calm(c, d) && Calm(d, f)
    ensures Calm(c, f)
  {
  }

  lemma DispatchCalm(c: Ctl, b: BoardId)
    requires b in c.boards && c.pending.Valid()
    ensures Calm(c, DispatchNext(c, b))
  {
  }

  lemma ThenCalm(c: Ctl, m: Ctl, b: BoardId)
    requires Calm(c, m) && b in m.boards && m.pending.Valid()
    ensures Calm(c, DispatchNext(m, b))
  {
    hide Calm, DispatchNext;
    DispatchCalm(m, b);
    CalmChain(c, m, DispatchNext(m, b));
  }

  lemma EnqueueCalm(c: Ctl, command: Command)
    requires Accepts(c, command)
    ensures Calm(c, Enqueue(c, command))
  {
  }

  lemma RouteCalm(c: Ctl, command: Command, local: Reply)
    requires Valid(c)
    ensures Calm(c, Route(c, command, local).0)
  {
    hide DispatchNext;
    if Accepts(c, command) {
      EnqueueCalm(c, command);
      ThenCalm(c, Enqueue(c, command), command.target);
    } else {
      RefusedStill(c, command, local);
    }
  }

  lemma TakeOutCalm(c: Ctl, k: nat)
    requires Valid(c) && k in c.pending.m
    ensures Calm(c, TakeOut(c, k))
  {
    hide TakeOut, CancelTimeout, Dict.Pop, Valid;
    TakeOutFrame(c, k);
  }

  lemma MatchedCalm(c: Ctl, r: BoardReply)
    requires Valid(c) && r.boardSeq in c.pending.m
    ensures Calm(c, Matched(c, r))
    ensures c.pending.m[r.boardSeq].board in Matched(c, r).boards && Matched(c, r).pending.Valid()
  {
    hide TakeOut, Settle, RelayedReply, Valid, CancelTimeout, Dict.Pop;
    TakeOutFrame(c, r.boardSeq);
  }

  lemma ResponseCalm(c: Ctl, r: BoardReply)
    requires Valid(c)
    ensures Calm(c, HandleResponse(c, r))
  {
    hide DispatchNext, Matched, TakeOut;
    if r.boardSeq !in c.pending.m {
    } else if r.overflows {
      TakeOutCalm(c, r.boardSeq);
    } else {
      MatchedCalm(c, r);
      ThenCalm(c, Matched(c, r), c.pending.m[r.boardSeq].board);
    }
  }

  lemma TimedOutCalm(c: Ctl, id: Id)
    requires Valid(c) && id in c.timers.asleep && c.timers.asleep[id].boardSeq in c.pending.m
    ensures var m := TimedOut(c, id);
            Calm(c, m) && c.pending.m[c.timers.asleep[id].boardSeq].board in m.boards && m.pending.Valid()
  {
    hide ResolveError;
  }

  lemma VainCalm(c: Ctl, id: Id)
    requires Valid(c) && id in c.timers.asleep && c.timers.asleep[id].boardSeq !in c.pending.m
    ensures Calm(c, FireTimer(c, id))
  {
  }

  lemma TimerCalm(c: Ctl, id: Id)
    requires Valid(c) && id in c.timers.asleep
    ensures Calm(c, FireTimer(c, id))
  {
    hide DispatchNext, TimedOut, Calm;
    var k := c.timers.asleep[id].boardSeq;
    if k !in c.pending.m {
      VainCalm(c, id);
    } else {
      TimedOutCalm(c, id);
      ThenCalm(c, TimedOut(c, id), c.pending.m[k].board);
    }
  }

  lemma ResumeCalm(c: Ctl, id: Id)
    requires Valid(c) && id in c.writing
    ensures Calm(c, ResumeWrite(c, id)) && Calm(c, AbortWrite(c, id))
  {
    assert c.writing[id].board in c.boards;
  }

  lemma CommandCalm(s: Sys, e: Event)
    requires Enabled(s, e) && OnCommand(e)
    ensures Calm(s.ctl, CtlNext(s, e))
  {
    hide Calm, Route, ResumeWrite, AbortWrite, HandleResponse, FireTimer;
    var c := s.ctl;
    match e
    case RouteCommand(command, local) => RouteCalm(c, command, local);
    case WriteReturns(id) => ResumeCalm(c, id);
    case WriteRaises(id) => ResumeCalm(c, id);
    case ResponseArrives(_, r) => ResponseCalm(c, r);
    case TimerFires(id) => TimerCalm(c, id);
  }

  lemma CalmEnds(s: Sys, t: Sys, b: BoardId, lim: Limits)
    requires Calm(s.ctl, t.ctl) && t.phase == s.phase && t.hist.endedAt == s.hist.endedAt
    requires b in s.phase && b in s.ctl.boards && EndedOnTime(s, b, lim)
    ensures EndedOnTime(t, b, lim)
  {
  }

  lemma CommandEnds(s: Sys, e: Event, t: Sys, b: BoardId, lim: Limits)
    requires OnTime(s, lim) && Step(s, e, t) && OnCommand(e) && b in s.phase
    ensures b in t.phase && b in t.ctl.boards && EndedOnTime(t, b, lim)
  {
    hide CtlNext, EndedOnTime, CtlOnTime;
    CommandCalm(s, e);
    CalmEnds(s, t, b, lim);
  }

  /** When a session breaks off, nothing still queued there is overdue. */
  lemma BreaksOnTime(c: Ctl, b: BoardId, lim: Limits)
    requires lim.Sane() && CtlOnTime(c, lim) && InFlightOk(c) && c.stranded == {} && b in c.boards && Ready(c.boards[b])
    ensures forall e :: e in c.boards[b].fifo ==> c.now <= Due(c, e, lim)
  {
    var q := c.boards[b].fifo;
    if q != [] {
      assert QueueOnTime(c, b, lim) && Waits(c, b, 0, lim);
      SlotAffords(c, c, b, c.boards[b].inFlight.value, lim);
      forall i | 0 <= i < |q| ensures c.now <= Due(c, q[i], lim) {
        TurnsGrow(0, i + 1, lim.Turn());
        assert c.now + Turns(i + 1, lim.Turn()) <= Due(c, q[i], lim);
      }
    }
  }

  lemma BreakEnds(s: Sys, t: Sys, b: BoardId, lim: Limits)
    requires lim.Sane() && OnTime(s, lim) && InFlightOk(s.ctl) && s.ctl.stranded == {} && LinkOk(s)
    requires Step(s, LinkFails(b), t)
    ensures b in t.phase && b in t.ctl.boards && EndedOnTime(t, b, lim)
  {
    hide CtlOnTime, InFlightOk;
    var c := s.ctl;
    assert EndedOnTime(s, b, lim);
    if s.phase[b] == Live { BreaksOnTime(c, b, lim); }
    assert t.ctl == SetConn(c, b, FAULTED);
    assert t.phase[b] == Ending || t.phase[b] == Downed;
  }

  lemma SchemaEnds(s: Sys, t: Sys, b: BoardId, m: Object, lim: Limits)
    requires lim.Sane() && LinkOk(s) && Step(s, SchemaArrives(b, m), t)
    ensures b in t.phase && b in t.ctl.boards && EndedOnTime(t, b, lim)
  {
    hide RegisterAndAssert;
    SchemaLinks(s.ctl, b, m);
  }

  lemma OwnEnd(s: Sys, e: Event, t: Sys, lim: Limits)
    requires lim.Sane() && OnTime(s, lim) && InFlightOk(s.ctl) && s.ctl.stranded == {} && LinkOk(s)
    requires Step(s, e, t) && OnConnection(e)
    ensures e.board in t.phase && e.board in t.ctl.boards && EndedOnTime(t, e.board, lim)
  {
    hide CtlOnTime, InFlightOk, BoardDown, RegisterAndAssert, LinkOk;
    var b := e.board;
    if e.SchemaArrives? { SchemaEnds(s, t, b, e.schema, lim); }
    else if e.LinkFails? { BreakEnds(s, t, b, lim); }
    else { PlainEnd(s, e, t, lim); }
  }

  /** Events after which the board is between sessions, or its session ends in order. */
  lemma PlainEnd(s: Sys, e: Event, t: Sys, lim: Limits)
    requires lim.Sane() && OnTime(s, lim) && Step(s, e, t) && OnConnection(e) && !e.SchemaArrives? && !e.LinkFails?
    ensures e.board in t.phase && e.board in t.ctl.boards && EndedOnTime(t, e.board, lim)
  {
    hide CtlOnTime;
    assert EndedOnTime(s, e.board, lim);
    if e.LivenessExpires? || e.ReportDown? { DownEnd(s, e, t, lim); } else { IdleEnd(s, e, t, lim); }
  }

  lemma DownEnd(s: Sys, e: Event, t: Sys, lim: Limits)
    requires Step(s, e, t) && (e.LivenessExpires? || e.ReportDown?)
    ensures e.board in t.phase && e.board in t.ctl.boards && EndedOnTime(t, e.board, lim)
  {
    hide BoardDown, HistNext;
    BoardDownOneBoard(s.ctl, e.board);
  }

  lemma IdleEnd(s: Sys, e: Event, t: Sys, lim: Limits)
    requires lim.Sane() && Step(s, e, t) && OnConnection(e) && !e.SchemaArrives? && !e.LinkFails?
    requires !e.LivenessExpires? && !e.ReportDown? && e.board in s.phase && e.board in s.ctl.boards
    requires EndedOnTime(s, e.board, lim)
    ensures e.board in t.phase && e.board in t.ctl.boards && EndedOnTime(t, e.board, lim)
  {
    hide Valid, CallersNext;
  }

  lemma SchemaLinks(c: Ctl, b: BoardId, m: Object)
    requires b in c.boards && c.boards[b].fifo == []
    ensures var d := RegisterAndAssert(c, b, m);
            b in d.boards && d.boards[b].fifo == [] && d.now == c.now
              && (CheckProtocolVersion(m).Good? ==> Ready(d.boards[b]))
  {
  }

  lemma ConnectionEnds(s: Sys, e: Event, t: Sys, b: BoardId, lim: Limits)
    requires lim.Sane() && OnTime(s, lim) && InFlightOk(s.ctl) && s.ctl.stranded == {} && LinkOk(s)
    requires Step(s, e, t) && OnConnection(e) && b in s.phase
    ensures b in t.phase && b in t.ctl.boards && EndedOnTime(t, b, lim)
  {
    hide CtlNext, CtlOnTime, InFlightOk, EndedOnTime, LinkOk;
    ConnectionShape(s, e);
    ConnectionPhase(s, e);
    if b == e.board { OwnEnd(s, e, t, lim); } else { OtherEnd(s, e, b, lim); }
  }

  lemma ConnectionClock(s: Sys, e: Event)
    requires Enabled(s, e) && OnConnection(e)
    ensures CtlNext(s, e).now == s.ctl.now && CtlNext(s, e).cfg == s.ctl.cfg
  {
    if e.SchemaArrives? { SchemaClock(s.ctl, e.board, e.schema); StepConfig(s, e); }
    else if e.LivenessExpires? || e.ReportDown? { DownFrame(s.ctl, e.board); }
  }

  lemma OtherEndings(s: Sys, e: Event, b: BoardId)
    requires Enabled(s, e) && OnConnection(e) && b != e.board
    ensures b in HistNext(s, e).endedAt <==> b in s.hist.endedAt
    ensures b in s.hist.endedAt ==> HistNext(s, e).endedAt[b] == s.hist.endedAt[b]
  {
  }

  lemma OtherEnd(s: Sys, e: Event, b: BoardId, lim: Limits)
    requires OnTime(s, lim) && Enabled(s, e) && OnConnection(e) && b in s.phase && b != e.board
    requires OneBoard(s.ctl, CtlNext(s, e), e.board) && e.board in PhaseNext(s, e)
    requires PhaseNext(s, e) == s.phase[e.board := PhaseNext(s, e)[e.board]]
    ensures EndedOnTime(Next(s, e), b, lim)
  {
    hide CtlNext, CtlOnTime, PhaseNext, HistNext;
    ConnectionClock(s, e);
    OtherEndings(s, e, b);
    assert EndedOnTime(s, b, lim);
  }

  lemma GlobalEnds(s: Sys, e: Event, b: BoardId, lim: Limits)
    requires lim.Sane() && OnTime(s, lim) && FailedOk(s) && Enabled(s, e) && Timely(s, e, lim)
    requires !OnCommand(e) && !OnConnection(e) && b in s.phase
    ensures b in CtlNext(s, e).boards && EndedOnTime(Next(s, e), b, lim)
  {
    NotClosing(s, e, lim);
    assert EndedOnTime(s, b, lim);
  }

  // ------------------------------------------------------------------- runs

  lemma TimelyWrites(s: Sys, e: Event, lim: Limits)
    requires Timely(s, e, lim)
    ensures !e.WriteRaises? && !e.ShutdownBegins?
  {
  }

  lemma EndsAfter(s: Sys, e: Event, t: Sys, b: BoardId, lim: Limits)
    requires lim.Sane() && OnTime(s, lim) && Steady(s) && s.ctl.stranded == {} && Step(s, e, t) && Timely(s, e, lim)
    requires b in s.phase
    ensures b in t.ctl.boards && b in t.phase && EndedOnTime(t, b, lim)
  {
    hide CtlOnTime, EndedOnTime, CtlNext, Sound, InFlightOk, GateOk, SentOk, LinkOk,
         FailedOk, Timely;
    if OnCommand(e) {
      CommandEnds(s, e, t, b, lim);
    } else if OnConnection(e) {
      ConnectionEnds(s, e, t, b, lim);
    } else {
      GlobalEnds(s, e, b, lim);
    }
  }

  lemma KeysAfter(s: Sys, e: Event, t: Sys)
    requires Safe(s) && Step(s, e, t)
    ensures t.phase.Keys == s.phase.Keys && t.ctl.boards.Keys == s.ctl.boards.Keys
  {
    hide CtlNext, Sound, LinkOk, GateOk, SentOk, FailedOk;
    if OnCommand(e) { CommandCalm(s, e); }
    else if OnConnection(e) { ConnectionShape(s, e); ConnectionPhase(s, e); }
    else { GlobalShape(s, e); }
  }

  lemma OnTimeAfter(s: Sys, e: Event, t: Sys, lim: Limits)
    requires lim.Sane() && OnTime(s, lim) && Steady(s) && AllServed(s.ctl) && s.ctl.stranded == {}
    requires Step(s, e, t) && Timely(s, e, lim) && !Forfeits(s, e)
    ensures OnTime(t, lim)
  {
    hide CtlOnTime, EndedOnTime, CtlNext, Sound, InFlightOk, AllServed, Conserved, GateOk, SentOk, LinkOk,
         FailedOk, Timely, Forfeits;
    KeysAfter(s, e, t);
    if OnCommand(e) { CommandOnTime(s, e, lim); }
    else if OnConnection(e) { ConnectionOnTime(s, e, lim); }
    else { GlobalOnTime(s, e, lim); }
    forall b | b in s.phase ensures b in t.ctl.boards && EndedOnTime(t, b, lim) { EndsAfter(s, e, t, b, lim); }
  }

  ghost predicate TimelyRun(states: seq<Sys>, events: seq<Event>, n: nat, lim: Limits)
    requires n <= |events| < |states|
  {
    forall i :: 0 <= i < n ==> Timely(states[i], events[i], lim)
  }

  lemma {:induction false} TimelyRunsAreOnTime(states: seq<Sys>, events: seq<Event>, n: nat, lim: Limits)
    requires lim.Sane() && Run(states, events) && n <= |events|
    requires Clean(states, events, n) && TimelyRun(states, events, n, lim)
    ensures OnTime(states[n], lim) && Steady(states[n]) && states[n].ctl.stranded == {}
  {
    hide Step, Init, OnTime, Steady, AllServed, Forfeits, Timely, SlotOk, Bounded, NoRaise;
    CleanRunsAreSteady(states, events, n);
    if n == 0 {
      StartOnTimeToo(states[0], lim);
    } else {
      TimelyRunsAreOnTime(states, events, n - 1, lim);
      CleanNeverRaises(states, events, n - 1);
      RunsKeepSlots(states, events, n - 1);
      AtStep(states, events, n - 1);
      OnTimeAfter(states[n - 1], events[n - 1], states[n], lim);
      NotYetClosing(states[n - 1], lim);
      TimelyWrites(states[n - 1], events[n - 1], lim);
      StrandedWhy(states[n - 1], events[n - 1], states[n]);
    }
  }

  lemma NotYetClosing(s: Sys, lim: Limits)
    requires OnTime(s, lim)
    ensures !s.ctl.closing
  {
  }

  lemma StartOnTimeToo(s: Sys, lim: Limits)
    requires Init(s)
    ensures OnTime(s, lim) && s.ctl.stranded == {}
  {
  }

  /** The command is queued on a board whose session broke off, and the manager of
      the board has not reported it down yet, or was stopped before it could. */
  predicate BrokenOff(s: Sys, id: Id, stopped: bool) {
    && InFifo(s.ctl, id)
    && var b := s.ctl.accepted[id].board;
       b in s.phase && s.phase[b] == (if stopped then Stopped else Ending) && !Ready(s.ctl.boards[b])
  }

  /** Not later than `due`; at most T later on a board that broke off; or waiting for
      shutdown on a board whose manager was stopped after it broke off. */
  predicate InTime(s: Sys, id: Id, due: real, lim: Limits) {
    || s.ctl.now <= due
    || (s.ctl.now <= due + lim.t && BrokenOff(s, id, false))
    || BrokenOff(s, id, true)
  }

  /** Bounded completion. In every run in which writes take at most W and do not
      raise, timers fire on time, sessions that end are reported down within T
      unless their manager is stopped, shutdown has not begun, and nothing was lost:
      a command still unanswered was accepted no longer than (fifoDepth + 1) *
      (W + 10 s) ago, with the two exceptions of `InTime` on its own board. */
  lemma BoundedCompletion(states: seq<Sys>, events: seq<Event>, n: nat, id: Id, lim: Limits)
    requires lim.Sane() && Run(states, events) && n <= |events|
    requires Clean(states, events, n) && TimelyRun(states, events, n, lim)
    requires id < |states[n].ctl.accepted| && id !in states[n].ctl.ledger.outcome
    ensures var c := states[n].ctl;
            var due := c.accepted[id].enqueuedAt + (c.cfg.fifoDepth + 1) as real * (lim.w + MAX_COMMAND_TIMEOUT_S);
            InTime(states[n], id, due, lim)
  {
    hide OnTime, Steady, InTime, Init, StepAt, TimelyRun, Clean;
    TimelyRunsAreOnTime(states, events, n, lim);
    OverdueIsBroken(states[n], id, lim);
    TurnsIsProduct(states[n].ctl.cfg.fifoDepth + 1, lim.Turn());
  }

  /** One expected board: the same for every run in which no response raised on an
      entry it had taken out. */
  lemma OneBoardCompletes(states: seq<Sys>, events: seq<Event>, n: nat, id: Id, lim: Limits)
    requires lim.Sane() && Run(states, events) && n <= |events|
    requires NoRaise(states, events, n) && TimelyRun(states, events, n, lim)
    requires |states[0].ctl.cfg.boards| == 1
    requires id < |states[n].ctl.accepted| && id !in states[n].ctl.ledger.outcome
    ensures var c := states[n].ctl;
            var due := c.accepted[id].enqueuedAt + (c.cfg.fifoDepth + 1) as real * (lim.w + MAX_COMMAND_TIMEOUT_S);
            InTime(states[n], id, due, lim)
  {
    hide InTime, Init, StepAt, TimelyRun, Clean, Conserved, NoRaise;
    OneBoardLosesNothing(states, events, n);
    BoundedCompletion(states, events, n, id, lim);
  }

  lemma OverdueIsBroken(s: Sys, id: Id, lim: Limits)
    requires lim.Sane() && OnTime(s, lim) && Steady(s)
    requires s.ctl.stranded == {} && id < |s.ctl.accepted| && !Done(s.ctl, id)
    ensures InTime(s, id, Due(s.ctl, s.ctl.accepted[id], lim), lim)
  {
    hide CtlOnTime, InFlightOk, GateOk, SentOk, FailedOk;
    var c := s.ctl;
    var e := c.accepted[id];
    assert AcceptedOk(c, id) && Placed(c, id);
    if InPending(c, id) {
      PendingInTime(c, e.boardSeq, lim);
      assert WrittenOk(c, c.pending.m[e.boardSeq]);
    } else if Ready(c.boards[e.board]) {
      BreaksOnTime(c, e.board, lim);
    } else {
      assert EndedOnTime(s, e.board, lim);
    }
  }

  lemma PendingInTime(c: Ctl, k: nat, lim: Limits)
    requires lim.Sane() && CtlOnTime(c, lim) && InFlightOk(c) && c.stranded == {} && k in c.pending.m
    ensures c.now <= Due(c, c.pending.m[k], lim)
  {
    PendingNotOverdue(c, k, lim);
  }
}
