/** The drop-oldest observability queue and its worker (observability.py). */
module ObsQueue {
  import opened Basics

  type Record = string

  /** The queue with its history. `handled` are the positions in `enqueued` the
      worker has taken; `hand` is the one it is working on. */
  datatype Obs = Obs(
    maxsize: nat, enqueued: seq<Record>, size: nat, handled: seq<nat>, hand: Option<nat>,
    dropped: nat, written: nat, failed: nat, unfinished: nat)

  datatype Op = Enqueue(record: Record) | Take | Finish(ok: bool)

  /** The most recent records. */
  function Contents(o: Obs): seq<Record>
    requires o.size <= |o.enqueued|
  {
    o.enqueued[|o.enqueued| - o.size..]
  }

  function Enqueued(o: Obs, r: Record): Obs {
    if o.size < o.maxsize then o.(enqueued := o.enqueued + [r], size := o.size + 1, unfinished := o.unfinished + 1)
    else o.(enqueued := o.enqueued + [r], dropped := o.dropped + 1)
  }

  /** The worker takes the oldest record when its hand is free. */
  function Taken(o: Obs): Obs
    requires o.size <= |o.enqueued|
  {
    if o.hand.Some? || o.size == 0 then o
    else
      var p := |o.enqueued| - o.size;
      o.(size := o.size - 1, hand := Some(p), handled := o.handled + [p])
  }

  /** The write of the record in hand ended, well or not. */
  function Finished(o: Obs, ok: bool): Obs {
    if o.hand.None? || o.unfinished == 0 then o
    else if ok then o.(hand := None, written := o.written + 1, unfinished := o.unfinished - 1)
    else o.(hand := None, failed := o.failed + 1, unfinished := o.unfinished - 1)
  }

  function InHand(o: Obs): nat { if o.hand.Some? then 1 else 0 }

  ghost predicate Valid(o: Obs) {
    && 0 < o.maxsize && o.size <= o.maxsize && o.size <= |o.enqueued|
    && |o.enqueued| == o.dropped + o.written + o.failed + InHand(o) + o.size
    && o.unfinished == o.size + InHand(o)
    && |o.handled| == o.written + o.failed + InHand(o)
    && (forall i, j :: 0 <= i < j < |o.handled| ==> o.handled[i] < o.handled[j])
    && (forall i :: 0 <= i < |o.handled| ==> o.handled[i] < |o.enqueued| - o.size)
    && (o.hand.Some? ==> o.handled != [] && o.handled[|o.handled| - 1] == o.hand.value)
  }

  function New(maxsize: nat): Obs { Obs(maxsize, [], 0, [], None, 0, 0, 0, 0) }

  function Step(o: Obs, op: Op): (t: Obs)
    requires o.size <= |o.enqueued|
  {
    match op
    case Enqueue(r) => Enqueued(o, r)
    case Take => Taken(o)
    case Finish(ok) => Finished(o, ok)
  }

  lemma TakenKeeps(o: Obs)
    requires Valid(o)
    ensures Valid(Taken(o))
  {
  }

  lemma StepKeeps(o: Obs, op: Op)
    requires Valid(o)
    ensures Valid(Step(o, op)) && Step(o, op).maxsize == o.maxsize
  {
    hide Taken;
    if op.Take? { TakenKeeps(o); TakenBound(o); }
  }

  lemma TakenBound(o: Obs)
    requires o.size <= |o.enqueued|
    ensures Taken(o).maxsize == o.maxsize
  {
  }

  function After(maxsize: nat, ops: seq<Op>): (o: Obs)
    requires maxsize > 0
    ensures Valid(o) && o.maxsize == maxsize
  {
    if ops == [] then New(maxsize)
    else
      var o := After(maxsize, ops[..|ops| - 1]);
      StepKeeps(o, ops[|ops| - 1]);
      Step(o, ops[|ops| - 1])
  }

  function Put(ops: seq<Op>): seq<Record> {
    if ops == [] then [] else Put(ops[..|ops| - 1]) + (if ops[|ops| - 1].Enqueue? then [ops[|ops| - 1].record] else [])
  }

  /** Operation `i` ends the write of the record in hand, well or not. */
  predicate EndsAt(maxsize: nat, ops: seq<Op>, i: nat, ok: bool)
    requires maxsize > 0 && i < |ops|
  {
    ops[i] == Finish(ok) && After(maxsize, ops[..i]).hand.Some?
  }

  /** How many writes ended well, or not. */
  function Ends(maxsize: nat, ops: seq<Op>, ok: bool): nat
    requires maxsize > 0
  {
    if ops == [] then 0
    else Ends(maxsize, ops[..|ops| - 1], ok) + if EndsAt(maxsize, ops, |ops| - 1, ok) then 1 else 0
  }

  lemma {:induction false} EndsCounted(maxsize: nat, ops: seq<Op>)
    requires maxsize > 0
    ensures After(maxsize, ops).written == Ends(maxsize, ops, true)
    ensures After(maxsize, ops).failed == Ends(maxsize, ops, false)
  {
    if ops != [] {
      EndsCounted(maxsize, ops[..|ops| - 1]);
      Balanced(maxsize, ops[..|ops| - 1]);
    }
  }

  /** Over any run: the queue holds the most recent records in order; each record
      ever enqueued was dropped, written, failed, is in hand or queued; those written
      and failed are as many as writes ended well and not; and `join` waits for exactly
      what is queued or in hand. */
  lemma {:induction false} DropOldest(maxsize: nat, ops: seq<Op>)
    requires maxsize > 0
    ensures var o := After(maxsize, ops);
            && o.enqueued == Put(ops)
            && o.size <= maxsize && o.size <= |Put(ops)| && Contents(o) == Put(ops)[|Put(ops)| - o.size..]
            && |Put(ops)| == o.dropped + o.written + o.failed + InHand(o) + o.size
            && o.written == Ends(maxsize, ops, true) && o.failed == Ends(maxsize, ops, false)
            && o.unfinished == o.size + InHand(o)
  {
    hide Valid;
    EndsCounted(maxsize, ops);
    if ops != [] {
      DropOldest(maxsize, ops[..|ops| - 1]);
      LogStep(After(maxsize, ops[..|ops| - 1]), ops[|ops| - 1]);
    }
    Balanced(maxsize, ops);
  }

  lemma LogStep(o: Obs, op: Op)
    requires o.size <= |o.enqueued|
    ensures Step(o, op).enqueued == o.enqueued + (if op.Enqueue? then [op.record] else [])
  {
  }

  lemma Balanced(maxsize: nat, ops: seq<Op>)
    requires maxsize > 0
    ensures var o := After(maxsize, ops);
            && o.size <= maxsize && o.size <= |o.enqueued|
            && |o.enqueued| == o.dropped + o.written + o.failed + InHand(o) + o.size
            && o.unfinished == o.size + InHand(o)
  {
  }

  lemma EnqueueContents(o: Obs, r: Record)
    requires o.size <= |o.enqueued| && 0 < o.maxsize && o.size <= o.maxsize
    ensures var t := Enqueued(o, r);
            && t.size <= |t.enqueued|
            && Contents(t) == (if o.size == o.maxsize then Contents(o)[1..] else Contents(o)) + [r]
  {
    var n := |o.enqueued|;
    assert (o.enqueued + [r])[n - o.size..] == o.enqueued[n - o.size..] + [r];
    assert o.size > 0 ==> (o.enqueued + [r])[n - o.size + 1..] == o.enqueued[n - o.size..][1..] + [r];
  }

  /** A full queue loses its oldest record to the new one, and nothing else. */
  lemma FullDropsOldest(maxsize: nat, ops: seq<Op>, r: Record)
    requires maxsize > 0
    ensures var o := After(maxsize, ops);
            var t := Enqueued(o, r);
            && t.size <= |t.enqueued|
            && Contents(t) == (if o.size == maxsize then Contents(o)[1..] else Contents(o)) + [r]
            && t.dropped - o.dropped == (if o.size == maxsize then 1 else 0)
            && t.unfinished - o.unfinished == (if o.size == maxsize then 0 else 1)
  {
    EnqueueContents(After(maxsize, ops), r);
  }

  // ------------------------------------------------------ the code in place

  /** asyncio.Queue with its count of unfinished tasks, the counters, the worker. */
  class ObservabilityQueue {
    const maxsize: nat
    var queue: seq<Record>
    var unfinishedTasks: nat
    var obsDropped: nat
    var recordsWritten: nat
    var writeFailures: nat
    ghost var run: Obs

    ghost predicate Holds()
      reads this
    {
      && Valid(run) && run.maxsize == maxsize && queue == Contents(run)
      && unfinishedTasks == run.unfinished && obsDropped == run.dropped
      && recordsWritten == run.written && writeFailures == run.failed
    }

    constructor (size: nat)
      requires size > 0
      ensures Holds() && run == New(size)
    {
      maxsize := size;
      queue := [];
      unfinishedTasks, obsDropped, recordsWritten, writeFailures := 0, 0, 0, 0;
      run := New(size);
    }

    method Enqueue(r: Record) returns (ok: bool)
      requires Holds()
      modifies this
      ensures Holds() && ok && run == Enqueued(old(run), r)
      ensures queue == (if |old(queue)| == maxsize then old(queue)[1..] else old(queue)) + [r]
    {
      EnqueueContents(run, r);
      if |queue| == maxsize {
        queue := queue[1..];
        unfinishedTasks := unfinishedTasks - 1;
        obsDropped := obsDropped + 1;
      }
      queue := queue + [r];
      unfinishedTasks := unfinishedTasks + 1;
      run := Enqueued(run, r);
      return true;
    }

    /** The worker's `get`. */
    method Take() returns (r: Record)
      requires Holds() && queue != [] && run.hand.None?
      modifies this
      ensures Holds() && run == Taken(old(run)) && r == old(queue)[0] && queue == old(queue)[1..]
    {
      r := queue[0];
      queue := queue[1..];
      run := Taken(run);
    }

    /** The rest of the worker's turn: count the outcome, mark the task done. */
    method Finish(ok: bool)
      requires Holds() && run.hand.Some?
      modifies this
      ensures Holds() && run == Finished(old(run), ok)
      ensures unfinishedTasks == old(unfinishedTasks) - 1 && queue == old(queue)
      ensures recordsWritten == old(recordsWritten) + (if ok then 1 else 0)
      ensures writeFailures == old(writeFailures) + (if ok then 0 else 1)
    {
      if ok { recordsWritten := recordsWritten + 1; } else { writeFailures := writeFailures + 1; }
      unfinishedTasks := unfinishedTasks - 1;
      run := Finished(run, ok);
    }
  }
}
