/** The heartbeat of one board connection (board_connection.py, state.py): acks,
    ack timeouts, writes and session ends in any interleaving. */
module Heartbeat {
  import opened Basics

  /** Where the heartbeat loop is suspended. A loop whose write raised has ended;
      its last seq stays pending until the session stops it. */
  datatype Loop = Off | Sleeping | Writing(seq_: nat) | Waiting(seq_: nat) | Ended

  /** One settled heartbeat. */
  datatype Beat = Beat(seqno: nat, acked: bool)

  /** `log` are the settled heartbeats in order, `written` those whose write
      completed, `cut` those of them unsettled when the session stopped. */
  datatype Monitor = Monitor(
    threshold: nat, loop: Loop, seqno: nat, pending: Option<nat>, ackSet: bool, missed: nat, suspect: bool,
    log: seq<Beat>, written: set<nat>, cut: set<nat>)

  datatype Event = StartLoop | Begin | WriteDone | WriteRaises | Ack(seqno: int) | BadAck | Timeout | Wake | Stop

  function New(threshold: nat): Monitor { Monitor(threshold, Off, 0, None, false, 0, false, [], {}, {}) }

  function Start(m: Monitor): Monitor { if m.loop.Off? then m.(loop := Sleeping) else m }

  function BeginBeat(m: Monitor): Monitor {
    if !m.loop.Sleeping? then m
    else m.(seqno := m.seqno + 1, pending := Some(m.seqno + 1), ackSet := false, loop := Writing(m.seqno + 1))
  }

  function WriteReturned(m: Monitor): Monitor {
    if !m.loop.Writing? then m else m.(loop := Waiting(m.loop.seq_), written := m.written + {m.loop.seq_})
  }

  function WriteRaised(m: Monitor): Monitor { if !m.loop.Writing? then m else m.(loop := Ended) }

  function Acked(m: Monitor, k: int): Monitor {
    if m.pending.None? || m.pending.value != k then m
    else m.(pending := None, ackSet := true, missed := 0, suspect := false,
      log := m.log + [Beat(m.pending.value, true)])
  }

  /** The ack timeout ran out; the heartbeat may have been acked meanwhile. */
  function TimedOut(m: Monitor): Monitor {
    if !m.loop.Waiting? then m
    else if m.pending == Some(m.loop.seq_) then
      m.(loop := Sleeping, pending := None, missed := m.missed + 1,
         suspect := m.suspect || m.missed + 1 >= m.threshold, log := m.log + [Beat(m.loop.seq_, false)])
    else m.(loop := Sleeping)
  }

  function Woken(m: Monitor): Monitor { if m.loop.Waiting? && m.ackSet then m.(loop := Sleeping) else m }

  function Stopped(m: Monitor): Monitor {
    m.(loop := Off, pending := None, ackSet := true,
       cut := if m.loop.Waiting? && m.pending == Some(m.loop.seq_) then m.cut + {m.loop.seq_} else m.cut)
  }

  function Step(m: Monitor, e: Event): Monitor {
    match e
    case StartLoop => Start(m)
    case Begin => BeginBeat(m)
    case WriteDone => WriteReturned(m)
    case WriteRaises => WriteRaised(m)
    case Ack(k) => Acked(m, k)
    case BadAck => m
    case Timeout => TimedOut(m)
    case Wake => Woken(m)
    case Stop => Stopped(m)
  }

  function After(threshold: nat, es: seq<Event>): Monitor {
    if es == [] then New(threshold) else Step(After(threshold, es[..|es| - 1]), es[|es| - 1])
  }

  // -------------------------------------------------------------- invariant

  predicate Settled(log: seq<Beat>, k: nat) { exists i :: 0 <= i < |log| && log[i].seqno == k }

  /** How many heartbeats have been missed since the last ack, as the log has it. */
  function MissedInARow(log: seq<Beat>): nat {
    if log == [] || log[|log| - 1].acked then 0 else 1 + MissedInARow(log[..|log| - 1])
  }

  ghost predicate LogOk(m: Monitor) {
    && (forall i :: 0 <= i < |m.log| ==> 1 <= m.log[i].seqno <= m.seqno)
    && (forall i, j :: 0 <= i < j < |m.log| ==> m.log[i].seqno < m.log[j].seqno)
    && m.missed == MissedInARow(m.log)
    && (m.suspect <==> m.missed >= m.threshold)
  }

  /** The heartbeat being written or waited for is pending, or has been acked. */
  ghost predicate LoopOk(m: Monitor) {
    && (m.pending.Some? ==>
       m.pending.value == m.seqno >= 1 && !m.loop.Off? && !m.loop.Sleeping? && !Settled(m.log, m.seqno))
    && (m.loop.Writing? || m.loop.Waiting? ==>
          m.loop.seq_ == m.seqno >= 1 && (m.pending.Some? || (m.ackSet && Settled(m.log, m.seqno))))
    && ((m.loop.Writing? || m.loop.Waiting?) && m.ackSet ==> m.pending.None?)
    && (m.loop.Writing? ==> m.seqno !in m.written)
  }

  ghost predicate WrittenOk(m: Monitor, k: nat) {
    1 <= k <= m.seqno && (Settled(m.log, k) || k in m.cut || (m.loop == Waiting(k) && m.pending == Some(k)))
  }

  ghost predicate CutOk(m: Monitor, k: nat) { k <= m.seqno && !Settled(m.log, k) && m.pending != Some(k) }

  ghost predicate Valid(m: Monitor) {
    && LogOk(m) && LoopOk(m)
    && (forall k :: k in m.written ==> WrittenOk(m, k))
    && (forall k :: k in m.cut ==> CutOk(m, k))
  }

  lemma SettledSnoc(log: seq<Beat>, b: Beat, k: nat)
    ensures Settled(log + [b], k) <==> Settled(log, k) || k == b.seqno
  {
    if Settled(log, k) {
      var i :| 0 <= i < |log| && log[i].seqno == k;
      assert (log + [b])[i].seqno == k;
    }
    assert (log + [b])[|log|] == b;
  }

  /** The pending heartbeat is settled, either way. */
  lemma SettleKeeps(m: Monitor, t: Monitor, acked: bool)
    requires Valid(m) && m.threshold > 0 && m.pending.Some? && m.seqno >= 1
    requires t.log == m.log + [Beat(m.seqno, acked)]
    requires t.pending == None && t.seqno == m.seqno && t.written == m.written
    requires t.threshold == m.threshold && t.cut == m.cut
    requires t.missed == (if acked then 0 else m.missed + 1) && t.suspect == (t.missed >= m.threshold)
    requires t.loop == Sleeping || (t.loop == m.loop && t.ackSet)
    ensures Valid(t)
  {
    var b := Beat(m.seqno, acked);
    forall k: nat ensures Settled(t.log, k) <==> Settled(m.log, k) || k == m.seqno { SettledSnoc(m.log, b, k); }
    assert t.log[..|m.log|] == m.log;
    assert forall i :: 0 <= i < |m.log| ==> m.log[i].seqno != m.seqno;
    forall k | k in t.written ensures WrittenOk(t, k) { assert WrittenOk(m, k); }
    forall k | k in t.cut ensures CutOk(t, k) { assert CutOk(m, k); }
  }

  /** Nothing is settled, and nothing written is forgotten. */
  lemma MoveKeeps(m: Monitor, t: Monitor)
    requires Valid(m) && t.log == m.log && t.missed == m.missed && t.suspect == m.suspect && t.threshold == m.threshold
    requires m.seqno <= t.seqno && LoopOk(t)
    requires forall k :: k in t.written ==> k in m.written || t.loop == Waiting(k)
    requires forall k :: k in t.cut <==>
             k in m.cut || (m.loop == Waiting(k) && m.pending == Some(k) && t.pending == None)
    requires t.pending == m.pending || t.pending == None || m.seqno < t.seqno
    requires m.pending.Some? && t.pending == m.pending && m.loop.Waiting? ==> t.loop == m.loop
    requires m.seqno < t.seqno ==> m.pending == None
    ensures Valid(t)
  {
    forall k | k in t.written ensures WrittenOk(t, k) { if k in m.written { assert WrittenOk(m, k); } }
    forall k | k in t.cut ensures CutOk(t, k) { if k in m.cut { assert CutOk(m, k); } }
  }

  lemma BeginKeeps(m: Monitor)
    requires Valid(m) && m.loop.Sleeping?
    ensures Valid(BeginBeat(m))
  {
    var t := BeginBeat(m);
    assert !Settled(m.log, t.seqno);
    forall k | k in t.written ensures k != t.seqno { assert WrittenOk(m, k); }
    MoveKeeps(m, t);
  }

  lemma StepKeeps(m: Monitor, e: Event)
    requires Valid(m) && m.threshold > 0
    ensures Valid(Step(m, e)) && Step(m, e).threshold == m.threshold
  {
    match e
    case Begin => if m.loop.Sleeping? { BeginKeeps(m); }
    case Ack(k) => if m.pending.Some? && m.pending.value == k { SettleKeeps(m, Acked(m, k), true); }
    case Timeout =>
      if m.loop.Waiting? && m.pending == Some(m.loop.seq_) { SettleKeeps(m, TimedOut(m), false); }
      else if m.loop.Waiting? { MoveKeeps(m, TimedOut(m)); }
    case BadAck =>
    case StartLoop => if m.loop.Off? { MoveKeeps(m, Start(m)); }
    case WriteDone => if m.loop.Writing? { MoveKeeps(m, WriteReturned(m)); }
    case WriteRaises => if m.loop.Writing? { MoveKeeps(m, WriteRaised(m)); }
    case Wake => if m.loop.Waiting? && m.ackSet { WakeKeeps(m); }
    case Stop => MoveKeeps(m, Stopped(m));
  }

  /** What the end of a wait leaves of the fields the code keeps. */
  lemma TimedOutKeeps(m: Monitor)
    requires Valid(m) && m.threshold > 0 && m.loop.Waiting?
    ensures var t, missed := TimedOut(m), m.pending == Some(m.loop.seq_);
            && Valid(t) && t.threshold == m.threshold && t.seqno == m.seqno && t.ackSet == m.ackSet
            && t.pending == (if missed then None else m.pending)
            && t.missed == m.missed + (if missed then 1 else 0)
            && t.suspect == (m.suspect || (missed && t.missed >= m.threshold))
            && (t.suspect <==> t.missed >= m.threshold)
  {
    hide Valid;
    StepKeeps(m, Timeout);
    SuspectRule(m);
    SuspectRule(TimedOut(m));
  }

  lemma SuspectRule(m: Monitor)
    requires Valid(m)
    ensures m.suspect <==> m.missed >= m.threshold
  {
  }

  lemma WakeKeeps(m: Monitor)
    requires Valid(m) && m.loop.Waiting? && m.ackSet
    ensures Valid(Woken(m))
  {
    MoveKeeps(m, Woken(m));
  }

  lemma {:induction false} RunKeeps(threshold: nat, es: seq<Event>)
    requires threshold > 0
    ensures Valid(After(threshold, es)) && After(threshold, es).threshold == threshold
  {
    if es != [] {
      RunKeeps(threshold, es[..|es| - 1]);
      StepKeeps(After(threshold, es[..|es| - 1]), es[|es| - 1]);
    }
  }

  // --------------------------------------------------------------- theorems

  /** In every interleaving: a heartbeat whose write completed has been recorded
      exactly once, as acked or as missed, unless its session was stopped first or
      its ack is still being waited for; and then it has not been recorded. */
  lemma SettledExactlyOnce(threshold: nat, es: seq<Event>, k: nat)
    requires threshold > 0 && k in After(threshold, es).written
    ensures var m := After(threshold, es);
            && (Settled(m.log, k) <==> !(k in m.cut) && !(m.loop == Waiting(k) && m.pending == Some(k)))
            && forall i, j :: 0 <= i < |m.log| && 0 <= j < |m.log| && m.log[i].seqno == k && m.log[j].seqno == k ==>
               i == j
  {
    RunKeeps(threshold, es);
    var m := After(threshold, es);
    assert WrittenOk(m, k);
    assert k in m.cut ==> CutOk(m, k);
  }

  // What happens to a heartbeat, told from the events alone.

  /** Event `i` begins a heartbeat. */
  predicate BeginsAt(threshold: nat, es: seq<Event>, i: nat)
    requires i < |es|
  {
    es[i] == Begin && After(threshold, es[..i]).loop == Sleeping
  }

  /** Event `i` is the ack of heartbeat `k`, which is pending. */
  predicate AckedAt(threshold: nat, es: seq<Event>, i: nat, k: nat)
    requires i < |es|
  {
    es[i] == Ack(k) && After(threshold, es[..i]).pending == Some(k)
  }

  /** Event `i` is the ack timeout of heartbeat `k`, which is pending. */
  predicate MissedAt(threshold: nat, es: seq<Event>, i: nat, k: nat)
    requires i < |es|
  {
    es[i] == Timeout && After(threshold, es[..i]).pending == Some(k) && After(threshold, es[..i]).loop == Waiting(k)
  }

  /** How many heartbeats timed out since the last one that was acked. */
  ghost function MissesSinceAck(threshold: nat, es: seq<Event>): nat {
    if es == [] then 0
    else
      var n := |es| - 1;
      if exists k: nat :: AckedAt(threshold, es, n, k) then 0
      else MissesSinceAck(threshold, es[..n]) + if exists k: nat :: MissedAt(threshold, es, n, k) then 1 else 0
  }

  function Begun(threshold: nat, es: seq<Event>): nat {
    if es == [] then 0
    else Begun(threshold, es[..|es| - 1]) + if BeginsAt(threshold, es, |es| - 1) then 1 else 0
  }

  lemma PrefixTwice(es: seq<Event>, i: nat)
    requires i < |es|
    ensures es[..|es| - 1][..i] == es[..i]
  {
  }

  /** Event `i` settles heartbeat `k` this way. */
  predicate SettlesAt(threshold: nat, es: seq<Event>, i: nat, k: nat, acked: bool)
    requires i < |es|
  {
    if acked then AckedAt(threshold, es, i, k) else MissedAt(threshold, es, i, k)
  }

  /** In every interleaving: a heartbeat is on record as acked if and only if an ack
      naming it arrived while it was pending, and as missed if and only if its ack
      timeout ran out while it was pending. */
  lemma {:induction false} BeatsFollowEvents(threshold: nat, es: seq<Event>, k: nat, acked: bool)
    ensures Beat(k, acked) in After(threshold, es).log
            <==> exists i :: 0 <= i < |es| && SettlesAt(threshold, es, i, k, acked)
  {
    if es != [] {
      var n := |es| - 1;
      var front := es[..n];
      BeatsFollowEvents(threshold, front, k, acked);
      StepRecords(After(threshold, front), es[n], k, acked);
      forall i: nat | i < n
        ensures SettlesAt(threshold, front, i, k, acked) <==> SettlesAt(threshold, es, i, k, acked) {
        PrefixTwice(es, i);
      }
      hide SettlesAt;
      if SettlesAt(threshold, es, n, k, acked) { assert 0 <= n < |es|; }
      SettlesLast(threshold, es, k, acked);
    }
  }

  lemma SettlesLast(threshold: nat, es: seq<Event>, k: nat, acked: bool)
    requires es != []
    ensures var m, e := After(threshold, es[..|es| - 1]), es[|es| - 1];
            SettlesAt(threshold, es, |es| - 1, k, acked)
            <==> m.pending == Some(k) && if acked then e == Ack(k) else e == Timeout && m.loop == Waiting(k)
  {
  }

  lemma StepRecords(m: Monitor, e: Event, k: nat, acked: bool)
    ensures Beat(k, acked) in Step(m, e).log <==>
            || Beat(k, acked) in m.log
            || (m.pending == Some(k) && if acked then e == Ack(k) else e == Timeout && m.loop == Waiting(k))
  {
  }

  lemma {:induction false} MissesCounted(threshold: nat, es: seq<Event>)
    ensures After(threshold, es).missed == MissesSinceAck(threshold, es)
  {
    if es != [] {
      var n := |es| - 1;
      MissesCounted(threshold, es[..n]);
      var m, e := After(threshold, es[..n]), es[n];
      if e.Ack? && m.pending.Some? && m.pending.value == e.seqno { assert AckedAt(threshold, es, n, m.pending.value); }
      if e.Timeout? && m.loop.Waiting? && m.pending == Some(m.loop.seq_) {
        assert MissedAt(threshold, es, n, m.loop.seq_);
      }
    }
  }

  lemma {:induction false} BeginsCounted(threshold: nat, es: seq<Event>)
    ensures After(threshold, es).seqno == Begun(threshold, es)
  {
    if es != [] { BeginsCounted(threshold, es[..|es| - 1]); }
  }

  /** The last heartbeat begun was begun by event `i`, and nothing settled it or ended
      its session since. */
  predicate OpenSince(threshold: nat, es: seq<Event>, i: nat)
    requires i < |es|
  {
    && BeginsAt(threshold, es, i) && Begun(threshold, es) == Begun(threshold, es[..i + 1])
    && forall j :: i < j < |es| ==> !Closes(threshold, es, j, Begun(threshold, es))
  }

  /** Event `j` acks heartbeat `k`, ends a wait for an ack, or stops the session. */
  predicate Closes(threshold: nat, es: seq<Event>, j: nat, k: nat)
    requires j < |es|
  {
    es[j] == Ack(k) || es[j] == Stop || (es[j] == Timeout && After(threshold, es[..j]).loop.Waiting?)
  }

  /** In every interleaving: the heartbeat pending is the latest one begun, from its
      beginning until its ack, the end of its wait or the end of its session. */
  lemma {:induction false} PendingIff(threshold: nat, es: seq<Event>, k: nat)
    requires threshold > 0
    ensures After(threshold, es).pending == Some(k)
            <==> k == Begun(threshold, es) && exists i: nat :: i < |es| && OpenSince(threshold, es, i)
  {
    if es != [] {
      var n := |es| - 1;
      var front := es[..n];
      PendingIff(threshold, front, k);
      RunKeeps(threshold, front);
      RunKeeps(threshold, es);
      BeginsCounted(threshold, front);
      BeginsCounted(threshold, es);
      if BeginsAt(threshold, es, n) {
        assert es[..n + 1] == es;
        assert OpenSince(threshold, es, n);
      } else {
        forall i: nat | i < n
          ensures OpenSince(threshold, es, i)
                  <==> OpenSince(threshold, front, i) && !Closes(threshold, es, n, Begun(threshold, es)) {
          OpenStays(threshold, es, i);
        }
        assert !OpenSince(threshold, es, n);
        StepPends(After(threshold, front), es[n], k);
      }
    }
  }

  lemma OpenStays(threshold: nat, es: seq<Event>, i: nat)
    requires i < |es| - 1 && !BeginsAt(threshold, es, |es| - 1)
    ensures var n := |es| - 1;
            OpenSince(threshold, es, i)
            <==> OpenSince(threshold, es[..n], i) && !Closes(threshold, es, n, Begun(threshold, es))
  {
    hide After;
    var n := |es| - 1;
    PrefixTwice(es, i);
    assert es[..n][..i + 1] == es[..i + 1];
    forall j: nat | j < n
      ensures Closes(threshold, es, j, Begun(threshold, es)) <==> Closes(threshold, es[..n], j, Begun(threshold, es)) {
      PrefixTwice(es, j);
    }
  }

  lemma StepPends(m: Monitor, e: Event, k: nat)
    requires Valid(m) && !(e == Begin && m.loop == Sleeping)
    ensures Step(m, e).pending == Some(k)
            <==> m.pending == Some(k) && e != Ack(k) && e != Stop && !(e == Timeout && m.loop.Waiting?)
  {
  }

  /** Event `i` is the end of the write of heartbeat `k`. */
  predicate WrittenAt(threshold: nat, es: seq<Event>, i: nat, k: nat)
    requires i < |es|
  {
    es[i] == WriteDone && After(threshold, es[..i]).loop == Writing(k)
  }

  /** Event `i` stops the session while the ack of heartbeat `k` is awaited. */
  predicate CutAt(threshold: nat, es: seq<Event>, i: nat, k: nat)
    requires i < |es|
  {
    && es[i] == Stop && After(threshold, es[..i]).loop == Waiting(k)
    && After(threshold, es[..i]).pending == Some(k)
  }

  /** `written` and `cut` are what their names say of the events. */
  lemma {:induction false} HistoriesFollowEvents(threshold: nat, es: seq<Event>, k: nat)
    ensures k in After(threshold, es).written <==> exists i: nat :: i < |es| && WrittenAt(threshold, es, i, k)
    ensures k in After(threshold, es).cut <==> exists i: nat :: i < |es| && CutAt(threshold, es, i, k)
  {
    if es != [] {
      var n := |es| - 1;
      var front := es[..n];
      HistoriesFollowEvents(threshold, front, k);
      forall i: nat | i < n
        ensures WrittenAt(threshold, front, i, k) <==> WrittenAt(threshold, es, i, k)
        ensures CutAt(threshold, front, i, k) <==> CutAt(threshold, es, i, k)
      {
        PrefixTwice(es, i);
      }
      StepHistories(threshold, es, k);
      hide WrittenAt, CutAt;
      assert WrittenAt(threshold, es, n, k) ==> 0 <= n < |es|;
    }
  }

  lemma StepHistories(threshold: nat, es: seq<Event>, k: nat)
    requires es != []
    ensures var m, t, n := After(threshold, es[..|es| - 1]), After(threshold, es), |es| - 1;
            && (k in t.written <==> k in m.written || WrittenAt(threshold, es, n, k))
            && (k in t.cut <==> k in m.cut || CutAt(threshold, es, n, k))
  {
    hide Step;
    OneStepHistories(After(threshold, es[..|es| - 1]), es[|es| - 1], k);
  }

  lemma OneStepHistories(m: Monitor, e: Event, k: nat)
    ensures k in Step(m, e).written <==> k in m.written || (e == WriteDone && m.loop == Writing(k))
    ensures k in Step(m, e).cut <==> k in m.cut || (e == Stop && m.loop == Waiting(k) && m.pending == Some(k))
  {
  }

  /** Where the loop goes from wherever a run has left it: a session start sets it going,
      a beat takes the next number, a wait for an ack ends when the ack timeout runs out,
      and before that exactly if the heartbeat is no longer pending; a write that raised
      ends it until the session stops. */
  lemma LoopMoves(threshold: nat, es: seq<Event>, e: Event)
    requires threshold > 0
    ensures var m, loop := After(threshold, es), After(threshold, es).loop;
            After(threshold, es + [e]).loop ==
              if e == Stop then Off
              else if e == StartLoop && loop == Off then Sleeping
              else if e == Begin && loop == Sleeping then Writing(Begun(threshold, es) + 1)
              else if e == WriteDone && loop.Writing? then Waiting(Begun(threshold, es))
              else if e == WriteRaises && loop.Writing? then Ended
              else if loop.Waiting? && (e == Timeout || (e == Wake && m.pending != Some(loop.seq_))) then Sleeping
              else loop
  {
    RunKeeps(threshold, es);
    BeginsCounted(threshold, es);
    assert (es + [e])[..|es|] == es;
  }

  /** The suspicion flag holds exactly when at least `threshold` heartbeats timed out
      since the last one that was acked, across all reconnects. */
  lemma SuspectIffThreshold(threshold: nat, es: seq<Event>)
    requires threshold > 0
    ensures After(threshold, es).suspect <==> MissesSinceAck(threshold, es) >= threshold
    ensures After(threshold, es).missed == MissesSinceAck(threshold, es)
  {
    RunKeeps(threshold, es);
    MissesCounted(threshold, es);
  }

  /** An ack clears suspicion only if it names the heartbeat pending at that moment;
      one for a heartbeat settled, stopped or never sent changes nothing. */
  lemma StrayAcksChangeNothing(threshold: nat, es: seq<Event>, k: nat)
    requires threshold > 0
    ensures var m := After(threshold, es);
            && (Step(m, Ack(k)) != m <==> m.pending == Some(k))
            && (m.pending == Some(k) ==> Step(m, Ack(k)).missed == 0 && !Step(m, Ack(k)).suspect)
            && (Settled(m.log, k) || k in m.cut || k != m.seqno ==> Step(m, Ack(k)) == m)
  {
    RunKeeps(threshold, es);
    assert k in After(threshold, es).cut ==> CutOk(After(threshold, es), k);
  }

  // ------------------------------------------------------ the code in place

  class HeartbeatLoop {
    const suspectAfterMisses: nat
    var heartbeatSeq: nat
    var pendingHeartbeatSeq: Option<nat>
    var ackEvent: bool
    var missedCount: nat
    var rxPathSuspect: bool
    ghost var run: Monitor

    ghost predicate Holds()
      reads this
    {
      && Valid(run) && run.threshold == suspectAfterMisses > 0
      && heartbeatSeq == run.seqno && pendingHeartbeatSeq == run.pending && ackEvent == run.ackSet
      && missedCount == run.missed && rxPathSuspect == run.suspect
    }

    constructor (threshold: nat)
      requires threshold > 0
      ensures Holds() && run == New(threshold)
    {
      suspectAfterMisses := threshold;
      heartbeatSeq, pendingHeartbeatSeq, ackEvent, missedCount, rxPathSuspect := 0, None, false, 0, false;
      run := New(threshold);
    }

    /** `_send_one_heartbeat` up to its write. */
    method BeginHeartbeat() returns (k: nat)
      requires Holds() && run.loop.Sleeping?
      modifies this
      ensures Holds() && run == BeginBeat(old(run)) && run.loop == Writing(k)
      ensures k == old(heartbeatSeq) + 1 == heartbeatSeq && pendingHeartbeatSeq == Some(k) && !ackEvent
    {
      StepKeeps(run, Begin);
      hide Valid;
      heartbeatSeq := heartbeatSeq + 1;
      k := heartbeatSeq;
      pendingHeartbeatSeq := Some(k);
      ackEvent := false;
      run := BeginBeat(run);
    }

    /** The wait for the ack of heartbeat `k` ran out. */
    method AckTimedOut(k: nat)
      requires Holds() && run.loop == Waiting(k)
      modifies this
      ensures Holds() && run == TimedOut(old(run))
      ensures var missed := old(pendingHeartbeatSeq) == Some(k);
              && missedCount == old(missedCount) + (if missed then 1 else 0)
              && (rxPathSuspect <==> missedCount >= suspectAfterMisses)
              && pendingHeartbeatSeq == (if missed then None else old(pendingHeartbeatSeq))
    {
      hide Valid, TimedOut;
      TimedOutKeeps(run);
      if pendingHeartbeatSeq == Some(k) {
        pendingHeartbeatSeq := None;
        missedCount := missedCount + 1;
        if missedCount >= suspectAfterMisses { rxPathSuspect := true; }
      }
      run := TimedOut(run);
    }

    /** A well-formed heartbeat message from the board. */
    method HandleHeartbeatAck(k: int) returns (matched: bool)
      requires Holds()
      modifies this
      ensures Holds() && run == Acked(old(run), k) && matched == (run != old(run))
      ensures matched <==> old(pendingHeartbeatSeq.Some? && pendingHeartbeatSeq.value == k)
      ensures matched ==> pendingHeartbeatSeq.None? && ackEvent && missedCount == 0 && !rxPathSuspect
      ensures heartbeatSeq == old(heartbeatSeq)
    {
      StepKeeps(run, Ack(k));
      hide Valid;
      matched := pendingHeartbeatSeq.Some? && pendingHeartbeatSeq.value == k;
      if matched {
        pendingHeartbeatSeq := None;
        missedCount := 0;
        rxPathSuspect := false;
        ackEvent := true;
      }
      run := Acked(run, k);
    }

    method StopHeartbeat()
      requires Holds()
      modifies this
      ensures Holds() && run == Stopped(old(run)) && pendingHeartbeatSeq == None && ackEvent
      ensures missedCount == old(missedCount) && rxPathSuspect == old(rxPathSuspect)
    {
      StepKeeps(run, Stop);
      hide Valid;
      pendingHeartbeatSeq := None;
      ackEvent := true;
      run := Stopped(run);
    }
  }
}
