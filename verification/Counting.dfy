/** The books balance: what was taken in is answered, queued or pending. */
module Counting {
  import opened Basics
  import opened Protocol
  import opened Controller
  import opened Accounts
  import opened Conservation
  import opened Steps
  import opened Resolvers
  import opened System
  import opened Loss
  import opened Safety
  import opened Flight
  import opened Service
  import opened Slots
  import opened Outcomes

  predicate DistinctIds(es: seq<Entry>) {
    forall i, j :: 0 <= i < j < |es| ==> es[i].id != es[j].id
  }

  function IdsOf(es: seq<Entry>): set<Id> { set e | e in es :: e.id }

  /** As many ids as entries. */
  lemma {:induction false} CountIds(es: seq<Entry>)
    requires DistinctIds(es)
    ensures |IdsOf(es)| == |es|
  {
    if es != [] {
      CountIds(es[1..]);
      assert es == [es[0]] + es[1..];
      assert IdsOf(es) == IdsOf(es[1..]) + {es[0].id};
      assert es[0].id !in IdsOf(es[1..]) by {
        forall e | e in es[1..] ensures e.id != es[0].id {
          var j :| 0 <= j < |es[1..]| && es[1..][j] == e;
          assert es[j + 1] == e;
        }
      }
    }
  }

  function Members(ks: seq<nat>): set<nat> { set k | k in ks }

  lemma {:induction false} CountMembers(ks: seq<nat>)
    requires NoDup(ks)
    ensures |Members(ks)| == |ks|
  {
    if ks != [] {
      var rest := ks[1..];
      CountMembers(rest);
      assert ks == [ks[0]] + rest;
      assert Members(ks) == Members(rest) + {ks[0]};
    }
  }

  lemma CountKeys(d: Dict<Entry>)
    requires d.Valid()
    ensures |d.order| == |d.m|
  {
    CountMembers(d.order);
    assert Members(d.order) == d.m.Keys;
  }

  /** The queued commands of the boards from position `i` on, each once. */
  lemma {:induction false} QueuedDistinct(c: Ctl, i: nat)
    requires Tables(c) && i <= |c.cfg.boards|
    ensures DistinctIds(QueuedFrom(c, i))
    ensures forall e :: e in QueuedFrom(c, i) ==>
            InFifo(c, e.id) && c.accepted[e.id] == e && e.board in c.cfg.boards[i..]
    decreases |c.cfg.boards| - i
  {
    if i < |c.cfg.boards| {
      QueuedDistinct(c, i + 1);
      var b := c.cfg.boards[i];
      OneQueueDistinct(c, b);
      HeadBoard(c.cfg.boards, i);
      AppendDistinct(c, c.boards[b].fifo, QueuedFrom(c, i + 1), b, c.cfg.boards[i + 1..]);
      forall e | e in QueuedFrom(c, i) ensures InFifo(c, e.id) && c.accepted[e.id] == e
        && e.board in c.cfg.boards[i..] {
        assert e in c.boards[b].fifo || e in QueuedFrom(c, i + 1);
      }
    }
  }

  lemma HeadBoard(bs: seq<BoardId>, i: nat)
    requires NoDup(bs) && i < |bs|
    ensures bs[i..] == [bs[i]] + bs[i + 1..] && bs[i] !in bs[i + 1..]
  {
  }

  lemma OneQueueDistinct(c: Ctl, b: BoardId)
    requires Tables(c) && b in c.boards
    ensures DistinctIds(c.boards[b].fifo)
    ensures forall e :: e in c.boards[b].fifo ==> InFifo(c, e.id) && c.accepted[e.id] == e && e.board == b
  {
    var q := c.boards[b].fifo;
    assert QueueOk(c, q);
    forall e | e in q ensures InFifo(c, e.id) && c.accepted[e.id] == e && e.board == b {
      var j :| 0 <= j < |q| && q[j] == e;
      QueueMember(c, b, j);
    }
  }

  lemma AppendDistinct(c: Ctl, p: seq<Entry>, q: seq<Entry>, b: BoardId, bs: seq<BoardId>)
    requires DistinctIds(p) && DistinctIds(q) && b !in bs
    requires forall e :: e in p ==> e.id < |c.accepted| && c.accepted[e.id] == e && e.board == b
    requires forall e :: e in q ==> e.id < |c.accepted| && c.accepted[e.id] == e && e.board in bs
    ensures DistinctIds(p + q)
  {
    var r := p + q;
    forall i, j | 0 <= i < j < |r| ensures r[i].id != r[j].id {
      if i < |p| <= j {
        assert r[i] == p[i] && p[i] in p && r[j] == q[j - |p|] && q[j - |p|] in q;
      }
    }
  }

  lemma OneKeyPerCommand(c: Ctl, k: nat, j: nat)
    requires Tables(c) && k in c.pending.m && j in c.pending.m && c.pending.m[k].id == c.pending.m[j].id
    ensures k == j
  {
    assert WrittenOk(c, c.pending.m[k]) && WrittenOk(c, c.pending.m[j]);
  }

  lemma PendingDistinct(c: Ctl)
    requires Tables(c)
    ensures DistinctIds(c.pending.Values())
  {
    hide Tables, Dict.Values;
    TablesAreValid(c);
    var vs, ks := c.pending.Values(), c.pending.order;
    forall i, j | 0 <= i < j < |vs| ensures vs[i].id != vs[j].id {
      if vs[i].id == vs[j].id { OneKeyPerCommand(c, ks[i], ks[j]); }
    }
  }

  lemma PendingIds(c: Ctl)
    requires Tables(c)
    ensures forall id: Id :: id in IdsOf(c.pending.Values()) <==> InPending(c, id)
  {
    var vs := c.pending.Values();
    PendingValues(c);
    forall id: Id ensures id in IdsOf(vs) <==> InPending(c, id) {
      if InPending(c, id) { assert c.pending.m[c.accepted[id].boardSeq] in vs; }
      if id in IdsOf(vs) {
        var e :| e in vs && e.id == id;
        assert WrittenOk(c, c.pending.m[e.boardSeq]);
      }
    }
  }

  lemma QueuedIds(c: Ctl)
    requires Tables(c)
    ensures forall id :: id in IdsOf(Queued(c)) <==> InFifo(c, id)
  {
    QueuedDistinct(c, 0);
    QueuedMembers(c);
    forall id: Id ensures id in IdsOf(Queued(c)) <==> InFifo(c, id) {
      if InFifo(c, id) {
        var e := c.accepted[id];
        assert AcceptedOk(c, id);
        assert e.board in c.boards.Keys && e in c.boards[e.board].fifo;
        assert e in Queued(c) && e.id == id;
      }
    }
  }

  function Upto(n: nat): (ids: set<Id>)
    ensures forall id: Id :: id in ids <==> id < n
    ensures |ids| == n
  {
    if n == 0 then {} else Upto(n - 1) + {n - 1}
  }

  /** Answered, queued and pending commands are three disjoint sets, and how many
      there are of each. */
  lemma ThreePlaces(c: Ctl)
    requires Tables(c)
    ensures var done, queued, pending := c.ledger.outcome.Keys, IdsOf(Queued(c)), IdsOf(c.pending.Values());
            && (forall id: Id :: id in done || id in queued || id in pending <==> Placed(c, id))
            && (forall id: Id :: id in done || id in queued || id in pending ==> id < |c.accepted|)
            && done !! queued && done !! pending && queued !! pending
            && |done + queued + pending| == |c.ledger.outcome| + |Queued(c)| + |c.pending.m|
  {
    var done, queued, pending := c.ledger.outcome.Keys, IdsOf(Queued(c)), IdsOf(c.pending.Values());
    hide Tables, IdsOf, Queued, Valid, Dict.Values;
    QueuedDistinct(c, 0);
    QueuedIds(c);
    PendingDistinct(c);
    PendingIds(c);
    CountIds(Queued(c));
    CountIds(c.pending.Values());
    CountPending(c);
    DoneAreAccepted(c);
    forall id: Id ensures !(id in done && id in queued) && !(id in done && id in pending)
      && !(id in queued && id in pending) {
      if id < |c.accepted| { OnePlace(c, id); }
    }
    assert done !! queued && done !! pending && queued !! pending;
    assert (done + queued) !! pending;
  }

  lemma CountPending(c: Ctl)
    requires Valid(c)
    ensures |c.pending.Values()| == |c.pending.m|
  {
    CountKeys(c.pending);
  }

  lemma DoneAreAccepted(c: Ctl)
    requires Tables(c)
    ensures forall id :: id in c.ledger.outcome ==> id < |c.accepted|
  {
  }

  lemma AllUpto(ids: set<Id>, n: nat)
    requires forall id: Id :: id in ids <==> id < n
    ensures |ids| == n
  {
    assert ids == Upto(n);
  }

  /** Every accepted command has one place: the places add up. */
  lemma PlacesAddUp(c: Ctl)
    requires Tables(c) && Conserved(c)
    ensures |c.accepted| == |c.ledger.outcome| + |Queued(c)| + |c.pending.m|
  {
    hide Tables, Placed, IdsOf, Queued;
    TablesAreValid(c);
    var done, queued, pending := c.ledger.outcome.Keys, IdsOf(Queued(c)), IdsOf(c.pending.Values());
    ThreePlaces(c);
    AllUpto(done + queued + pending, |c.accepted|) by {
      forall id: Id | id < |c.accepted| ensures id in done || id in queued || id in pending { assert Placed(c, id); }
    }
  }

  /** Terminal-answered plus queued plus pending, against what was taken in. */
  function Answered(c: Counters): nat { c.ok + c.error + c.timeout }

  /** In every run over any boards, the timeouts counted as commands timed out and
      as answers with the timeout status agree, and the books balance if and only
      if no step forfeited: what is missing from them is what was lost. */
  lemma BooksBalance(states: seq<Sys>, events: seq<Event>, n: nat)
    requires Run(states, events) && n <= |events|
    ensures var c := states[n].ctl;
            && Valid(c) && c.ledger.counters.commandTimeouts == c.ledger.counters.timeout
            && (Answered(c.ledger.counters) + |Queued(c)| + |c.pending.m| == c.ledger.taken
               <==> Clean(states, events, n))
  {
    hide Init, StepAt, Forfeits;
    NothingLostIffClean(states, events, n);
    BalancedIffConserved(states[n].ctl);
  }

  /** Whatever was lost, the places held add up to no more. */
  lemma PlacesFallShort(c: Ctl, lost: Id)
    requires Tables(c) && lost < |c.accepted| && !Placed(c, lost)
    ensures |c.accepted| > |c.ledger.outcome| + |Queued(c)| + |c.pending.m|
  {
    hide Tables, Placed, IdsOf, Queued;
    TablesAreValid(c);
    var done, queued, pending := c.ledger.outcome.Keys, IdsOf(Queued(c)), IdsOf(c.pending.Values());
    ThreePlaces(c);
    var held := done + queued + pending;
    assert lost !in held && held + {lost} <= Upto(|c.accepted|);
    Smaller(held + {lost}, Upto(|c.accepted|));
  }

  lemma {:induction false} Smaller(a: set<Id>, b: set<Id>)
    requires a <= b
    ensures |a| <= |b|
  {
    assert b == a + (b - a);
  }

  lemma BalancedIffConserved(c: Ctl)
    requires Sound(c)
    ensures c.ledger.counters.commandTimeouts == c.ledger.counters.timeout
    ensures Answered(c.ledger.counters) + |Queued(c)| + |c.pending.m| == c.ledger.taken <==> Conserved(c)
  {
    hide Tables, Placed;
    if Conserved(c) {
      PlacesAddUp(c);
    } else {
      var lost :| 0 <= lost < |c.accepted| && !Placed(c, lost);
      PlacesFallShort(c, lost);
    }
  }

  // ------------------------------------------------------------ when a board is busy

  /** The commands of board `b` that were taken in and not answered yet. */
  function Waiting(c: Ctl, b: BoardId): set<Id> {
    set id: Id | 0 <= id < |c.accepted| && c.accepted[id].board == b && id !in c.ledger.outcome
  }

  function InSlot(c: Ctl, b: BoardId): set<Id>
    requires b in c.boards
  {
    var slot := c.boards[b].inFlight;
    if slot.Some? && slot.value in c.pending.m then {c.pending.m[slot.value].id} else {}
  }

  lemma QueuedOnBoard(c: Ctl, b: BoardId, id: Id)
    requires Tables(c) && b in c.boards
    ensures id in IdsOf(c.boards[b].fifo) <==> InFifo(c, id) && c.accepted[id].board == b
  {
    OneQueueDistinct(c, b);
    if InFifo(c, id) && c.accepted[id].board == b { assert AcceptedOk(c, id); }
  }

  lemma SlottedOnBoard(c: Ctl, b: BoardId, id: Id)
    requires Tables(c) && InFlightOk(c) && b in c.boards
    ensures id in InSlot(c, b) <==> InPending(c, id) && c.accepted[id].board == b
  {
    var slot := c.boards[b].inFlight;
    if slot.Some? { PendingEntryOk(c, slot.value); }
    if InPending(c, id) { PendingEntryOk(c, c.accepted[id].boardSeq); }
  }

  lemma WaitingIsQueuedOrSlotted(c: Ctl, b: BoardId)
    requires Tables(c) && Conserved(c) && InFlightOk(c) && b in c.boards
    ensures Waiting(c, b) == IdsOf(c.boards[b].fifo) + InSlot(c, b)
    ensures IdsOf(c.boards[b].fifo) !! InSlot(c, b)
    ensures |IdsOf(c.boards[b].fifo)| == |c.boards[b].fifo|
  {
    hide Tables, InFlightOk, InFifo, InPending, IdsOf, InSlot;
    OneQueueDistinct(c, b);
    CountIds(c.boards[b].fifo);
    forall id: Id
      ensures id in Waiting(c, b) <==> id in IdsOf(c.boards[b].fifo) || id in InSlot(c, b)
      ensures !(id in IdsOf(c.boards[b].fifo) && id in InSlot(c, b))
    {
      QueuedOnBoard(c, b, id);
      SlottedOnBoard(c, b, id);
      PlacedAccepted(c, id);
      if id < |c.accepted| {
        OnePlace(c, id);
        assert Placed(c, id);
      }
    }
  }

  lemma PlacedAccepted(c: Ctl, id: Id)
    ensures InFifo(c, id) || InPending(c, id) ==> id < |c.accepted|
  {
  }

  lemma SlotCounts(c: Ctl, b: BoardId)
    requires InFlightOk(c) && b in c.boards
    ensures |InSlot(c, b)| == if c.boards[b].inFlight.Some? then 1 else 0
  {
  }

  /** In a run in which nothing was lost, a command that passes every other check is
      answered BOARD_BUSY if and only if fifoDepth + 1 commands of its board are
      waiting for their answer; with fewer it is not refused, and there never are more. */
  lemma BusyIffFull(states: seq<Sys>, events: seq<Event>, n: nat, command: Command, local: Reply)
    requires Run(states, events) && n <= |events| && Clean(states, events, n)
    requires var c, b := states[n].ctl, command.target;
             && !c.closing && b != LOCAL_TARGET && b in c.boards && Ready(c.boards[b])
             && command.name in c.boards[b].reg.gates && !(c.latched && Gated(c.boards[b], command.name))
    ensures Valid(states[n].ctl)
    ensures var c := states[n].ctl;
            var r, waiting := Route(c, command, local).1, |Waiting(c, command.target)|;
            && (r.Answered? <==> waiting == c.cfg.fifoDepth + 1)
            && (r.Answered? ==> r.reply.code == Some(BOARD_BUSY))
            && waiting <= c.cfg.fifoDepth + 1
  {
    hide Init, StepAt, Forfeits, LedgerOk, Tables, InFlightOk, Waiting, InSlot, IdsOf, LinkOk, GateOk, SentOk,
         FailedOk, Route;
    CleanRunsAreSteady(states, events, n);
    QueuesAreBounded(states, events, n);
    var c, b := states[n].ctl, command.target;
    TablesAreValid(c);
    RoutingRefusals(c, command, local);
    WaitingIsQueuedOrSlotted(c, b);
    SlotCounts(c, b);
    assert |Waiting(c, b)| == |c.boards[b].fifo| + |InSlot(c, b)|;
  }
}
