/** What no interleaving can break, over any set of boards: when a queue may hold
    anything, which writes may begin, and that a failed shutdown is final. */
module Safety {
  import opened Basics
  import opened Protocol
  import opened Controller
  import opened Accounts
  import opened Conservation
  import opened Steps
  import opened Resolvers
  import opened System
  import opened Loss

  predicate Quiet(p: Phase) { p == Idle || p == Dialing || p == Linked || p == Downed }

  /** A board between sessions is unavailable and has an empty queue. */
  ghost predicate LinkOk(s: Sys) {
    && s.phase.Keys == s.ctl.boards.Keys
    && forall b :: b in s.phase && Quiet(s.phase[b]) ==>
         s.ctl.boards[b].fifo == [] && s.ctl.boards[b].conn != REGISTERED && !s.ctl.boards[b].writer
  }

  /** Under the latch, every queued command is one that e-stop lets through. */
  ghost predicate GateOk(c: Ctl) {
    c.latched ==> forall b, e :: b in c.boards && e in c.boards[b].fifo ==> !Gated(c.boards[b], e.name)
  }

  ghost predicate SentRight(c: Ctl, w: BoardWrite) {
    && w.id < |c.accepted| && w.board in c.boards
    && c.accepted[w.id].board == w.board && c.accepted[w.id].boardSeq == w.boardSeq
    && !(w.latched && w.gated) && !w.closing && w.age <= w.residencyCap
  }

  /** Every write so far began lawfully, in the order of acceptance per board,
      before anything still queued there. */
  ghost predicate SentOk(c: Ctl) {
    && (forall i :: 0 <= i < |c.sent| ==> SentRight(c, c.sent[i]))
    && (forall i, j :: 0 <= i < j < |c.sent| && c.sent[i].board == c.sent[j].board ==> c.sent[i].id < c.sent[j].id)
    && (forall i, e :: 0 <= i < |c.sent| && c.sent[i].board in c.boards && e in c.boards[c.sent[i].board].fifo ==>
       c.sent[i].id < e.id)
  }

  /** Nothing is queued, pending or in flight, and nothing more can be. */
  ghost predicate Drained(c: Ctl) {
    && c.closing && c.pending.m == map[]
    && forall b :: b in c.boards ==> c.boards[b].fifo == [] && c.boards[b].inFlight.None?
  }

  /** After the fail phase of a shutdown the dispatcher is drained. */
  ghost predicate FailedOk(s: Sys) { s.failed ==> Drained(s.ctl) }

  ghost predicate Safe(s: Sys) {
    Sound(s.ctl) && LinkOk(s) && GateOk(s.ctl) && SentOk(s.ctl) && FailedOk(s)
  }

  // ------------------------------------------------------------------ frames

  /** Connections, gates and flags stand still, and queues only lose entries. */
  ghost predicate Still(c: Ctl, d: Ctl) {
    && d.latched == c.latched && d.closing == c.closing && d.boards.Keys == c.boards.Keys && d.accepted == c.accepted
    && forall b :: b in c.boards ==>
         && d.boards[b].conn == c.boards[b].conn && d.boards[b].writer == c.boards[b].writer
         && d.boards[b].reg == c.boards[b].reg
         && forall e :: e in d.boards[b].fifo ==> e in c.boards[b].fifo
  }

  lemma StillChain(c: Ctl, d: Ctl, f: Ctl)
    requires Still(c, d) && Still(d, f)
    ensures Still(c, f)
  {
  }

  lemma DropStaleStill(c: Ctl, b: BoardId)
    requires b in c.boards
    ensures Still(c, DropStale(c, b)) && DropStale(c, b).sent == c.sent
  {
  }

  lemma StartWriteStill(c: Ctl, b: BoardId)
    requires Valid(c) && b in c.boards && c.boards[b].fifo != []
    ensures Still(c, StartWrite(c, b))
  {
  }

  lemma StillKeepsSafe(c: Ctl, d: Ctl)
    requires GateOk(c) && SentOk(c) && Still(c, d) && d.sent == c.sent
    ensures GateOk(d) && SentOk(d)
  {
    forall i | 0 <= i < |d.sent| ensures SentRight(d, d.sent[i]) { assert SentRight(c, c.sent[i]); }
  }

  /** The writes of a step that begins one: lawful, and next in order. */
  lemma StartWriteSent(c: Ctl, b: BoardId)
    requires Tables(c) && GateOk(c) && SentOk(c)
    requires b in c.boards && c.boards[b].fifo != [] && !c.closing && !Expired(c.boards[b].fifo[0], c.now)
    ensures GateOk(StartWrite(c, b)) && SentOk(StartWrite(c, b))
  {
    QueueMember(c, b, 0);
    StartWriteValid(c, b);
    StartWriteStill(c, b);
    StillGated(c, StartWrite(c, b));
    StartWriteRight(c, b);
    StartWriteOrder(c, b);
  }

  lemma StillGated(c: Ctl, d: Ctl)
    requires GateOk(c) && Still(c, d)
    ensures GateOk(d)
  {
  }

  lemma StartWriteRight(c: Ctl, b: BoardId)
    requires Tables(c) && GateOk(c) && SentOk(c)
    requires b in c.boards && c.boards[b].fifo != [] && !c.closing && !Expired(c.boards[b].fifo[0], c.now)
    ensures var d := StartWrite(c, b);
            && |d.sent| == |c.sent| + 1 && d.sent[..|c.sent|] == c.sent
            && forall i :: 0 <= i < |d.sent| ==> SentRight(d, d.sent[i])
  {
    var d, q := StartWrite(c, b), c.boards[b].fifo;
    QueueMember(c, b, 0);
    assert q[0] in q;
    assert SentRight(d, d.sent[|c.sent|]);
    forall i | 0 <= i < |d.sent| ensures SentRight(d, d.sent[i]) {
      if i < |c.sent| { assert SentRight(c, c.sent[i]); }
    }
  }

  /** The head is younger than every earlier write to its board, and older than the
      rest of the queue. */
  lemma StartWriteOrder(c: Ctl, b: BoardId)
    requires Tables(c) && SentOk(c) && b in c.boards && c.boards[b].fifo != []
    ensures var d := StartWrite(c, b);
            && (forall i, j :: 0 <= i < j < |d.sent| && d.sent[i].board == d.sent[j].board ==>
               d.sent[i].id < d.sent[j].id)
            && (forall i, e :: 0 <= i < |d.sent| && d.sent[i].board in d.boards && e in d.boards[d.sent[i].board].fifo
                  ==> d.sent[i].id < e.id)
  {
    hide SentRight;
    var d, q := StartWrite(c, b), c.boards[b].fifo;
    QueueMember(c, b, 0);
    assert q[0] in q;
    forall e | e in q[1..] ensures e in q && q[0].id < e.id { TailIsYounger(c, q, e); }
  }

  lemma TailIsYounger(c: Ctl, q: seq<Entry>, e: Entry)
    requires QueueOk(c, q) && q != [] && e in q[1..]
    ensures e in q && q[0].id < e.id
  {
    var j :| 0 <= j < |q[1..]| && q[1..][j] == e;
    assert q[j + 1] == e;
  }

  lemma DispatchSafe(c: Ctl, b: BoardId)
    requires Sound(c) && GateOk(c) && SentOk(c) && b in c.boards
    ensures GateOk(DispatchNext(c, b)) && SentOk(DispatchNext(c, b)) && Still(c, DispatchNext(c, b))
    ensures c.closing ==> DispatchNext(c, b) == c
  {
    if MayDispatch(c, b) {
      var t := DropStale(c, b);
      DropStaleKeeps(c, b);
      DropStaleStill(c, b);
      StaleHead(c, b);
      StillKeepsSafe(c, t);
      if t.boards[b].fifo != [] {
        StartWriteSent(t, b);
        StartWriteStill(t, b);
        StillChain(c, t, StartWrite(t, b));
      }
    }
  }

  lemma EnqueueSafe(c: Ctl, command: Command)
    requires Sound(c) && GateOk(c) && SentOk(c) && Accepts(c, command)
    ensures GateOk(Enqueue(c, command)) && SentOk(Enqueue(c, command))
  {
    hide LedgerOk;
    var d := Enqueue(c, command);
    var q := c.boards[command.target].fifo;
    var e := d.accepted[|c.accepted|];
    assert forall x :: x in d.boards[command.target].fifo ==> x in q || x == e;
    forall i | 0 <= i < |d.sent| ensures SentRight(d, d.sent[i]) { assert SentRight(c, c.sent[i]); }
  }

  // ------------------------------------------------------- steps on commands

  /** Only routing may add to a queue, and only of a ready board. */
  ghost predicate Moves(c: Ctl, d: Ctl) {
    && GateOk(d) && SentOk(d) && d.closing == c.closing && d.boards.Keys == c.boards.Keys
    && forall b :: b in c.boards ==>
         && d.boards[b].conn == c.boards[b].conn && d.boards[b].writer == c.boards[b].writer
         && (c.boards[b].fifo == [] && !Ready(c.boards[b]) ==> d.boards[b].fifo == [])
  }

  lemma StillMoves(c: Ctl, d: Ctl)
    requires Still(c, d) && GateOk(d) && SentOk(d)
    ensures Moves(c, d)
  {
    forall b | b in c.boards ensures c.boards[b].fifo == [] ==> d.boards[b].fifo == [] {
      if d.boards[b].fifo != [] { assert d.boards[b].fifo[0] in c.boards[b].fifo; }
    }
  }

  lemma EnqueueMoves(c: Ctl, command: Command)
    requires Accepts(c, command)
    requires GateOk(Enqueue(c, command)) && SentOk(Enqueue(c, command))
    ensures Moves(c, Enqueue(c, command))
  {
  }

  lemma MovesChain(c: Ctl, d: Ctl, f: Ctl)
    requires Moves(c, d) && Moves(d, f)
    ensures Moves(c, f)
  {
  }

  lemma AcceptMoves(c: Ctl, command: Command)
    requires Sound(c) && GateOk(c) && SentOk(c) && Accepts(c, command)
    ensures Moves(c, DispatchNext(Enqueue(c, command), command.target))
  {
    var m := Enqueue(c, command);
    EnqueueKeeps(c, command);
    EnqueueSafe(c, command);
    EnqueueMoves(c, command);
    DispatchSafe(m, command.target);
    StillMoves(m, DispatchNext(m, command.target));
    MovesChain(c, m, DispatchNext(m, command.target));
  }

  lemma RefuseStill(c: Ctl, d: Ctl)
    requires d == c.(ledger := d.ledger)
    ensures Still(c, d)
  {
  }

  lemma RaisedStill(c: Ctl, d: Ctl, b: BoardId)
    requires b in c.boards && d == c.(boards := c.boards[b := c.boards[b].(nextSeq := c.boards[b].nextSeq + 1)])
    ensures Still(c, d)
  {
  }

  lemma RefusedStill(c: Ctl, command: Command, local: Reply)
    requires Valid(c) && !Accepts(c, command)
    ensures var d := Route(c, command, local).0; Still(c, d) && d.sent == c.sent && d.pending == c.pending
  {
    var d := Route(c, command, local).0;
    if c.closing || command.target == LOCAL_TARGET || Refusal(c, command).Some?
      || c.boards[command.target].nextSeq > UINT64_MAX {
      RefuseStill(c, d);
    } else {
      RaisedStill(c, d, command.target);
    }
  }

  lemma AcceptedRoute(c: Ctl, command: Command, local: Reply)
    requires Valid(c) && Accepts(c, command)
    ensures Route(c, command, local).0 == DispatchNext(Enqueue(c, command), command.target)
  {
  }

  lemma RouteMoves(c: Ctl, command: Command, local: Reply)
    requires Sound(c) && GateOk(c) && SentOk(c)
    ensures Moves(c, Route(c, command, local).0)
  {
    if Accepts(c, command) {
      AcceptMoves(c, command);
      AcceptedRoute(c, command, local);
    } else {
      var d := Route(c, command, local).0;
      RefusedStill(c, command, local);
      StillKeepsSafe(c, d);
      StillMoves(c, d);
    }
  }

  lemma TakeOutStill(c: Ctl, k: nat)
    requires Valid(c) && k in c.pending.m
    ensures Still(c, TakeOut(c, k)) && TakeOut(c, k).sent == c.sent
  {
    hide TakeOut, CancelTimeout, Dict.Pop, Valid;
    TakeOutFrame(c, k);
  }

  lemma MatchedStill(c: Ctl, r: BoardReply)
    requires Valid(c) && r.boardSeq in c.pending.m
    ensures Still(c, Matched(c, r)) && Matched(c, r).sent == c.sent
  {
    hide TakeOut, Settle, RelayedReply, Valid;
    TakeOutStill(c, r.boardSeq);
  }

  lemma ResponseMoves(c: Ctl, r: BoardReply)
    requires Sound(c) && GateOk(c) && SentOk(c) && Coupled(r.status, r.code)
    ensures Moves(c, HandleResponse(c, r)) && HandleResponse(c, r).accepted == c.accepted
    ensures c.closing ==> HandleResponse(c, r).sent == c.sent
  {
    var d := HandleResponse(c, r);
    if r.boardSeq !in c.pending.m {
      assert Still(c, d);
      StillKeepsSafe(c, d);
    } else if r.overflows {
      TakeOutStill(c, r.boardSeq);
      StillKeepsSafe(c, d);
    } else {
      MatchedMoves(c, r);
    }
    StillMoves(c, d);
  }

  lemma MatchedMoves(c: Ctl, r: BoardReply)
    requires Sound(c) && GateOk(c) && SentOk(c)
    requires Coupled(r.status, r.code) && r.boardSeq in c.pending.m && !r.overflows
    ensures var d := HandleResponse(c, r);
            Still(c, d) && GateOk(d) && SentOk(d) && (c.closing ==> d.sent == c.sent)
  {
    hide Matched, DispatchNext, GateOk, SentOk, LedgerOk, Still;
    var m, b := Matched(c, r), c.pending.m[r.boardSeq].board;
    MatchedSettles(c, r);
    MatchedStill(c, r);
    StillKeepsSafe(c, m);
    SameClosing(c, m);
    DispatchSafe(m, b);
    StillChain(c, m, DispatchNext(m, b));
  }

  lemma SameClosing(c: Ctl, m: Ctl)
    requires Still(c, m)
    ensures m.closing == c.closing
  {
  }

  lemma TimedOutStill(c: Ctl, id: Id)
    requires Valid(c) && id in c.timers.asleep && c.timers.asleep[id].boardSeq in c.pending.m
    ensures Still(c, TimedOut(c, id)) && TimedOut(c, id).sent == c.sent
  {
    hide Settle, RelayedReply, CancelTimeout, ResolveError, Dict.Pop;
  }

  lemma TimerMoves(c: Ctl, id: Id)
    requires Sound(c) && GateOk(c) && SentOk(c) && id in c.timers.asleep
    ensures Moves(c, FireTimer(c, id)) && FireTimer(c, id).accepted == c.accepted
    ensures c.closing ==> FireTimer(c, id).sent == c.sent
  {
    var k := c.timers.asleep[id].boardSeq;
    if k in c.pending.m {
      var m := TimedOut(c, id);
      var b := c.pending.m[k].board;
      TimedOutSettles(c, id);
      TimedOutStill(c, id);
      StillKeepsSafe(c, m);
      DispatchSafe(m, b);
      StillChain(c, m, DispatchNext(m, b));
    } else {
      assert Still(c, FireTimer(c, id));
      StillKeepsSafe(c, FireTimer(c, id));
    }
    StillMoves(c, FireTimer(c, id));
  }

  lemma ResumeStill(c: Ctl, id: Id)
    requires Valid(c) && id in c.writing
    ensures Still(c, ResumeWrite(c, id)) && ResumeWrite(c, id).sent == c.sent
  {
    assert c.writing[id].board in c.boards;
  }

  lemma ResumeMoves(c: Ctl, id: Id)
    requires Valid(c) && GateOk(c) && SentOk(c) && id in c.writing
    ensures Moves(c, ResumeWrite(c, id))
  {
    ResumeStill(c, id);
    StillKeepsSafe(c, ResumeWrite(c, id));
    StillMoves(c, ResumeWrite(c, id));
  }

  lemma AbortMoves(c: Ctl, id: Id)
    requires Valid(c) && GateOk(c) && SentOk(c) && id in c.writing
    ensures Moves(c, AbortWrite(c, id))
  {
    StillKeepsSafe(c, AbortWrite(c, id));
    StillMoves(c, AbortWrite(c, id));
  }
}
