/** Convergence of a latched e-stop, over any interleaving and any boards. */
module Estop {
  import opened Basics
  import opened Protocol
  import opened SchemaGate
  import opened Controller
  import opened System
  import opened Loss
  import opened Resolvers

  /** The last e-stop send to `b` began no earlier than the latch and than the
      registration of `b`. */
  predicate Covered(h: History, b: BoardId) {
    && b in h.estopSentAt && b in h.registeredAt
    && h.estopSentAt[b] >= h.latchedAt && h.estopSentAt[b] >= h.registeredAt[b]
  }

  predicate AckAfterSend(h: History, b: BoardId) {
    b in h.estopAckedAt && (b in h.estopSentAt ==> h.estopAckedAt[b] > h.estopSentAt[b])
  }

  ghost predicate PastOnly(h: History) {
    && h.latchedAt <= h.step
    && (forall b :: b in h.registeredAt ==> h.registeredAt[b] <= h.step)
    && (forall b :: b in h.estopSentAt ==> h.estopSentAt[b] <= h.step)
  }

  ghost predicate Converges(c: Ctl, h: History, closed: bool) {
    && PastOnly(h)
    && (forall b :: b in c.boards && c.boards[b].conn == REGISTERED ==>
       b in h.registeredAt && (closed || c.boards[b].writer))
    && (c.latched ==> forall b :: b in c.boards && Ready(c.boards[b]) ==> b in c.estopTasks || Covered(h, b))
    && (forall b :: b in c.boards && c.boards[b].estopAck ==> AckAfterSend(h, b))
  }

  // ------------------------------------------------------------------ frames

  /** Connections, flags and e-stop state stand still. */
  ghost predicate Untouched(c: Ctl, d: Ctl) {
    && d.latched == c.latched && d.closing == c.closing && d.estopTasks == c.estopTasks
    && d.boards.Keys == c.boards.Keys
    && forall b :: b in c.boards ==>
         && d.boards[b].conn == c.boards[b].conn && d.boards[b].writer == c.boards[b].writer
         && d.boards[b].estopAck == c.boards[b].estopAck
  }

  lemma UntouchedConverges(c: Ctl, d: Ctl, h: History, closed: bool)
    requires Converges(c, h, closed) && Untouched(c, d)
    ensures Converges(d, h.(step := h.step + 1), closed)
  {
  }

  lemma DispatchUntouched(c: Ctl, b: BoardId)
    requires b in c.boards && c.pending.Valid()
    ensures Untouched(c, DispatchNext(c, b))
  {
  }

  lemma UntouchedChain(c: Ctl, d: Ctl, f: Ctl)
    requires Untouched(c, d) && Untouched(d, f)
    ensures Untouched(c, f)
  {
  }

  lemma RouteUntouched(c: Ctl, command: Command, local: Reply)
    requires Valid(c)
    ensures Untouched(c, Route(c, command, local).0)
  {
    hide DispatchNext;
    if Accepts(c, command) {
      var m := Enqueue(c, command);
      assert Untouched(c, m);
      DispatchUntouched(m, command.target);
      UntouchedChain(c, m, DispatchNext(m, command.target));
    }
  }

  lemma TakeOutUntouched(c: Ctl, k: nat)
    requires Valid(c) && k in c.pending.m
    ensures Untouched(c, TakeOut(c, k))
  {
    hide TakeOut, CancelTimeout, Dict.Pop, Valid;
    TakeOutFrame(c, k);
  }

  lemma MatchedUntouched(c: Ctl, r: BoardReply)
    requires Valid(c) && r.boardSeq in c.pending.m
    ensures var m := Matched(c, r); Untouched(c, m) && m.pending.Valid() && c.pending.m[r.boardSeq].board in m.boards
  {
    hide TakeOut, Settle, RelayedReply, Valid, CancelTimeout, Dict.Pop;
    TakeOutFrame(c, r.boardSeq);
  }

  lemma ThenUntouched(c: Ctl, m: Ctl, b: BoardId)
    requires Untouched(c, m) && b in m.boards && m.pending.Valid()
    ensures Untouched(c, DispatchNext(m, b))
  {
    hide DispatchNext, Untouched;
    DispatchUntouched(m, b);
    UntouchedChain(c, m, DispatchNext(m, b));
  }

  lemma ResponseUntouched(c: Ctl, r: BoardReply)
    requires Valid(c)
    ensures Untouched(c, HandleResponse(c, r))
  {
    hide DispatchNext, Matched, TakeOut;
    if r.boardSeq !in c.pending.m {
    } else if r.overflows {
      TakeOutUntouched(c, r.boardSeq);
    } else {
      MatchedUntouched(c, r);
      ThenUntouched(c, Matched(c, r), c.pending.m[r.boardSeq].board);
    }
  }

  lemma TimedOutUntouched(c: Ctl, id: Id)
    requires Valid(c) && id in c.timers.asleep && c.timers.asleep[id].boardSeq in c.pending.m
    ensures var m := TimedOut(c, id);
            Untouched(c, m) && m.pending.Valid() && c.pending.m[c.timers.asleep[id].boardSeq].board in m.boards
  {
    hide ResolveError;
  }

  lemma TimerUntouched(c: Ctl, id: Id)
    requires Valid(c) && id in c.timers.asleep
    ensures Untouched(c, FireTimer(c, id))
  {
    hide DispatchNext, TimedOut;
    var k := c.timers.asleep[id].boardSeq;
    if k in c.pending.m {
      TimedOutUntouched(c, id);
      ThenUntouched(c, TimedOut(c, id), c.pending.m[k].board);
    }
  }

  lemma WriteUntouched(c: Ctl, id: Id)
    requires Valid(c) && id in c.writing
    ensures Untouched(c, ResumeWrite(c, id)) && Untouched(c, AbortWrite(c, id))
  {
    assert c.writing[id].board in c.boards;
  }

  lemma CommandUntouched(s: Sys, e: Event)
    requires Enabled(s, e) && OnCommand(e)
    ensures Untouched(s.ctl, CtlNext(s, e))
  {
    hide Untouched, Route, ResumeWrite, AbortWrite, HandleResponse, FireTimer;
    var c := s.ctl;
    match e
    case RouteCommand(command, local) => RouteUntouched(c, command, local);
    case WriteReturns(id) => WriteUntouched(c, id);
    case WriteRaises(id) => WriteUntouched(c, id);
    case ResponseArrives(_, r) => ResponseUntouched(c, r);
    case TimerFires(id) => TimerUntouched(c, id);
  }

  // --------------------------------------------------------- step by step

  /** What the events that reach the connection, the latch or the acks do. */
  lemma RegisterFrame(c: Ctl, b: BoardId, m: Object)
    requires b in c.boards && CheckProtocolVersion(m).Good?
    ensures var d := RegisterAndAssert(c, b, m);
            && d.latched == c.latched && d.estopTasks == c.estopTasks && d.boards.Keys == c.boards.Keys
            && (forall x :: x in c.boards && x != b ==> d.boards[x] == c.boards[x])
            && d.boards[b].conn == REGISTERED && d.boards[b].writer
            && d.boards[b].estopAck == (c.boards[b].estopAck && !c.latched)
  {
  }

  lemma RegisteredConverges(c: Ctl, d: Ctl, h: History, g: History, closed: bool, b: BoardId)
    requires Converges(c, h, closed) && b in c.boards && d.boards.Keys == c.boards.Keys
    requires d.latched == c.latched && d.estopTasks == c.estopTasks
    requires forall x :: x in c.boards && x != b ==> d.boards[x] == c.boards[x]
    requires d.boards[b].writer && d.boards[b].estopAck == (c.boards[b].estopAck && !c.latched)
    requires g.step == h.step + 1 && g.latchedAt == h.latchedAt && g.estopAckedAt == h.estopAckedAt
    requires g.registeredAt == h.registeredAt[b := g.step]
    requires g.estopSentAt == if c.latched then h.estopSentAt[b := g.step] else h.estopSentAt
    ensures Converges(d, g, closed)
  {
    forall x | x in d.boards && x != b && Covered(h, x) ensures Covered(g, x) {}
    forall x | x in d.boards && d.boards[x].estopAck ensures AckAfterSend(g, x) {
      assert AckAfterSend(h, x);
    }
  }

  lemma RegisterConverges(c: Ctl, h: History, closed: bool, b: BoardId, m: Object)
    requires Converges(c, h, closed) && b in c.boards && CheckProtocolVersion(m).Good?
    ensures var n := h.step + 1;
            Converges(RegisterAndAssert(c, b, m),
                      h.(step := n, registeredAt := h.registeredAt[b := n],
                         estopSentAt := if c.latched then h.estopSentAt[b := n] else h.estopSentAt), closed)
  {
    hide RegisterAndAssert, Converges;
    var n := h.step + 1;
    RegisterFrame(c, b, m);
    RegisteredConverges(c, RegisterAndAssert(c, b, m), h,
                        h.(step := n, registeredAt := h.registeredAt[b := n],
                           estopSentAt := if c.latched then h.estopSentAt[b := n] else h.estopSentAt), closed, b);
  }

  lemma MismatchConverges(c: Ctl, h: History, closed: bool, b: BoardId, m: Object, now: real)
    requires Converges(c, h, closed) && b in c.boards && CheckProtocolVersion(m).Bad?
    ensures Converges(RegisterAndAssert(c, b, m), h.(step := h.step + 1, endedAt := h.endedAt[b := now]), closed)
  {
  }

  lemma SetConnConverges(c: Ctl, h: History, g: History, closed: bool, b: BoardId, state: ConnState)
    requires Converges(c, h, closed) && b in c.boards && state != REGISTERED
    requires g == h.(step := h.step + 1, endedAt := g.endedAt)
    ensures Converges(SetConn(c, b, state), g, closed)
  {
  }

  lemma DownConverges(c: Ctl, h: History, closed: bool, b: BoardId)
    requires Valid(c) && Converges(c, h, closed) && b in c.boards
    ensures Converges(BoardDown(c, b), h.(step := h.step + 1), closed)
  {
    var d := BoardDown(c, b);
    assert d.latched == c.latched && d.estopTasks == c.estopTasks;
    assert d.boards == c.boards[b := d.boards[b]] && d.boards[b].estopAck == c.boards[b].estopAck;
  }

  lemma TriggerConverges(c: Ctl, h: History, closed: bool)
    requires Valid(c) && Converges(c, h, closed) && !c.latched
    ensures Converges(TriggerEstop(c), h.(step := h.step + 1, latchedAt := h.step + 1), closed)
  {
    var d := TriggerEstop(c);
    forall b | b in d.boards && Ready(d.boards[b]) ensures b in d.estopTasks {
      assert b in ReadyBoards(c);
    }
  }

  /** One scheduled send ran; if there was a writer, the board's ack is awaited anew. */
  lemma SendConverges(c: Ctl, d: Ctl, h: History, g: History, closed: bool, b: BoardId)
    requires Converges(c, h, closed) && b in c.boards && d.boards.Keys == c.boards.Keys && d.latched == c.latched
    requires forall x :: x in c.boards && x != b ==>
             d.boards[x] == c.boards[x] && (x in d.estopTasks <==> x in c.estopTasks)
    requires var writer := c.boards[b].writer;
             && d.boards[b] == (if writer then c.boards[b].(estopAck := false) else c.boards[b])
             && g == h.(step := h.step + 1, estopSentAt := if writer then h.estopSentAt[b := h.step + 1]
                else h.estopSentAt)
    ensures Converges(d, g, closed)
  {
    forall x | x in d.boards && d.boards[x].estopAck ensures AckAfterSend(g, x) { assert AckAfterSend(h, x); }
  }

  lemma TaskConverges(c: Ctl, h: History, closed: bool, b: BoardId)
    requires Converges(c, h, closed) && b in c.boards && b in c.estopTasks
    ensures var n := h.step + 1;
            Converges(RunEstopTask(c, b),
                      h.(step := n, estopSentAt := if c.boards[b].writer then h.estopSentAt[b := n]
                        else h.estopSentAt), closed)
  {
    hide Converges;
    var d, n := RunEstopTask(c, b), h.step + 1;
    forall x | x != b ensures x in d.estopTasks <==> x in c.estopTasks {}
    SendConverges(c, d, h, h.(step := n, estopSentAt := if c.boards[b].writer then h.estopSentAt[b := n]
      else h.estopSentAt), closed, b);
  }

  lemma AckConverges(c: Ctl, h: History, closed: bool, b: BoardId)
    requires Converges(c, h, closed) && b in c.boards
    ensures Converges(AckEstop(c, b), h.(step := h.step + 1, estopAckedAt := h.estopAckedAt[b := h.step + 1]), closed)
  {
  }

  lemma FlagsConverge(c: Ctl, d: Ctl, h: History, closed: bool)
    requires Converges(c, h, closed)
    requires d == c.(now := d.now, latched := d.latched, closing := d.closing) && (d.latched ==> c.latched)
    ensures Converges(d, h.(step := h.step + 1), closed)
  {
  }

  lemma FailConverges(c: Ctl, h: History, closed: bool)
    requires Valid(c) && Converges(c, h, closed)
    ensures Converges(FailRemaining(c), h.(step := h.step + 1), closed)
  {
    hide FailRemaining, Valid;
    FailDisconnects(c);
  }

  lemma FailDisconnects(c: Ctl)
    requires Valid(c)
    ensures var d := FailRemaining(c);
            && d.latched == c.latched && d.estopTasks == c.estopTasks && d.boards.Keys == c.boards.Keys
            && forall b :: b in c.boards ==>
                 d.boards[b].conn == DISCONNECTED && d.boards[b].estopAck == c.boards[b].estopAck
  {
    hide ResolveAll, Queued, Dict.Values, Dict.PopAll, SeqsOf, CancelAll;
  }

  lemma CloseConverges(c: Ctl, h: History, closed: bool)
    requires Converges(c, h, closed)
    ensures Converges(CloseWriters(c), h.(step := h.step + 1), true)
  {
  }

  lemma ConnectionConverges(s: Sys, e: Event, closed: bool)
    requires Enabled(s, e) && OnConnection(e) && Converges(s.ctl, s.hist, closed)
    ensures Converges(CtlNext(s, e), HistNext(s, e), closed)
  {
    hide Converges, RegisterAndAssert, SetConn, BoardDown;
    var c, h, b := s.ctl, s.hist, e.board;
    if e.SchemaArrives? {
      if CheckProtocolVersion(e.schema).Good? { RegisterConverges(c, h, closed, b, e.schema); }
      else { MismatchConverges(c, h, closed, b, e.schema, c.now); }
    }
    else if e.LivenessExpires? || e.ReportDown? { DownConverges(c, h, closed, b); }
    else if e.Dial? { SetConnConverges(c, h, HistNext(s, e), closed, b, CONNECTING); }
    else if e.Link? { SetConnConverges(c, h, HistNext(s, e), closed, b, CONNECTED); }
    else if e.LinkFails? { SetConnConverges(c, h, HistNext(s, e), closed, b, FAULTED); }
    else { NoChangeConverges(c, h, HistNext(s, e), closed); }
  }

  lemma NoChangeConverges(c: Ctl, h: History, g: History, closed: bool)
    requires Converges(c, h, closed) && g == h.(step := h.step + 1, endedAt := g.endedAt)
    ensures Converges(c, g, closed)
  {
  }

  lemma GlobalConverges(s: Sys, e: Event, closed: bool)
    requires Enabled(s, e) && !OnConnection(e) && !OnCommand(e) && Converges(s.ctl, s.hist, closed)
    ensures Converges(CtlNext(s, e), HistNext(s, e), closed || e.WritersClose?)
  {
    hide Converges, TriggerEstop, FailRemaining, CloseWriters, RunEstopTask, AckEstop;
    var c, h := s.ctl, s.hist;
    if e.EstopTriggered? {
      if c.latched { NoTrigger(c); NoChangeConverges(c, h, HistNext(s, e), closed); }
        else { TriggerConverges(c, h, closed); }
    }
    else if e.EstopTaskRuns? { TaskConverges(c, h, closed, e.board); }
    else if e.EstopAcked? { AckConverges(c, h, closed, e.board); }
    else if e.ShutdownFails? { FailConverges(c, h, closed); }
    else if e.WritersClose? { CloseConverges(c, h, closed); }
    else { FlagsConverge(c, CtlNext(s, e), h, closed); }
  }

  lemma NoTrigger(c: Ctl)
    requires Valid(c) && c.latched
    ensures TriggerEstop(c) == c
  {
  }

  lemma ConvergesAfter(s: Sys, e: Event, t: Sys, closed: bool)
    requires Converges(s.ctl, s.hist, closed) && Step(s, e, t)
    ensures Converges(t.ctl, t.hist, closed || e.WritersClose?)
  {
    hide Converges, CtlNext;
    if OnCommand(e) {
      CommandUntouched(s, e);
      UntouchedConverges(s.ctl, CtlNext(s, e), s.hist, closed);
    } else if OnConnection(e) {
      ConnectionConverges(s, e, closed);
    } else {
      GlobalConverges(s, e, closed);
    }
  }

  lemma StartConverges(s: Sys)
    requires Init(s)
    ensures Converges(s.ctl, s.hist, false)
  {
  }

  /** Shutdown has come to closing the board writers. */
  predicate WritersClosed(events: seq<Event>, n: nat)
    requires n <= |events|
  {
    exists i :: 0 <= i < n && events[i].WritersClose?
  }

  lemma {:induction false} RunsConverge(states: seq<Sys>, events: seq<Event>, n: nat)
    requires Run(states, events) && n <= |events|
    ensures Converges(states[n].ctl, states[n].hist, WritersClosed(events, n))
  {
    hide Converges, Init, Step;
    if n == 0 {
      StartConverges(states[0]);
    } else {
      RunsConverge(states, events, n - 1);
      AtStep(states, events, n - 1);
      ConvergesAfter(states[n - 1], events[n - 1], states[n], WritersClosed(events, n - 1));
      assert WritersClosed(events, n) == (WritersClosed(events, n - 1) || events[n - 1].WritersClose?);
    }
  }

  // --------------------------------------------------------------- theorems

  /** Whenever the latch is set, shutdown or not, every board that is registered
      and has a writer, and until the writers close every registered board, has an
      e-stop send scheduled, or had one begun since the later of the latch and its
      own registration; and then an ack flag means an ack processed after that send. */
  lemma EstopReachesEveryBoard(states: seq<Sys>, events: seq<Event>, n: nat, b: BoardId)
    requires Run(states, events) && n <= |events| && b in states[n].ctl.boards && states[n].ctl.latched
    requires states[n].ctl.boards[b].conn == REGISTERED && (states[n].ctl.boards[b].writer || !WritersClosed(events, n))
    ensures b in states[n].ctl.estopTasks || Covered(states[n].hist, b)
    ensures Covered(states[n].hist, b) && states[n].ctl.boards[b].estopAck ==>
              var h := states[n].hist;
              && b in h.estopAckedAt && h.estopAckedAt[b] > h.estopSentAt[b]
              && h.estopAckedAt[b] > h.latchedAt && h.estopAckedAt[b] > h.registeredAt[b]
  {
    RunsConverge(states, events, n);
  }

  /** Until the writers close, a registered board has a writer. */
  lemma RegisteredBoardsAreReady(states: seq<Sys>, events: seq<Event>, n: nat)
    requires Run(states, events) && n <= |events| && !WritersClosed(events, n)
    ensures forall b :: b in states[n].ctl.boards && states[n].ctl.boards[b].conn == REGISTERED ==>
            Ready(states[n].ctl.boards[b])
  {
    RunsConverge(states, events, n);
  }

  lemma DownKeepsLatch(c: Ctl, b: BoardId)
    requires Valid(c) && b in c.boards
    ensures BoardDown(c, b).latched == c.latched
  {
  }

  lemma RegisterKeepsLatch(c: Ctl, b: BoardId, m: Object)
    requires b in c.boards
    ensures RegisterAndAssert(c, b, m).latched == c.latched
  {
  }

  lemma FlushesKeepLatch(c: Ctl)
    requires Valid(c)
    ensures FailRemaining(c).latched == c.latched && (c.latched ==> TriggerEstop(c).latched)
  {
  }

  /** An operator reset that is addressed to the controller while the electrical
      condition is gone. */
  predicate Unlatches(e: Event) {
    e.EstopReset? && e.kind == "estop_reset" && e.target == "controller" && e.cleared
  }

  /** From a latched state a step clears the latch if and only if it is such a reset. */
  lemma LatchStep(s: Sys, e: Event)
    requires Enabled(s, e) && s.ctl.latched
    ensures CtlNext(s, e).latched <==> !Unlatches(e)
  {
    hide BoardDown, RegisterAndAssert, FailRemaining, TriggerEstop, Valid;
    if OnCommand(e) { CommandUntouched(s, e); hide CtlNext; }
    else if e.LivenessExpires? || e.ReportDown? { DownKeepsLatch(s.ctl, e.board); }
    else if e.SchemaArrives? { RegisterKeepsLatch(s.ctl, e.board, e.schema); }
    else if e.EstopTriggered? || e.ShutdownFails? { FlushesKeepLatch(s.ctl); }
  }

  /** From an open state a step sets the latch if and only if it is a trigger. */
  lemma OpenStep(s: Sys, e: Event)
    requires Enabled(s, e) && !s.ctl.latched
    ensures CtlNext(s, e).latched <==> e.EstopTriggered?
  {
    hide BoardDown, RegisterAndAssert, FailRemaining, TriggerEstop, Valid;
    if OnCommand(e) { CommandUntouched(s, e); hide CtlNext; }
    else if e.LivenessExpires? || e.ReportDown? { DownKeepsLatch(s.ctl, e.board); }
    else if e.SchemaArrives? { RegisterKeepsLatch(s.ctl, e.board, e.schema); }
    else if e.ShutdownFails? { FlushesKeepLatch(s.ctl); }
    else if e.EstopTriggered? { TriggerLatches(s.ctl); }
  }

  lemma TriggerLatches(c: Ctl)
    requires Valid(c)
    ensures TriggerEstop(c).latched
  {
  }

  /** A reset that is refused changes nothing, one that clears nothing but the latch. */
  lemma ResetMovesTheLatch(c: Ctl, e: Event)
    requires e.EstopReset?
    ensures ResetEstop(c, e.kind, e.target, e.cleared) == if Unlatches(e) then c.(latched := false) else c
  {
  }

  /** A trigger comes at step `j` and no reset that clears follows it before `n`. */
  ghost predicate LatchedSince(events: seq<Event>, j: nat, n: nat)
    requires n <= |events|
  {
    j < n && events[j].EstopTriggered? && forall k :: j < k < n ==> !Unlatches(events[k])
  }

  ghost predicate Latched(events: seq<Event>, n: nat)
    requires n <= |events|
  {
    exists j: nat :: LatchedSince(events, j, n)
  }

  /** In every run the latch is set if and only if an e-stop was triggered and no
      operator reset addressed to the controller came since while the electrical
      condition was gone. */
  lemma {:induction false} LatchHolds(states: seq<Sys>, events: seq<Event>, n: nat)
    requires Run(states, events) && n <= |events|
    ensures states[n].ctl.latched <==> exists j: nat :: LatchedSince(events, j, n)
  {
    hide Init, Enabled, CtlNext;
    assert Latched(events, n) <==> exists j: nat :: LatchedSince(events, j, n);
    hide Latched, LatchedSince;
    if n == 0 {
      StartOpen(states[0]);
      NeverLatched(events);
    } else {
      LatchHolds(states, events, n - 1);
      AtStep(states, events, n - 1);
      var s, e := states[n - 1], events[n - 1];
      if s.ctl.latched { LatchStep(s, e); } else { OpenStep(s, e); }
      LatchedNext(events, n - 1);
    }
  }

  lemma NeverLatched(events: seq<Event>)
    ensures !Latched(events, 0)
  {
  }

  lemma LatchedNext(events: seq<Event>, n: nat)
    requires n < |events|
    ensures Latched(events, n + 1) <==> events[n].EstopTriggered? || (!Unlatches(events[n]) && Latched(events, n))
    ensures Latched(events, n) <==> exists j: nat :: LatchedSince(events, j, n)
  {
    if events[n].EstopTriggered? { assert LatchedSince(events, n, n + 1); }
    var m := n + 1;
    if Latched(events, m) {
      var j: nat :| LatchedSince(events, j, m);
      if j < n { assert LatchedSince(events, j, n); }
    }
    if !Unlatches(events[n]) {
      if j: nat :| LatchedSince(events, j, n) { assert LatchedSince(events, j, n + 1); }
    }
  }

  lemma StartOpen(s: Sys)
    requires Init(s)
    ensures !s.ctl.latched
  {
  }
}
