/** Whether an answer reaches the client. route_command begins a write before it
    awaits its future, so a write that raises ends the call that began it: the future
    may be set later, and nobody awaits it any more. */
module Delivery {
  import opened Basics
  import opened Protocol
  import opened Controller
  import opened Accounts
  import opened Conservation
  import opened Steps
  import opened Resolvers
  import opened System
  import opened Loss
  import opened Distinct
  import opened Safety
  import opened SafetyRuns
  import opened Slots
  import opened Outcomes
  import opened Correlation
  import opened Collision
  import opened Stranded

  /** The future is set and its call awaits it. */
  predicate Delivered(s: Sys, id: Id) {
    id in s.ctl.ledger.outcome && id !in s.callers.begins && id !in s.callers.gone
  }

  // ------------------------------------------------------ the writes that begin

  predicate EverSent(c: Ctl, id: Id) { exists j :: 0 <= j < |c.sent| && c.sent[j].id == id }

  /** At most one write begins, and none ends. */
  ghost predicate BeginsOne(c: Ctl, d: Ctl) {
    || (d.sent == c.sent && d.writing.Keys == c.writing.Keys)
    || (|d.sent| == |c.sent| + 1 && c.sent <= d.sent && d.writing.Keys == c.writing.Keys + {d.sent[|c.sent|].id})
  }

  lemma DispatchBegins(c: Ctl, b: BoardId)
    requires c.pending.Valid() && b in c.boards
    ensures BeginsOne(c, DispatchNext(c, b))
  {
    hide StalePrefix, ResolveAll;
  }

  lemma RouteBegins(c: Ctl, command: Command, local: Reply)
    requires Valid(c)
    ensures BeginsOne(c, Route(c, command, local).0)
  {
    if Accepts(c, command) {
      AcceptedRoute(c, command, local);
      assert Enqueue(c, command).pending.Valid() && command.target in Enqueue(c, command).boards;
      hide DispatchNext, Route, Enqueue;
      DispatchBegins(Enqueue(c, command), command.target);
      EnqueueBegins(c, command);
    } else {
      RefusedFrame(c, command, local);
    }
  }

  lemma EnqueueBegins(c: Ctl, command: Command)
    requires command.target in c.boards
    ensures Enqueue(c, command).sent == c.sent && Enqueue(c, command).writing == c.writing
  {
  }

  lemma ResponseBegins(c: Ctl, r: BoardReply)
    requires Valid(c)
    ensures BeginsOne(c, HandleResponse(c, r))
  {
    hide DispatchNext, TakeOut, Settle, Valid;
    if r.boardSeq in c.pending.m {
      TakeOutFrame(c, r.boardSeq);
      if !r.overflows {
        EntryBoard(c, r.boardSeq);
        DispatchBegins(Matched(c, r), c.pending.m[r.boardSeq].board);
      }
    }
  }

  lemma EntryBoard(c: Ctl, k: nat)
    requires Valid(c) && k in c.pending.m
    ensures c.pending.m[k].board in c.boards
  {
  }

  lemma TimerBegins(c: Ctl, id: Id)
    requires Valid(c) && id in c.timers.asleep
    ensures BeginsOne(c, FireTimer(c, id))
  {
    hide DispatchNext, TimedOut, Valid;
    var k := c.timers.asleep[id].boardSeq;
    if k in c.pending.m {
      TimeoutFrame(c, id);
      EntryBoard(c, k);
      DispatchBegins(TimedOut(c, id), c.pending.m[k].board);
    }
  }

  /** What an event does to the suspended writes: it ends the one it names, or begins
      at most one. */
  lemma StepBegins(s: Sys, e: Event)
    requires Safe(s) && Enabled(s, e)
    ensures var c, d := s.ctl, CtlNext(s, e);
            if e.WriteReturns? || e.WriteRaises?
            then d.sent == c.sent && d.writing.Keys == c.writing.Keys - {e.id} && e.id in c.writing
            else BeginsOne(c, d)
  {
    hide Route, HandleResponse, FireTimer, ResumeWrite, AbortWrite, Sound, GateOk, SentOk, Drained, Valid;
    var c := s.ctl;
    if e.RouteCommand? { RouteBegins(c, e.command, e.local); }
    else if e.ResponseArrives? { ResponseBegins(c, e.reply); }
    else if e.TimerFires? { TimerBegins(c, e.id); }
    else if e.WriteReturns? || e.WriteRaises? {
      WriteEndStarts(c, e.id);
      WriteEndSends(c, e.id);
    } else {
      hide CtlNext, LinkOk;
      OtherStarts(s, e);
      if OnConnection(e) { ConnectionShape(s, e); } else { GlobalShape(s, e); }
    }
  }

  lemma WriteEndSends(c: Ctl, id: Id)
    requires Valid(c) && id in c.writing
    ensures ResumeWrite(c, id).sent == c.sent && AbortWrite(c, id).sent == c.sent
  {
  }

  /** A write that begins is the only one of its command. */
  lemma SentOnce(c: Ctl, d: Ctl, id: Id)
    requires SentOk(d) && c.sent <= d.sent && |d.sent| == |c.sent| + 1 && EverSent(c, id)
    ensures d.sent[|c.sent|].id != id
  {
    var j :| 0 <= j < |c.sent| && c.sent[j].id == id;
    assert d.sent[j] == c.sent[j];
    assert SentRight(d, d.sent[j]) && SentRight(d, d.sent[|c.sent|]);
  }

  // --------------------------------------------------------- the calls of a run

  /** From `c` to `d` command `id` is taken in and the write of `w` begins. */
  predicate Begins(c: Ctl, d: Ctl, id: Id, w: Id) {
    id == |c.accepted| < |d.accepted| && |c.sent| < |d.sent| && d.sent[|c.sent|].id == w
  }

  /** Step `r` is the call that routes command `id`, and begins the write of `w`. */
  predicate CallBegins(states: seq<Sys>, r: nat, id: Id, w: Id)
    requires r + 1 < |states|
  {
    Begins(states[r].ctl, states[r + 1].ctl, id, w)
  }

  ghost predicate CallBegan(states: seq<Sys>, n: nat, id: Id, w: Id)
    requires n < |states|
  {
    exists r :: 0 <= r < n && CallBegins(states, r, id, w)
  }

  /** At step `j` the write raises that the call for `id` began. */
  ghost predicate RaisesFor(states: seq<Sys>, events: seq<Event>, j: nat, id: Id)
    requires j < |events| < |states|
  {
    events[j].WriteRaises? && CallBegan(states, j, id, events[j].id)
  }

  /** A write raised that the call for `id` began. */
  ghost predicate RaisedFor(states: seq<Sys>, events: seq<Event>, n: nat, id: Id)
    requires n <= |events| < |states|
  {
    exists j :: 0 <= j < n && RaisesFor(states, events, j, id)
  }

  /** The table of callers says of this pair what the run so far says. */
  ghost predicate PairKnown(states: seq<Sys>, n: nat, x: Id, w: Id)
    requires n < |states|
  {
    var s := states[n];
    && (x in s.callers.begins && s.callers.begins[x] == w <==> CallBegan(states, n, x, w) && w in s.ctl.writing)
    && (CallBegan(states, n, x, w) ==> x < |s.ctl.accepted| && EverSent(s.ctl, w))
  }

  lemma BeganAfter(states: seq<Sys>, n: nat, x: Id, w: Id)
    requires n + 1 < |states|
    ensures CallBegan(states, n + 1, x, w) <==> CallBegan(states, n, x, w) || CallBegins(states, n, x, w)
  {
    if CallBegan(states, n + 1, x, w) {
      var r :| 0 <= r < n + 1 && CallBegins(states, r, x, w);
      if r < n { assert CallBegan(states, n, x, w); }
    }
    if CallBegins(states, n, x, w) { assert 0 <= n < n + 1; }
  }

  lemma SentStays(c: Ctl, d: Ctl, w: Id)
    requires c.sent <= d.sent && EverSent(c, w)
    ensures EverSent(d, w)
  {
    var j :| 0 <= j < |c.sent| && c.sent[j].id == w;
    assert d.sent[j] == c.sent[j];
  }

  /** A pair known before a step is known after it. */
  lemma PairStep(s: Sys, e: Event, t: Sys, x: Id, w: Id, before: bool)
    requires Safe(s) && Safe(t) && Step(s, e, t)
    requires x in s.callers.begins && s.callers.begins[x] == w <==> before && w in s.ctl.writing
    requires before ==> x < |s.ctl.accepted| && EverSent(s.ctl, w)
    ensures var after := before || Begins(s.ctl, t.ctl, x, w);
            && (x in t.callers.begins && t.callers.begins[x] == w <==> after && w in t.ctl.writing)
            && (after ==> x < |t.ctl.accepted| && EverSent(t.ctl, w))
  {
    hide CtlNext, Sound, LinkOk, GateOk, SentOk, FailedOk, EverSent, Accepts, Enqueue, WritesFrom;
    StepBegins(s, e);
    StepWrites(s, e);
    AcceptsOne(s.ctl, t.ctl, e);
    if EverSent(s.ctl, w) { SentStays(s.ctl, t.ctl, w); }
    if !e.WriteReturns? && !e.WriteRaises? {
      if EverSent(s.ctl, w) && t.ctl.sent != s.ctl.sent { SentOnce(s.ctl, t.ctl, w); }
      if Begins(s.ctl, t.ctl, x, w) { NowSent(t.ctl, |s.ctl.sent|); }
    }
  }

  lemma AcceptsOne(c: Ctl, d: Ctl, e: Event)
    requires d.accepted
             == if e.RouteCommand? && Accepts(c, e.command) then Enqueue(c, e.command).accepted else c.accepted
    ensures d.accepted == c.accepted || (e.RouteCommand? && |d.accepted| == |c.accepted| + 1)
  {
  }

  lemma NowSent(c: Ctl, j: nat)
    requires j < |c.sent|
    ensures EverSent(c, c.sent[j].id)
  {
  }

  lemma GoneStep(s: Sys, e: Event, t: Sys, x: Id)
    requires Step(s, e, t)
    ensures x in t.callers.gone <==>
            x in s.callers.gone || (e.WriteRaises? && x in s.callers.begins && s.callers.begins[x] == e.id)
  {
    hide CtlNext, PhaseNext, HistNext;
  }

  lemma {:induction false} PairsKnown(states: seq<Sys>, events: seq<Event>, n: nat, x: Id, w: Id)
    requires Run(states, events) && n <= |events|
    ensures PairKnown(states, n, x, w)
  {
    hide Init, Step, Safe, Begins, EverSent;
    if n == 0 {
      NoCalls(states[0]);
    } else {
      PairsKnown(states, events, n - 1, x, w);
      RunsAreSafe(states, events, n - 1);
      RunsAreSafe(states, events, n);
      AtStep(states, events, n - 1);
      BeganAfter(states, n - 1, x, w);
      PairStep(states[n - 1], events[n - 1], states[n], x, w, CallBegan(states, n - 1, x, w));
    }
  }

  lemma NoCalls(s: Sys)
    requires Init(s)
    ensures s.callers == Callers(map[], {})
  {
  }

  /** The call for a command is gone if and only if a write raised that it began. */
  lemma {:induction false} GoneIffRaised(states: seq<Sys>, events: seq<Event>, n: nat, x: Id)
    requires Run(states, events) && n <= |events|
    ensures x in states[n].callers.gone <==> RaisedFor(states, events, n, x)
  {
    hide Init, Step, CallBegan;
    if n == 0 {
      NoCalls(states[0]);
    } else {
      var s, e := states[n - 1], events[n - 1];
      GoneIffRaised(states, events, n - 1, x);
      AtStep(states, events, n - 1);
      GoneStep(s, e, states[n], x);
      if e.WriteRaises? {
        PairsKnown(states, events, n - 1, x, e.id);
        EnabledWrite(s, e, states[n]);
      }
      RaisedAfter(states, events, n - 1, x);
    }
  }

  lemma EnabledWrite(s: Sys, e: Event, t: Sys)
    requires Step(s, e, t) && e.WriteRaises?
    ensures e.id in s.ctl.writing
  {
  }

  lemma RaisedAfter(states: seq<Sys>, events: seq<Event>, n: nat, x: Id)
    requires n < |events| < |states|
    ensures RaisedFor(states, events, n + 1, x) <==> RaisedFor(states, events, n, x) || RaisesFor(states, events, n, x)
  {
    hide RaisesFor;
    if RaisedFor(states, events, n + 1, x) {
      var j :| 0 <= j < n + 1 && RaisesFor(states, events, j, x);
      if j < n { assert RaisedFor(states, events, n, x); }
    }
    if RaisesFor(states, events, n, x) { assert 0 <= n < n + 1; }
  }

  lemma NoneSuspended(states: seq<Sys>, n: nat, id: Id)
    requires n < |states| && forall w: Id :: PairKnown(states, n, id, w)
    ensures id !in states[n].callers.begins
            <==> forall w: Id :: CallBegan(states, n, id, w) ==> w !in states[n].ctl.writing
  {
    hide CallBegan, EverSent;
    var p := states[n].callers.begins;
    if id in p { assert PairKnown(states, n, id, p[id]); }
    forall w: Id | CallBegan(states, n, id, w) && id !in p ensures w !in states[n].ctl.writing {
      assert PairKnown(states, n, id, w);
    }
  }

  // ----------------------------------------------------------------- theorems

  /** In every run: the answer to a command is delivered if and only if it is
      answered, no write that its own call began raised, and none such is still
      suspended. */
  lemma DeliveredIff(states: seq<Sys>, events: seq<Event>, n: nat, id: Id)
    requires Run(states, events) && n <= |events|
    ensures Delivered(states[n], id) <==>
            && id in states[n].ctl.ledger.outcome
            && !RaisedFor(states, events, n, id)
            && forall w: Id :: CallBegan(states, n, id, w) ==> w !in states[n].ctl.writing
  {
    hide StepAt, Init, CallBegan, RaisedFor;
    GoneIffRaised(states, events, n, id);
    forall w: Id ensures PairKnown(states, n, id, w) { PairsKnown(states, events, n, id, w); }
    NoneSuspended(states, n, id);
  }

  /** A command taken in on an idle board is the one its dispatch may write. */
  lemma AcceptBeginsOwn(c: Ctl, command: Command)
    requires c.pending.Valid() && Accepts(c, command) && command.target in c.boards && Served(c, command.target)
    ensures var d := DispatchNext(Enqueue(c, command), command.target);
            |c.sent| < |d.sent| ==>
              d.sent[|c.sent|].id == |c.accepted| && c.boards[command.target].inFlight.None?
  {
    hide StalePrefix, ResolveAll, Refusal, TimeoutTooLong;
    var m, b := Enqueue(c, command), command.target;
    if MayDispatch(m, b) {
      assert MayDispatch(c, b);
      assert m.boards[b].fifo == [m.accepted[|c.accepted|]];
      assert DropStale(m, b).sent == c.sent;
    }
  }

  lemma RouteBeginsOwn(s: Sys, e: Event, t: Sys, id: Id, w: Id)
    requires Sound(s.ctl) && AllServed(s.ctl) && Step(s, e, t) && Begins(s.ctl, t.ctl, id, w)
    ensures w == id && e.RouteCommand? && e.command.target in s.ctl.boards
    ensures s.ctl.boards[e.command.target].inFlight.None?
  {
    hide CtlNext, Sound, AllServed, DispatchNext, Enqueue, Accepts, WritesFrom;
    StepWrites(s, e);
    RoutedTarget(s, e);
    AcceptBeginsOwn(s.ctl, e.command);
    AcceptedStep(s, e);
  }

  lemma RoutedTarget(s: Sys, e: Event)
    requires Enabled(s, e) && e.RouteCommand? && Accepts(s.ctl, e.command) && AllServed(s.ctl)
    ensures s.ctl.pending.Valid() && e.command.target in s.ctl.boards && Served(s.ctl, e.command.target)
  {
  }

  lemma AcceptedStep(s: Sys, e: Event)
    requires Enabled(s, e) && e.RouteCommand? && Accepts(s.ctl, e.command) && e.command.target in s.ctl.boards
    ensures CtlNext(s, e) == DispatchNext(Enqueue(s.ctl, e.command), e.command.target)
  {
    AcceptedRoute(s.ctl, e.command, e.local);
  }

  /** While no response raised, a call begins no other write than its own: a command
      that is dispatched at once found its queue empty. */
  lemma CallsBeginTheirOwn(states: seq<Sys>, events: seq<Event>, r: nat, id: Id, w: Id)
    requires Run(states, events) && r < |events| && NoRaise(states, events, r) && CallBegins(states, r, id, w)
    ensures w == id && events[r].RouteCommand? && events[r].command.target in states[r].ctl.boards
    ensures states[r].ctl.boards[events[r].command.target].inFlight.None?
  {
    hide Init, Step, Sound, AllServed, SlotOk, Bounded, Begins, LinkOk, GateOk, SentOk, FailedOk, NoRaise;
    RunsKeepSlots(states, events, r);
    RunsAreSafe(states, events, r);
    AtStep(states, events, r);
    RouteBeginsOwn(states[r], events[r], states[r + 1], id, w);
  }

  /** The write that the call for `id` itself began raised. */
  ghost predicate OwnWriteRaised(states: seq<Sys>, events: seq<Event>, n: nat, id: Id)
    requires n <= |events| < |states|
  {
    exists j :: 0 <= j < n && events[j] == WriteRaises(id) && CallBegan(states, j, id, id)
  }

  lemma BeganOwn(states: seq<Sys>, events: seq<Event>, n: nat, id: Id, w: Id)
    requires Run(states, events) && n <= |events| && NoRaise(states, events, n) && CallBegan(states, n, id, w)
    ensures w == id
  {
    hide Init, StepAt, CallBegins, Raises;
    var r :| 0 <= r < n && CallBegins(states, r, id, w);
    CallsBeginTheirOwn(states, events, r, id, w);
  }

  lemma RaisedOwn(states: seq<Sys>, events: seq<Event>, n: nat, id: Id)
    requires Run(states, events) && n <= |events| && NoRaise(states, events, n)
    ensures RaisedFor(states, events, n, id) <==> OwnWriteRaised(states, events, n, id)
  {
    hide Init, StepAt, CallBegan, Raises;
    forall j: nat | j < n && RaisesFor(states, events, j, id)
      ensures events[j] == WriteRaises(id) && CallBegan(states, j, id, id)
    {
      BeganOwn(states, events, j, id, events[j].id);
    }
    forall j: nat | j < n && events[j] == WriteRaises(id) && CallBegan(states, j, id, id)
      ensures RaisesFor(states, events, j, id)
    {
    }
  }

  /** In every run in which no response raised: the answer to a command is delivered
      if and only if it is answered, unless its own call began its write, and that
      write raised or is still suspended. */
  lemma DeliveredUnlessOwnRaised(states: seq<Sys>, events: seq<Event>, n: nat, id: Id)
    requires Run(states, events) && n <= |events| && NoRaise(states, events, n)
    ensures Delivered(states[n], id) <==>
            && id in states[n].ctl.ledger.outcome
            && !OwnWriteRaised(states, events, n, id)
            && !(CallBegan(states, n, id, id) && id in states[n].ctl.writing)
  {
    hide Init, StepAt, CallBegan, RaisedFor, OwnWriteRaised, NoRaise;
    DeliveredIff(states, events, n, id);
    RaisedOwn(states, events, n, id);
    forall w: Id | CallBegan(states, n, id, w) ensures w == id { BeganOwn(states, events, n, id, w); }
  }

  lemma CallEnds(s: Sys, e: Event, t: Sys, id: Id)
    requires Sound(s.ctl) && Step(s, e, t) && id in s.ctl.ledger.outcome && id !in s.callers.begins
    ensures id !in t.callers.begins && (id in t.callers.gone <==> id in s.callers.gone)
  {
    AnsweredIsAccepted(s.ctl, id);
    hide Enabled, CtlNext, PhaseNext, HistNext, Sound, Valid;
  }

  lemma AnsweredIsAccepted(c: Ctl, id: Id)
    requires Sound(c) && id in c.ledger.outcome
    ensures id < |c.accepted|
  {
  }

  /** A call ends once: what was delivered stays delivered, with the same reply, and
      a call that is gone stays gone. */
  lemma {:induction false} CallsEndOnce(states: seq<Sys>, events: seq<Event>, i: nat, n: nat, id: Id)
    requires Run(states, events) && i <= n <= |events|
    requires id in states[i].ctl.ledger.outcome && id !in states[i].callers.begins
    ensures Delivered(states[n], id) <==> Delivered(states[i], id)
    ensures id in states[n].callers.gone <==> id in states[i].callers.gone
    ensures id in states[n].ctl.ledger.outcome
            && states[n].ctl.ledger.outcome[id] == states[i].ctl.ledger.outcome[id]
    decreases n - i
  {
    hide Init, Step, StepAt, Answers, Sound, Clean, Conserved;
    AnswersAreFinal(states, events, i, n, id);
    if i < n {
      NothingLostIffClean(states, events, i);
      AnswersAreFinal(states, events, i, i + 1, id);
      AtStep(states, events, i);
      CallEnds(states[i], events[i], states[i + 1], id);
      CallsEndOnce(states, events, i + 1, n, id);
    }
  }

  /** After the fail phase of a shutdown, in a run in which nothing was lost, the
      answer to every command ever accepted has been delivered, unless a write its
      call began raised or is still suspended. */
  lemma ShutdownDelivers(states: seq<Sys>, events: seq<Event>, n: nat)
    requires Run(states, events) && n <= |events| && states[n].failed && Clean(states, events, n)
    ensures forall id: Id :: id < |states[n].ctl.accepted| ==>
              (Delivered(states[n], id) <==>
               && !RaisedFor(states, events, n, id)
               && forall w: Id :: CallBegan(states, n, id, w) ==> w !in states[n].ctl.writing)
  {
    hide Init, StepAt, CallBegan, RaisedFor, Clean, Drained;
    ShutdownIsFinal(states, events, n, n);
    forall id: Id | id < |states[n].ctl.accepted|
      ensures Delivered(states[n], id) <==>
              && !RaisedFor(states, events, n, id)
              && forall w: Id :: CallBegan(states, n, id, w) ==> w !in states[n].ctl.writing
    {
      DeliveredIff(states, events, n, id);
    }
  }

  // ------------------------------------------------- an answer nobody waits for

  /** A command not accepted yet has no caller. */
  lemma NoCaller(states: seq<Sys>, events: seq<Event>, n: nat, x: Id)
    requires Run(states, events) && n <= |events| && |states[n].ctl.accepted| <= x
    ensures x !in states[n].callers.begins && x !in states[n].callers.gone
  {
    hide Init, StepAt, CallBegan;
    forall w: Id ensures PairKnown(states, n, x, w) && !CallBegan(states, n, x, w) {
      PairsKnown(states, events, n, x, w);
    }
    NoneSuspended(states, n, x);
    GoneIffRaised(states, events, n, x);
    forall j: nat | j < n ensures !RaisesFor(states, events, j, x) {
      if events[j].WriteRaises? { BeganStays(states, j, n, x, events[j].id); }
    }
  }

  lemma BeganStays(states: seq<Sys>, j: nat, n: nat, x: Id, w: Id)
    requires j <= n < |states|
    ensures CallBegan(states, j, x, w) ==> CallBegan(states, n, x, w)
  {
    hide CallBegins;
  }

  lemma RaiseStep(s: Sys, a: BoardId, m: Object) returns (t: Sys)
    requires OneRouted(s, a, m)
    ensures Step(s, WriteRaises(0), t) && t.ctl == AbortWrite(s.ctl, 0) && t.phase == s.phase && OneStuck(t, a, m)
  {
    hide Registered;
    t := Next(s, WriteRaises(0));
  }

  /** The only command of board `a` is stuck. */
  ghost predicate OneStuck(s: Sys, a: BoardId, m: Object) {
    && Valid(s.ctl) && s.phase.Keys == s.ctl.boards.Keys && !s.ctl.closing && !s.ctl.latched
    && a in s.phase && s.phase[a] == Live && s.ctl.boards[a] == Registered(m).(nextSeq := 2, inFlight := Some(1))
    && |s.ctl.accepted| == 1 && s.ctl.accepted[0].board == a && Stuck(s.ctl, 0) && |s.ctl.sent| == 1
  }

  /** One more command comes behind it and is not sent. */
  lemma QueueStep(s: Sys, a: BoardId, m: Object, name: string) returns (t: Sys)
    requires OneStuck(s, a, m) && a != LOCAL_TARGET && Declares(m, name) && s.ctl.cfg.fifoDepth >= 1
    requires s.ctl.cfg.defaultTimeout <= MAX_COMMAND_TIMEOUT_S
    ensures Step(s, RouteCommand(Plain(a, name), ANY), t) && t.phase == s.phase && t.callers == s.callers
    ensures TwoWait(t, a)
  {
    hide HistNext, TwoWait;
    t := Next(s, RouteCommand(Plain(a, name), ANY));
    QueuedBehind(s.ctl, a, m, name);
    StillTwo(s, t, a);
  }

  lemma QueuedBehind(c: Ctl, a: BoardId, m: Object, name: string)
    requires Valid(c) && a in c.boards && a != LOCAL_TARGET && !c.closing && !c.latched && Declares(m, name)
    requires c.boards[a] == Registered(m).(nextSeq := 2, inFlight := Some(1)) && c.cfg.fifoDepth >= 1
    requires c.cfg.defaultTimeout <= MAX_COMMAND_TIMEOUT_S
    requires |c.accepted| == 1 && c.accepted[0].board == a && Stuck(c, 0) && |c.sent| == 1
    ensures var d := Route(c, Plain(a, name), ANY).0;
            && Valid(d) && d.boards.Keys == c.boards.Keys && !d.closing && d.sent == c.sent
            && |d.accepted| == 2 && d.accepted[0].board == d.accepted[1].board == a
            && Stuck(d, 0) && InFifo(d, 1)
  {
  }

  lemma StillTwo(s: Sys, t: Sys, a: BoardId)
    requires t.phase == s.phase && a in s.phase && s.phase.Keys == s.ctl.boards.Keys
    requires Valid(t.ctl) && t.ctl.boards.Keys == s.ctl.boards.Keys && !t.ctl.closing && |t.ctl.sent| == 1
    requires |t.ctl.accepted| == 2 && t.ctl.accepted[0].board == t.ctl.accepted[1].board == a
    requires Stuck(t.ctl, 0) && InFifo(t.ctl, 1)
    ensures TwoWait(t, a)
  {
  }

  /** One command of the board is stuck and one waits behind it. */
  ghost predicate TwoWait(s: Sys, a: BoardId) {
    && Valid(s.ctl) && s.phase.Keys == s.ctl.boards.Keys && a in s.phase && !s.ctl.closing
    && |s.ctl.accepted| == 2 && s.ctl.accepted[0].board == s.ctl.accepted[1].board == a
    && Stuck(s.ctl, 0) && InFifo(s.ctl, 1) && |s.ctl.sent| == 1
  }

  lemma LeaveStep(s: Sys, a: BoardId) returns (t: Sys)
    requires TwoWait(s, a) && s.phase[a] == Live
    ensures Step(s, SessionEnds(a), t) && t.ctl == s.ctl && TwoWait(t, a) && t.callers == s.callers
    ensures t.phase[a] == Ending
  {
    t := Next(s, SessionEnds(a));
  }

  lemma DownStep(s: Sys, a: BoardId) returns (t: Sys)
    requires Sound(s.ctl) && TwoWait(s, a) && s.phase[a] == Ending
    requires forall id: Id :: id < 2 ==> id !in s.ctl.ledger.outcome
    ensures Step(s, ReportDown(a), t) && t.callers == s.callers && |t.ctl.accepted| == 2 && Conserved(t.ctl)
    ensures forall id: Id :: id < 2 ==>
              id in t.ctl.ledger.outcome && t.ctl.ledger.outcome[id].code == Some(BOARD_UNAVAILABLE)
  {
    hide BoardDown, Sound;
    BoardDownAnswers(s.ctl, a);
    t := Next(s, ReportDown(a));
    DownStarts(s.ctl, a);
    BothAnswered(s.ctl, t.ctl, a);
  }

  lemma BothAnswered(c: Ctl, d: Ctl, a: BoardId)
    requires |c.accepted| == 2 && d.accepted == c.accepted && c.accepted[0].board == c.accepted[1].board == a
    requires InPending(c, 0) && InFifo(c, 1) && AnswersExactly(c, d, Unanswered(c, a), BOARD_UNAVAILABLE)
    requires forall id: Id :: id < 2 ==> id !in c.ledger.outcome
    ensures Conserved(d)
    ensures forall id: Id :: id < 2 ==>
              id in d.ledger.outcome && d.ledger.outcome[id].code == Some(BOARD_UNAVAILABLE)
  {
    assert 0 in Unanswered(c, a) && 1 in Unanswered(c, a);
  }

  /** The run up to the second command. */
  lemma RaisedRun(s: Sys, a: BoardId, m: Object, name: string) returns (states: seq<Sys>)
    requires Init(s) && s.ctl.cfg.boards == [a] && a != LOCAL_TARGET && Declares(m, name) && s.ctl.cfg.fifoDepth >= 1
    requires s.ctl.cfg.defaultTimeout <= MAX_COMMAND_TIMEOUT_S && s.ctl.cfg.defaultCap >= 0.0
    ensures Run(states, Joining(a, m) + [RouteCommand(Plain(a, name), ANY), WriteRaises(0),
                                         RouteCommand(Plain(a, name), ANY)])
    ensures states[0] == s && TwoWait(states[6], a) && states[6].phase[a] == Live
    ensures Begins(states[3].ctl, states[4].ctl, 0, 0)
    ensures |states[5].ctl.accepted| == 1 && states[6].callers == states[5].callers
  {
    hide Init, Step, StepAt, Plain, Declares, Stuck, InFifo, Valid, Registered;
    var r1, r2 := RouteCommand(Plain(a, name), ANY), WriteRaises(0);
    var j := Joining(a, m);
    var first := FirstRun(s, a, m, name);
    var t5 := RaiseStep(Last(first), a, m);
    Extend(first, j + [r1], r2, t5);
    var t6 := QueueStep(t5, a, m, name);
    Extend(first + [t5], j + [r1] + [r2], r1, t6);
    states := first + [t5] + [t6];
    assert j + [r1] + [r2] + [r1] == j + [r1, r2, r1];
  }

  /** One board, and a first command whose write raises, as one over the line limit of
      the board does: the command behind it is not sent; when the board is lost both
      are answered and nothing was lost, but only the second answer is delivered. */
  lemma AnsweredNotDelivered(s: Sys, a: BoardId, m: Object, name: string) returns (states: seq<Sys>)
    requires Init(s) && s.ctl.cfg.boards == [a] && a != LOCAL_TARGET && Declares(m, name) && s.ctl.cfg.fifoDepth >= 1
    requires s.ctl.cfg.defaultTimeout <= MAX_COMMAND_TIMEOUT_S && s.ctl.cfg.defaultCap >= 0.0
    ensures Run(states, Joining(a, m) + [RouteCommand(Plain(a, name), ANY), WriteRaises(0),
                                         RouteCommand(Plain(a, name), ANY), SessionEnds(a), ReportDown(a)])
    ensures states[0] == s && Stuck(states[7].ctl, 0) && InFifo(states[7].ctl, 1) && |states[7].ctl.sent| == 1
    ensures Conserved(states[8].ctl) && !Delivered(states[8], 0) && Delivered(states[8], 1)
    ensures forall id: Id :: id < 2 ==>
              && id in states[8].ctl.ledger.outcome
              && states[8].ctl.ledger.outcome[id].code == Some(BOARD_UNAVAILABLE)
  {
    hide Init, Step, StepAt, Plain, Declares, TwoWait, Conserved, Sound, Begins;
    var j := Joining(a, m) + [RouteCommand(Plain(a, name), ANY), WriteRaises(0), RouteCommand(Plain(a, name), ANY)];
    var before := RaisedRun(s, a, m, name);
    var t7 := LeaveStep(Last(before), a);
    Extend(before, j, SessionEnds(a), t7);
    NothingLostIffClean(before + [t7], j + [SessionEnds(a)], 7);
    BothWait(t7, a);
    var t8 := DownStep(t7, a);
    Extend(before + [t7], j + [SessionEnds(a)], ReportDown(a), t8);
    states := before + [t7] + [t8];
    var all := j + [SessionEnds(a)] + [ReportDown(a)];
    assert all == Joining(a, m) + [RouteCommand(Plain(a, name), ANY), WriteRaises(0), RouteCommand(Plain(a, name), ANY),
                                   SessionEnds(a), ReportDown(a)];
    assert CallBegins(states, 3, 0, 0);
    assert RaisesFor(states, all, 4, 0);
    DeliveredIff(states, all, 8, 0);
    NoCaller(states, all, 5, 1);
  }

  lemma BothWait(s: Sys, a: BoardId)
    requires Sound(s.ctl) && TwoWait(s, a)
    ensures Stuck(s.ctl, 0) && InFifo(s.ctl, 1) && |s.ctl.sent| == 1 && |s.ctl.accepted| == 2
    ensures s.ctl.accepted[0].board == s.ctl.accepted[1].board == a
    ensures forall id: Id :: id < 2 ==> id !in s.ctl.ledger.outcome
  {
    hide Valid;
    OnePlace(s.ctl, 0);
    OnePlace(s.ctl, 1);
  }
}
