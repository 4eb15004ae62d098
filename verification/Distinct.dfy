/** When no key serves two commands: live board seqs that are distinct, which one
    expected board guarantees and two boards do not. */
module Distinct {
  import opened Protocol
  import opened Controller
  import opened Accounts
  import opened Conservation
  import opened Steps
  import opened Resolvers
  import opened System
  import opened Loss

  /** Queued, pending, or with its write suspended. */
  predicate Live(c: Ctl, id: Id) {
    id < |c.accepted| && (InFifo(c, id) || InPending(c, id) || id in c.writing)
  }

  /** No two live commands share a board seq. */
  ghost predicate LiveDistinct(c: Ctl) {
    forall i: Id, j: Id :: Live(c, i) && Live(c, j) && i != j ==> c.accepted[i].boardSeq != c.accepted[j].boardSeq
  }

  /** A command that is taken in gets a board seq no live command has. */
  ghost predicate Fresh(c: Ctl, e: Event) {
    e.RouteCommand? && Accepts(c, e.command) ==>
      forall id: Id :: Live(c, id) ==> c.accepted[id].boardSeq != c.boards[e.command.target].nextSeq
  }

  /** A response that takes out its entry and raises. */
  predicate Raises(c: Ctl, e: Event) { e.ResponseArrives? && e.reply.overflows && e.reply.boardSeq in c.pending.m }

  // ---------------------------------------------- distinct, so not forfeiting

  lemma PendingIsLive(s: Ctl, k: nat)
    requires Tables(s) && k in s.pending.m
    ensures var id := s.pending.m[k].id; Live(s, id) && s.accepted[id].boardSeq == k && !Done(s, id)
  {
    PendingEntryOk(s, k);
  }

  lemma NoOverwrite(s: Ctl, b: BoardId)
    requires Tables(s) && b in s.boards && LiveDistinct(s)
    ensures !Overwrites(s, b)
  {
    var q := s.boards[b].fifo;
    var n := StalePrefix(q, s.now);
    if n < |q| && q[n].boardSeq in s.pending.m {
      QueueMember(s, b, n);
      PendingIsLive(s, q[n].boardSeq);
      OnePlace(s, q[n].id);
      assert Live(s, q[n].id);
    }
  }

  lemma NoDrop(s: Ctl, id: Id)
    requires Tables(s) && id in s.writing && LiveDistinct(s)
    ensures !DropsOther(s, id)
  {
    var k := s.writing[id].boardSeq;
    assert WrittenOk(s, s.writing[id]);
    if k in s.pending.m { PendingIsLive(s, k); }
  }

  lemma FreshEnqueue(c: Ctl, command: Command)
    requires Sound(c) && Accepts(c, command) && LiveDistinct(c)
    requires forall id: Id :: Live(c, id) ==> c.accepted[id].boardSeq != c.boards[command.target].nextSeq
    ensures LiveDistinct(Enqueue(c, command))
  {
    hide LedgerOk;
    var m := Enqueue(c, command);
    var e := m.accepted[|c.accepted|];
    EnqueueShape(c, command);
    forall id: Id | id < |c.accepted| && Live(m, id) ensures Live(c, id) { TailJoins(c, m, e, id); }
  }

  /** Nothing that was not live comes to life. */
  ghost predicate NoneWakes(c: Ctl, d: Ctl) {
    c.accepted <= d.accepted && forall id: Id :: id < |c.accepted| && Live(d, id) ==> Live(c, id)
  }

  /** Writes of `d` were suspended or queued in `c`, or are of new commands. */
  ghost predicate WritesFrom(c: Ctl, d: Ctl) {
    forall id :: id in d.writing ==> id in c.writing || InFifo(c, id) || id >= |c.accepted|
  }

  lemma KeptNoneWakes(c: Ctl, d: Ctl)
    requires Tables(d) && NoneReturns(c, d) && Final(c, d) && WritesFrom(c, d)
    ensures NoneWakes(c, d)
  {
    forall id: Id | id < |c.accepted| && Live(d, id) ensures Live(c, id) {
      if InFifo(d, id) || InPending(d, id) {
        OnePlace(d, id);
        assert Placed(d, id) && Placed(c, id);
      }
    }
  }

  lemma WakesDistinct(c: Ctl, d: Ctl)
    requires NoneWakes(c, d) && d.accepted == c.accepted && LiveDistinct(c)
    ensures LiveDistinct(d)
  {
  }

  lemma SettledDistinct(c: Ctl, m: Ctl)
    requires Settles(c, m) && m.writing == c.writing && LiveDistinct(c)
    ensures LiveDistinct(m)
  {
    hide LedgerOk, LiveDistinct, Live;
    KeptThenNone(c, m, m);
    assert WritesFrom(c, m);
    KeptNoneWakes(c, m);
    WakesDistinct(c, m);
  }

  /** With distinct live seqs only a raising response loses a command. */
  lemma LiveNeverForfeits(s: Sys, e: Event)
    requires Sound(s.ctl) && Enabled(s, e) && LiveDistinct(s.ctl) && Fresh(s.ctl, e)
    ensures Forfeits(s, e) <==> Raises(s.ctl, e)
  {
    hide LiveDistinct, Live, LedgerOk;
    var c := s.ctl;
    if e.RouteCommand? {
      if Accepts(c, e.command) {
        EnqueueKeeps(c, e.command);
        FreshEnqueue(c, e.command);
        NoOverwrite(Enqueue(c, e.command), e.command.target);
      }
    } else if e.WriteReturns? {
      NoDrop(c, e.id);
    } else if e.ResponseArrives? {
      if e.reply.boardSeq in c.pending.m { MatchedNeverOverwrites(c, e.reply); }
    } else if e.TimerFires? {
      if c.timers.asleep[e.id].boardSeq in c.pending.m { TimedOutNeverOverwrites(c, e.id); }
    }
  }

  lemma MatchedNeverOverwrites(c: Ctl, r: BoardReply)
    requires Sound(c) && Coupled(r.status, r.code) && r.boardSeq in c.pending.m && LiveDistinct(c)
    ensures !Overwrites(Matched(c, r), c.pending.m[r.boardSeq].board)
  {
    hide LiveDistinct, Overwrites, LedgerOk, TakeOut, Settle, RelayedReply;
    MatchedSettles(c, r);
    TakeOutFrame(c, r.boardSeq);
    SettledDistinct(c, Matched(c, r));
    NoOverwrite(Matched(c, r), c.pending.m[r.boardSeq].board);
  }

  lemma TimedOutNeverOverwrites(c: Ctl, id: Id)
    requires Sound(c) && id in c.timers.asleep && c.timers.asleep[id].boardSeq in c.pending.m && LiveDistinct(c)
    ensures !Overwrites(TimedOut(c, id), c.pending.m[c.timers.asleep[id].boardSeq].board)
  {
    hide LiveDistinct, Overwrites, LedgerOk, ResolveError, TimedOut;
    TimeoutFrame(c, id);
    TimedOutSettles(c, id);
    SettledDistinct(c, TimedOut(c, id));
    NoOverwrite(TimedOut(c, id), c.pending.m[c.timers.asleep[id].boardSeq].board);
  }

  // ------------------------------------------- what a step starts and takes in

  /** No write begins and no command is taken in. */
  predicate StartsNone(c: Ctl, d: Ctl) { d.writing == c.writing && d.accepted == c.accepted }

  lemma DispatchWrites(s: Ctl, b: BoardId)
    requires Tables(s) && b in s.boards
    ensures var d := DispatchNext(s, b);
            d.accepted == s.accepted && forall id :: id in d.writing ==> id in s.writing || InFifo(s, id)
  {
    var q, n := s.boards[b].fifo, StalePrefix(s.boards[b].fifo, s.now);
    if MayDispatch(s, b) && n < |q| {
      QueueMember(s, b, n);
      assert DropStale(s, b).boards[b].fifo[0] == q[n];
    }
  }

  /** `d` comes from a step to `m` that starts nothing and a dispatch. */
  lemma ThenWrites(c: Ctl, m: Ctl, b: BoardId)
    requires Tables(m) && b in m.boards && StartsNone(c, m)
    requires forall id :: InFifo(m, id) ==> InFifo(c, id)
    ensures WritesFrom(c, DispatchNext(m, b)) && DispatchNext(m, b).accepted == c.accepted
  {
    hide DispatchNext, Tables, InFifo;
    DispatchWrites(m, b);
  }

  lemma AcceptWrites(c: Ctl, command: Command)
    requires Sound(c) && Accepts(c, command)
    ensures var m := Enqueue(c, command);
            WritesFrom(c, DispatchNext(m, command.target)) && DispatchNext(m, command.target).accepted == m.accepted
  {
    hide DispatchNext, LedgerOk;
    var m := Enqueue(c, command);
    EnqueueKeeps(c, command);
    EnqueueShape(c, command);
    DispatchWrites(m, command.target);
    forall id: Id | InFifo(m, id) ensures InFifo(c, id) || id >= |c.accepted| {
      TailJoins(c, m, m.accepted[|c.accepted|], id);
    }
  }

  lemma RouteWrites(c: Ctl, command: Command, local: Reply)
    requires Sound(c)
    ensures var d := Route(c, command, local).0;
            && WritesFrom(c, d)
            && d.accepted == if Accepts(c, command) then Enqueue(c, command).accepted else c.accepted
  {
    hide DispatchNext, LedgerOk, Tables, InFifo;
    if Accepts(c, command) { AcceptWrites(c, command); }
  }

  lemma ResponseWrites(c: Ctl, r: BoardReply)
    requires Sound(c) && Coupled(r.status, r.code)
    ensures WritesFrom(c, HandleResponse(c, r)) && HandleResponse(c, r).accepted == c.accepted
  {
    hide DispatchNext, LedgerOk, Settle, RelayedReply, TakeOut, InFifo;
    if r.boardSeq in c.pending.m {
      TakeOutFrame(c, r.boardSeq);
      if !r.overflows {
        MatchedSettles(c, r);
        forall id ensures InFifo(Matched(c, r), id) <==> InFifo(c, id) { SameQueues(c, Matched(c, r), id); }
        ThenWrites(c, Matched(c, r), c.pending.m[r.boardSeq].board);
      }
    }
  }

  lemma TimerWrites(c: Ctl, id: Id)
    requires Sound(c) && id in c.timers.asleep
    ensures WritesFrom(c, FireTimer(c, id)) && FireTimer(c, id).accepted == c.accepted
  {
    hide DispatchNext, LedgerOk, ResolveError, InFifo, TimedOut, WritesFrom, Tables;
    SoundIsValid(c);
    var k := c.timers.asleep[id].boardSeq;
    if k in c.pending.m {
      TimedOutWrites(c, id);
    } else {
      SameWrites(c, FireTimer(c, id));
    }
  }

  lemma SameWrites(c: Ctl, d: Ctl)
    requires d.writing == c.writing
    ensures WritesFrom(c, d)
  {
  }

  lemma TimedOutWrites(c: Ctl, id: Id)
    requires Sound(c) && Valid(c) && id in c.timers.asleep && c.timers.asleep[id].boardSeq in c.pending.m
    ensures WritesFrom(c, FireTimer(c, id)) && FireTimer(c, id).accepted == c.accepted
  {
    hide DispatchNext, LedgerOk, ResolveError, InFifo, TimedOut, WritesFrom, KeepsAll, Final;
    var m := TimedOut(c, id);
    TimeoutFrame(c, id);
    TimedOutSettles(c, id);
    forall x ensures InFifo(m, x) <==> InFifo(c, x) { SameQueues(c, m, x); }
    ThenWrites(c, m, c.pending.m[c.timers.asleep[id].boardSeq].board);
  }

  lemma WriteEndStarts(c: Ctl, id: Id)
    requires Valid(c) && id in c.writing
    ensures var d := ResumeWrite(c, id); d.writing == c.writing - {id} && d.accepted == c.accepted
    ensures var d := AbortWrite(c, id); d.writing == c.writing - {id} && d.accepted == c.accepted
  {
  }

  lemma DownStarts(c: Ctl, b: BoardId)
    requires Valid(c) && b in c.boards
    ensures StartsNone(c, BoardDown(c, b))
  {
  }

  lemma FlushStarts(c: Ctl)
    requires Valid(c)
    ensures StartsNone(c, TriggerEstop(c)) && StartsNone(c, FailRemaining(c))
  {
  }

  lemma SchemaStarts(c: Ctl, b: BoardId, m: Object)
    requires b in c.boards
    ensures StartsNone(c, RegisterAndAssert(c, b, m))
  {
  }

  lemma OtherStarts(s: Sys, e: Event)
    requires Enabled(s, e) && !OnCommand(e)
    ensures StartsNone(s.ctl, CtlNext(s, e))
  {
    hide BoardDown, TriggerEstop, FailRemaining, RegisterAndAssert, Valid;
    if e.LivenessExpires? || e.ReportDown? { DownStarts(s.ctl, e.board); }
    else if e.EstopTriggered? || e.ShutdownFails? { FlushStarts(s.ctl); }
    else if e.SchemaArrives? { SchemaStarts(s.ctl, e.board, e.schema); }
  }

  lemma StepWrites(s: Sys, e: Event)
    requires Sound(s.ctl) && Enabled(s, e)
    ensures WritesFrom(s.ctl, CtlNext(s, e))
    ensures CtlNext(s, e).accepted
            == if e.RouteCommand? && Accepts(s.ctl, e.command) then Enqueue(s.ctl, e.command).accepted
              else s.ctl.accepted
  {
    hide Route, HandleResponse, FireTimer, ResumeWrite, AbortWrite, LedgerOk, Tables;
    if e.RouteCommand? { RouteWrites(s.ctl, e.command, e.local); }
    else if e.ResponseArrives? { ResponseWrites(s.ctl, e.reply); }
    else if e.TimerFires? { TimerWrites(s.ctl, e.id); }
    else if e.WriteReturns? || e.WriteRaises? { WriteEndStarts(s.ctl, e.id); }
    else { OtherStarts(s, e); }
  }

  lemma StepWakes(s: Sys, e: Event)
    requires Sound(s.ctl) && Enabled(s, e)
    ensures NoneWakes(s.ctl, CtlNext(s, e))
  {
    hide LedgerOk, CtlNext, WritesFrom, NoneReturns, Final, Conserved, Forfeits;
    StepPreserves(s, e);
    StepWrites(s, e);
    KeptNoneWakes(s.ctl, CtlNext(s, e));
  }

  lemma AcceptedDistinct(c: Ctl, d: Ctl, command: Command)
    requires Accepts(c, command) && d.accepted == Enqueue(c, command).accepted && NoneWakes(c, d) && LiveDistinct(c)
    requires forall id: Id :: Live(c, id) ==> c.accepted[id].boardSeq != c.boards[command.target].nextSeq
    ensures LiveDistinct(d)
  {
    hide Live;
    assert forall id: Id :: Live(d, id) ==> id < |d.accepted| by { LiveAccepted(d); }
  }

  lemma LiveAccepted(d: Ctl)
    ensures forall id: Id :: Live(d, id) ==> id < |d.accepted|
  {
  }

  lemma DistinctAfter(s: Sys, e: Event, t: Sys)
    requires Sound(s.ctl) && LiveDistinct(s.ctl) && Fresh(s.ctl, e) && Step(s, e, t)
    ensures LiveDistinct(t.ctl)
  {
    hide Sound, CtlNext, LiveDistinct, Live, NoneWakes;
    StepWakes(s, e);
    StepWrites(s, e);
    if e.RouteCommand? && Accepts(s.ctl, e.command) {
      AcceptedDistinct(s.ctl, t.ctl, e.command);
    } else {
      WakesDistinct(s.ctl, t.ctl);
    }
  }

  // ------------------------------------------------------------------- runs

  ghost predicate FreshRun(states: seq<Sys>, events: seq<Event>, n: nat)
    requires n <= |events| < |states|
  {
    forall i :: 0 <= i < n ==> Fresh(states[i].ctl, events[i])
  }

  /** No response among the first `n` events raised on an entry it had taken out. */
  predicate NoRaise(states: seq<Sys>, events: seq<Event>, n: nat)
    requires n <= |events| < |states|
  {
    forall i :: 0 <= i < n ==> !Raises(states[i].ctl, events[i])
  }

  lemma RaisesForfeits(s: Sys, e: Event, t: Sys)
    requires Step(s, e, t) && Raises(s.ctl, e)
    ensures Forfeits(s, e)
  {
    hide CtlNext, Overwrites, Matched;
  }

  lemma CleanNeverRaises(states: seq<Sys>, events: seq<Event>, n: nat)
    requires Run(states, events) && n <= |events| && Clean(states, events, n)
    ensures NoRaise(states, events, n)
  {
    hide Init, Step, Raises, Forfeits;
    forall i | 0 <= i < n ensures !Raises(states[i].ctl, events[i]) {
      AtStep(states, events, i);
      if Raises(states[i].ctl, events[i]) { RaisesForfeits(states[i], events[i], states[i + 1]); }
    }
  }

  lemma StartIsDistinct(s: Sys)
    requires Init(s)
    ensures LiveDistinct(s.ctl)
  {
  }

  lemma {:induction false} FreshRunsAreDistinct(states: seq<Sys>, events: seq<Event>, n: nat)
    requires Run(states, events) && n <= |events| && FreshRun(states, events, n)
    ensures LiveDistinct(states[n].ctl)
  {
    hide Sound, Conserved, Init, Step, LiveDistinct, Fresh, Forfeits;
    if n == 0 {
      StartIsDistinct(states[0]);
    } else {
      FreshRunsAreDistinct(states, events, n - 1);
      NothingLostIffClean(states, events, n - 1);
      AtStep(states, events, n - 1);
      DistinctAfter(states[n - 1], events[n - 1], states[n]);
    }
  }

  lemma FreshStep(s: Sys, e: Event, t: Sys)
    requires Sound(s.ctl) && LiveDistinct(s.ctl) && Fresh(s.ctl, e) && Step(s, e, t)
    ensures Forfeits(s, e) <==> Raises(s.ctl, e)
  {
    hide Sound, LiveDistinct, Fresh, Forfeits, Raises;
    LiveNeverForfeits(s, e);
  }

  /** In every run in which each accepted command got a board seq that no live
      command had at that moment: nothing is lost if and only if no response raised
      on an entry it had taken out. */
  lemma LiveSeqsLoseNothing(states: seq<Sys>, events: seq<Event>, n: nat)
    requires Run(states, events) && n <= |events| && FreshRun(states, events, n)
    ensures Clean(states, events, n) <==> NoRaise(states, events, n)
    ensures Conserved(states[n].ctl) <==> NoRaise(states, events, n)
  {
    hide Sound, Conserved, Init, Step, LiveDistinct, Fresh, Forfeits, Raises;
    forall i | 0 <= i < n ensures Forfeits(states[i], events[i]) <==> Raises(states[i].ctl, events[i]) {
      FreshRunsAreDistinct(states, events, i);
      NothingLostIffClean(states, events, i);
      AtStep(states, events, i);
      FreshStep(states[i], events[i], states[i + 1]);
    }
    NothingLostIffClean(states, events, n);
  }

  lemma DispatchConfig(s: Ctl, b: BoardId)
    requires b in s.boards && s.pending.Valid()
    ensures DispatchNext(s, b).cfg == s.cfg
  {
  }

  lemma ResponseConfig(c: Ctl, r: BoardReply)
    requires Valid(c)
    ensures HandleResponse(c, r).cfg == c.cfg
  {
    hide TakeOut, DispatchNext;
    if r.boardSeq in c.pending.m {
      TakeOutFrame(c, r.boardSeq);
      if !r.overflows { DispatchConfig(Matched(c, r), c.pending.m[r.boardSeq].board); }
    }
  }

  lemma TimerConfig(c: Ctl, id: Id)
    requires Valid(c) && id in c.timers.asleep
    ensures FireTimer(c, id).cfg == c.cfg
  {
    hide DispatchNext;
    var k := c.timers.asleep[id].boardSeq;
    if k in c.pending.m { DispatchConfig(TimedOut(c, id), c.pending.m[k].board); }
  }

  lemma RouteConfig(c: Ctl, command: Command, local: Reply)
    requires Valid(c)
    ensures Route(c, command, local).0.cfg == c.cfg
  {
    hide DispatchNext;
    if Accepts(c, command) { DispatchConfig(Enqueue(c, command), command.target); }
  }

  lemma CommandConfig(s: Sys, e: Event)
    requires Enabled(s, e) && OnCommand(e)
    ensures CtlNext(s, e).cfg == s.ctl.cfg
  {
    hide Route, HandleResponse, FireTimer;
    if e.RouteCommand? { RouteConfig(s.ctl, e.command, e.local); }
    else if e.ResponseArrives? { ResponseConfig(s.ctl, e.reply); }
    else if e.TimerFires? { TimerConfig(s.ctl, e.id); }
  }

  lemma DownConfig(c: Ctl, b: BoardId)
    requires Valid(c) && b in c.boards
    ensures BoardDown(c, b).cfg == c.cfg
  {
  }

  lemma FlushConfig(c: Ctl)
    requires Valid(c)
    ensures TriggerEstop(c).cfg == c.cfg && FailRemaining(c).cfg == c.cfg
  {
  }

  lemma SchemaConfig(c: Ctl, b: BoardId, m: Object)
    requires b in c.boards
    ensures RegisterAndAssert(c, b, m).cfg == c.cfg
  {
  }

  lemma OtherConfig(s: Sys, e: Event)
    requires Enabled(s, e) && !OnCommand(e)
    ensures CtlNext(s, e).cfg == s.ctl.cfg
  {
    hide BoardDown, TriggerEstop, FailRemaining, RegisterAndAssert, Valid;
    if e.LivenessExpires? || e.ReportDown? { DownConfig(s.ctl, e.board); }
    else if e.EstopTriggered? || e.ShutdownFails? { FlushConfig(s.ctl); }
    else if e.SchemaArrives? { SchemaConfig(s.ctl, e.board, e.schema); }
  }

  lemma StepConfig(s: Sys, e: Event)
    requires Enabled(s, e)
    ensures Next(s, e).ctl.cfg == s.ctl.cfg
  {
    hide CtlNext;
    if OnCommand(e) { CommandConfig(s, e); } else { OtherConfig(s, e); }
  }

  lemma {:induction false} RunConfig(states: seq<Sys>, events: seq<Event>, n: nat)
    requires Run(states, events) && n <= |events|
    ensures states[n].ctl.cfg == states[0].ctl.cfg
  {
    hide Init, StepAt, Enabled, CtlNext;
    if n > 0 {
      RunConfig(states, events, n - 1);
      AtStep(states, events, n - 1);
      StepConfig(states[n - 1], events[n - 1]);
    }
  }

  // --------------------------------------------------------- one expected board

  /** No two accepted commands share a board seq. */
  ghost predicate DistinctSeqs(acc: seq<Entry>) {
    forall i, j :: 0 <= i < j < |acc| ==> acc[i].boardSeq != acc[j].boardSeq
  }

  lemma OneBoardDistinct(s: Ctl)
    requires Sound(s) && |s.cfg.boards| == 1
    ensures DistinctSeqs(s.accepted)
  {
    forall i, j | 0 <= i < j < |s.accepted| ensures s.accepted[i].boardSeq != s.accepted[j].boardSeq {
      assert AcceptedOk(s, i) && AcceptedOk(s, j);
      assert s.accepted[i].board == s.cfg.boards[0] == s.accepted[j].board;
    }
  }

  lemma OneBoardIsFresh(s: Ctl, e: Event)
    requires Sound(s) && |s.cfg.boards| == 1
    ensures Fresh(s, e)
  {
    if e.RouteCommand? && Accepts(s, e.command) {
      var b := e.command.target;
      forall id: Id | Live(s, id) ensures s.accepted[id].boardSeq != s.boards[b].nextSeq {
        assert AcceptedOk(s, id);
        assert s.accepted[id].board == s.cfg.boards[0] == b;
      }
    }
  }

  lemma OneBoardIsFreshRun(states: seq<Sys>, events: seq<Event>, n: nat)
    requires Run(states, events) && n <= |events| && |states[0].ctl.cfg.boards| == 1
    ensures FreshRun(states, events, n)
  {
    hide Sound, Init, StepAt, Fresh, Conserved, Forfeits;
    forall i | 0 <= i < n ensures Fresh(states[i].ctl, events[i]) {
      NothingLostIffClean(states, events, i);
      RunConfig(states, events, i);
      OneBoardIsFresh(states[i].ctl, events[i]);
    }
  }

  /** With one expected board, in every run: nothing is lost if and only if no
      response raised on an entry it had taken out. */
  lemma OneBoardLosesNothing(states: seq<Sys>, events: seq<Event>, n: nat)
    requires Run(states, events) && n <= |events| && |states[0].ctl.cfg.boards| == 1
    ensures Clean(states, events, n) <==> NoRaise(states, events, n)
    ensures Conserved(states[n].ctl) <==> NoRaise(states, events, n)
  {
    hide Init, StepAt, FreshRun, Clean, NoRaise, Conserved;
    OneBoardIsFreshRun(states, events, n);
    LiveSeqsLoseNothing(states, events, n);
  }

  /** In a run without a forfeiting step every accepted command is, at every
      suspension point, in exactly one place. */
  lemma ExactlyOnePlace(states: seq<Sys>, events: seq<Event>, n: nat, id: Id)
    requires Run(states, events) && n <= |events| && Clean(states, events, n) && id < |states[n].ctl.accepted|
    ensures var c := states[n].ctl;
            && (Done(c, id) || InFifo(c, id) || InPending(c, id))
            && !(Done(c, id) && InFifo(c, id)) && !(Done(c, id) && InPending(c, id))
               && !(InFifo(c, id) && InPending(c, id))
  {
    hide Init, StepAt, Forfeits, LedgerOk, Tables, Done, InFifo, InPending;
    NothingLostIffClean(states, events, n);
    OnePlace(states[n].ctl, id);
  }
}
