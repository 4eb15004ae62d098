/** Which command a step loses, and so which commands a run has lost. */
module Loss {
  import opened Basics
  import opened Protocol
  import opened Controller
  import opened Accounts
  import opened Conservation
  import opened Steps
  import opened Resolvers
  import opened System

  /** A routed command that is taken in and dispatched at once over a live key. */
  predicate RouteOverwrites(c: Ctl, command: Command)
  {
    && Accepts(c, command)
    && Overwrites(Enqueue(c, command), command.target)
  }

  /** The command passes every check of route_command. */
  predicate Accepts(c: Ctl, command: Command) {
    && !c.closing && command.target != LOCAL_TARGET && Refusal(c, command).None?
    && c.boards[command.target].nextSeq <= UINT64_MAX && !TimeoutTooLong(c, command)
  }

  /** The three ways in which a step loses a command: a dispatch stores under a key
      that is pending, a finished write pops a key that is not its own, or a
      response takes out its entry and then raises before settling it. */
  ghost predicate Forfeits(s: Sys, e: Event) {
    var c := s.ctl;
    Enabled(s, e) &&
    match e
    case RouteCommand(command, local) => RouteOverwrites(c, command)
    case WriteReturns(id) => DropsOther(c, id)
    case ResponseArrives(_, r) => ResponseForfeits(c, r)
    case TimerFires(id) =>
      var k := c.timers.asleep[id].boardSeq;
      k in c.pending.m && Overwrites(TimedOut(c, id), c.pending.m[k].board)
    case _ => false
  }

  predicate ResponseForfeits(c: Ctl, r: BoardReply)
    requires Valid(c)
  {
    r.boardSeq in c.pending.m && (r.overflows || Overwrites(Matched(c, r), c.pending.m[r.boardSeq].board))
  }

  /** The command that a step forfeits, if any. */
  ghost function Victim(s: Sys, e: Event): Option<Id>
    requires Enabled(s, e)
  {
    var c := s.ctl;
    match e
    case RouteCommand(command, local) => RouteVictim(c, command)
    case WriteReturns(id) => ResumeVictim(c, id)
    case ResponseArrives(_, r) => ResponseVictim(c, r)
    case TimerFires(id) => TimerVictim(c, id)
    case _ => None
  }

  function RouteVictim(c: Ctl, command: Command): Option<Id> {
    if Accepts(c, command) then DispatchVictim(Enqueue(c, command), command.target) else None
  }

  function ResponseVictim(c: Ctl, r: BoardReply): Option<Id>
    requires Valid(c)
  {
    if r.boardSeq !in c.pending.m then None
    else if r.overflows then Some(c.pending.m[r.boardSeq].id)
    else DispatchVictim(Matched(c, r), c.pending.m[r.boardSeq].board)
  }

  function TimerVictim(c: Ctl, id: Id): Option<Id>
    requires Valid(c) && id in c.timers.asleep
  {
    var k := c.timers.asleep[id].boardSeq;
    if k in c.pending.m then DispatchVictim(TimedOut(c, id), c.pending.m[k].board) else None
  }

  lemma ForfeitsIffVictim(s: Sys, e: Event)
    requires Enabled(s, e)
    ensures Forfeits(s, e) <==> Victim(s, e).Some?
  {
    hide Overwrites, Enqueue, Matched, TimedOut, Accepts, Valid;
  }

  /** What each step guarantees: soundness, that answers stay, and that it takes the
      place of its victim and of nobody else. */
  ghost predicate Preserves(c: Ctl, d: Ctl, victim: Option<Id>) {
    Sound(d) && Final(c, d) && LosesOnly(c, d, victim)
  }

  lemma SettlesPreserve(c: Ctl, d: Ctl)
    requires Settles(c, d)
    ensures Preserves(c, d, None)
  {
    hide Sound, LosesOnly, KeepsAll, Final;
    KeptLosesNone(c, d);
  }

  lemma ThenDispatch(c: Ctl, d: Ctl, b: BoardId)
    requires Settles(c, d) && b in d.boards
    ensures Preserves(c, DispatchNext(d, b), DispatchVictim(d, b))
  {
    hide LedgerOk, Conserved, KeepsAll, LosesOnly, DispatchVictim, DispatchNext;
    DispatchKeeps(d, b);
    KeptLosesNone(c, d);
    VictimKnown(d, b);
    SameAcceptedKept(c, d);
    LosesOnlyChain(c, d, DispatchNext(d, b), DispatchVictim(d, b));
    FinalChain(c, d, DispatchNext(d, b));
  }

  lemma SameAcceptedKept(c: Ctl, d: Ctl)
    requires KeepsAll(c, d)
    ensures d.accepted == c.accepted
  {
  }

  lemma LocalPreserves(c: Ctl, local: Reply)
    requires Sound(c) && Coupled(local.status, local.code)
    ensures Preserves(c, c.(ledger := AnswerNow(c.ledger, local)), None)
  {
    var d := c.(ledger := AnswerNow(c.ledger, local));
    AnswerNowKeeps(c.ledger, c.accepted, local);
    hide Sound, KeepsAll, LosesOnly, Final, LedgerOk, Conserved, Tables;
    LedgerApart(c, d) by { AnswerNowKeeps(c.ledger, c.accepted, local); }
    SettlesPreserve(c, d);
  }

  lemma RefusePreserves(c: Ctl, command: Command, code: ErrorCode)
    requires Sound(c)
    ensures Preserves(c, Refuse(c, command, code), None)
  {
    hide Sound, Settles, Preserves, Refuse;
    RefuseSettles(c, command, code);
    SettlesPreserve(c, Refuse(c, command, code));
  }

  /** The seq was drawn, then the timeout raised; or not even the seq was drawn. */
  lemma RaisedPreserves(c: Ctl, command: Command, local: Reply)
    requires Sound(c) && Valid(c) && !c.closing && command.target != LOCAL_TARGET
    requires Refusal(c, command).None? && !Accepts(c, command)
    ensures Preserves(c, Route(c, command, local).0, None)
  {
    hide Sound, Settles, Preserves, Beside, Route, Accepts, Valid;
    var d := Route(c, command, local).0;
    RaisedBeside(c, command, local);
    BooksOk(c);
    BesideSettles(c, d);
    SettlesPreserve(c, d);
  }

  lemma BooksOk(c: Ctl)
    requires Sound(c)
    ensures LedgerOk(c.ledger, c.accepted) && Valid(c)
  {
  }

  lemma RaisedBeside(c: Ctl, command: Command, local: Reply)
    requires Sound(c) && !c.closing && command.target != LOCAL_TARGET
    requires Refusal(c, command).None? && !Accepts(c, command)
    ensures Beside(c, Route(c, command, local).0) && Route(c, command, local).0.ledger == c.ledger
  {
    hide LedgerOk;
  }

  lemma RoutePreserves(c: Ctl, command: Command, local: Reply)
    requires Sound(c) && Coupled(local.status, local.code)
    ensures Preserves(c, Route(c, command, local).0, RouteVictim(c, command))
  {
    hide Preserves, DispatchNext, Enqueue, Refuse, DispatchVictim, LedgerOk, Tables, Valid;
    BooksOk(c);
    if c.closing { RefusePreserves(c, command, CONTROLLER_SHUTDOWN); }
    else if command.target == LOCAL_TARGET { LocalPreserves(c, local); }
    else if Refusal(c, command).Some? { RefusePreserves(c, command, Refusal(c, command).value); }
    else if !Accepts(c, command) { RaisedPreserves(c, command, local); }
    else { AcceptPreserves(c, command); }
  }

  lemma FinalChain(a: Ctl, b: Ctl, c: Ctl)
    requires Final(a, b) && Final(b, c)
    ensures Final(a, c)
  {
  }

  lemma AcceptPreserves(c: Ctl, command: Command)
    requires Sound(c) && Accepts(c, command)
    ensures var m := Enqueue(c, command);
            Preserves(c, DispatchNext(m, command.target), DispatchVictim(m, command.target))
  {
    hide LosesOnly, LedgerOk, DispatchNext, DispatchVictim;
    var m := Enqueue(c, command);
    EnqueueKeeps(c, command);
    assert Final(c, m);
    DispatchKeeps(m, command.target);
    VictimIsOlder(c, command);
    LosesOnlyChain(c, m, DispatchNext(m, command.target), DispatchVictim(m, command.target));
    FinalChain(c, m, DispatchNext(m, command.target));
  }

  /** The command just queued is nobody's pending entry. */
  lemma VictimIsOlder(c: Ctl, command: Command)
    requires Sound(c) && Accepts(c, command)
    ensures var v := DispatchVictim(Enqueue(c, command), command.target); v.Some? ==> v.value < |c.accepted|
  {
    hide LedgerOk;
    var m := Enqueue(c, command);
    var q, n := m.boards[command.target].fifo, StalePrefix(m.boards[command.target].fifo, m.now);
    if Overwrites(m, command.target) { PendingEntryOk(c, q[n].boardSeq); }
  }

  lemma ResponsePreserves(c: Ctl, r: BoardReply)
    requires Sound(c) && Coupled(r.status, r.code)
    ensures Preserves(c, HandleResponse(c, r), ResponseVictim(c, r))
  {
    hide LosesOnly, LedgerOk, DispatchNext, DispatchVictim, Matched, TakeOut, KeepsAll;
    if r.boardSeq !in c.pending.m {
      UnmatchedSettles(c, r);
      SettlesPreserve(c, HandleResponse(c, r));
    } else if r.overflows {
      TakeOutLoses(c, r.boardSeq);
    } else {
      MatchedSettles(c, r);
      ThenDispatch(c, Matched(c, r), c.pending.m[r.boardSeq].board);
    }
  }

  lemma TimerPreserves(c: Ctl, id: Id)
    requires Sound(c) && id in c.timers.asleep
    ensures Preserves(c, FireTimer(c, id), TimerVictim(c, id))
  {
    hide LosesOnly, LedgerOk, DispatchNext, DispatchVictim, TimedOut, KeepsAll;
    var k := c.timers.asleep[id].boardSeq;
    if k in c.pending.m {
      TimedOutSettles(c, id);
      ThenDispatch(c, TimedOut(c, id), c.pending.m[k].board);
    } else {
      WakeInVain(c, id);
      SettlesPreserve(c, FireTimer(c, id));
    }
  }

  lemma BesidePreserves(c: Ctl, d: Ctl)
    requires Sound(c) && Beside(c, d) && d.ledger == c.ledger
    ensures Preserves(c, d, None)
  {
    BesideSettles(c, d);
    SettlesPreserve(c, d);
  }

  lemma ReassertPreserves(c: Ctl, b: BoardId)
    requires Sound(c) && b in c.boards
    ensures Preserves(c, Reassert(c, b), None)
  {
    hide Sound, Preserves;
    BoardChanges(c, Reassert(c, b), b);
  }

  lemma SchemaPreserves(c: Ctl, b: BoardId, m: Object)
    requires Sound(c) && b in c.boards
    ensures Preserves(c, RegisterAndAssert(c, b, m), None)
  {
    hide Sound, KeepsAll, LosesOnly, Final, RegisterBoard, Reassert;
    var mid := RegisterBoard(c, b, m);
    RegisterSettles(c, b, m);
    ReassertPreserves(mid, b);
    KeptLosesNone(c, mid);
    LosesOnlyChain(c, mid, Reassert(mid, b), None);
    FinalChain(c, mid, Reassert(mid, b));
  }

  lemma BoardChanges(c: Ctl, d: Ctl, b: BoardId)
    requires Sound(c) && b in c.boards && b in d.boards
    requires d == c.(boards := c.boards[b := d.boards[b]], estopTasks := d.estopTasks)
    requires d.boards[b].fifo == c.boards[b].fifo && d.boards[b].nextSeq == c.boards[b].nextSeq
    ensures Preserves(c, d, None)
  {
    BesidePreserves(c, d);
  }

  lemma FlagsPreserve(c: Ctl, d: Ctl)
    requires Sound(c) && d == c.(now := d.now, latched := d.latched, closing := d.closing)
    ensures Preserves(c, d, None)
  {
    BesidePreserves(c, d);
  }

  lemma WritersClosePreserves(c: Ctl)
    requires Sound(c)
    ensures Preserves(c, CloseWriters(c), None)
  {
    BesidePreserves(c, CloseWriters(c));
  }

  predicate OnConnection(e: Event) {
    e.Dial? || e.Link? || e.SchemaArrives? || e.LinkFails? || e.SessionEnds? || e.LivenessExpires? || e.ReportDown?
    || e.SkipReport? || e.StopBoard?
  }

  predicate OnCommand(e: Event) {
    e.RouteCommand? || e.WriteReturns? || e.WriteRaises? || e.ResponseArrives? || e.TimerFires?
  }

  lemma WritePreserves(c: Ctl, id: Id)
    requires Sound(c) && id in c.writing
    ensures Preserves(c, ResumeWrite(c, id), ResumeVictim(c, id))
    ensures Preserves(c, AbortWrite(c, id), None)
  {
    hide ResumeWrite, Tables, LedgerOk, LosesOnly, KeepsAll, ResumeVictim;
    ResumeKeeps(c, id);
    ResumeFrame(c, id);
    AbortKeeps(c, id);
    KeptLosesNone(c, AbortWrite(c, id));
  }

  lemma CommandStep(s: Sys, e: Event)
    requires Sound(s.ctl) && Enabled(s, e) && OnCommand(e)
    ensures Preserves(s.ctl, CtlNext(s, e), Victim(s, e))
  {
    var c := s.ctl;
    match e
    case RouteCommand(command, local) => RoutePreserves(c, command, local);
    case WriteReturns(id) => WritePreserves(c, id);
    case WriteRaises(id) => WritePreserves(c, id);
    case ResponseArrives(_, r) => ResponsePreserves(c, r);
    case TimerFires(id) => TimerPreserves(c, id);
  }

  lemma ConnectionStep(s: Sys, e: Event)
    requires Sound(s.ctl) && Enabled(s, e) && OnConnection(e)
    ensures Preserves(s.ctl, CtlNext(s, e), None)
  {
    var c, d := s.ctl, CtlNext(s, e);
    match e
    case SchemaArrives(b, m) => SchemaPreserves(c, b, m);
    case LivenessExpires(b) =>
      BoardDownSettles(c, b);
      SettlesPreserve(c, d);
    case ReportDown(b) =>
      BoardDownSettles(c, b);
      SettlesPreserve(c, d);
    case Dial(b) => BoardChanges(c, d, b);
    case Link(b) => BoardChanges(c, d, b);
    case LinkFails(b) => BoardChanges(c, d, b);
    case _ => BesidePreserves(c, c);
  }

  lemma FlushStep(s: Sys, e: Event)
    requires Sound(s.ctl) && Enabled(s, e) && (e.EstopTriggered? || e.ShutdownFails?)
    ensures Preserves(s.ctl, CtlNext(s, e), None)
  {
    if e.EstopTriggered? { TriggerSettles(s.ctl); } else { FailRemainingSettles(s.ctl); }
    SettlesPreserve(s.ctl, CtlNext(s, e));
  }

  lemma FlagStep(s: Sys, e: Event)
    requires Sound(s.ctl) && Enabled(s, e) && (e.WritersClose? || e.EstopReset? || e.ShutdownBegins? || e.Tick?)
    ensures Preserves(s.ctl, CtlNext(s, e), None)
  {
    if e.WritersClose? { WritersClosePreserves(s.ctl); } else { FlagsPreserve(s.ctl, CtlNext(s, e)); }
  }

  lemma RunEstopPreserves(c: Ctl, b: BoardId)
    requires Sound(c) && b in c.boards && b in c.estopTasks
    ensures Preserves(c, RunEstopTask(c, b), None)
  {
    hide Sound, Preserves;
    BoardChanges(c, RunEstopTask(c, b), b);
  }

  lemma AckPreserves(c: Ctl, b: BoardId)
    requires Sound(c) && b in c.boards
    ensures Preserves(c, AckEstop(c, b), None)
  {
    BoardChanges(c, AckEstop(c, b), b);
  }

  lemma EstopStep(s: Sys, e: Event)
    requires Sound(s.ctl) && Enabled(s, e) && (e.EstopTaskRuns? || e.EstopAcked?)
    ensures Preserves(s.ctl, CtlNext(s, e), None)
  {
    if e.EstopAcked? { AckPreserves(s.ctl, e.board); } else { RunEstopPreserves(s.ctl, e.board); }
  }

  /** Every step keeps the dispatcher sound and takes the place of its victim and of
      nobody else; it has one if and only if it forfeits. */
  lemma StepPreserves(s: Sys, e: Event)
    requires Sound(s.ctl) && Enabled(s, e)
    ensures Preserves(s.ctl, Next(s, e).ctl, Victim(s, e)) && NoneReturns(s.ctl, Next(s, e).ctl)
    ensures Forfeits(s, e) <==> Victim(s, e).Some?
    ensures Conserved(Next(s, e).ctl) <==> Conserved(s.ctl) && !Forfeits(s, e)
  {
    hide Preserves, CtlNext, Sound, Conserved, NoneReturns;
    StepLoses(s, e);
    ForfeitsIffVictim(s, e);
    PreservesMeans(s.ctl, CtlNext(s, e), Victim(s, e));
  }

  lemma PreservesMeans(c: Ctl, d: Ctl, victim: Option<Id>)
    requires Preserves(c, d, victim)
    ensures NoneReturns(c, d) && (Conserved(d) <==> Conserved(c) && victim.None?)
  {
    hide Sound, LosesOnly, NoneReturns, Conserved;
    LosesOnlyMeans(c, d, victim);
  }

  lemma StepLoses(s: Sys, e: Event)
    requires Sound(s.ctl) && Enabled(s, e)
    ensures Preserves(s.ctl, CtlNext(s, e), Victim(s, e))
  {
    hide Preserves, CtlNext, Sound;
    if OnCommand(e) { CommandStep(s, e); }
    else if OnConnection(e) { ConnectionStep(s, e); }
    else if e.EstopTriggered? || e.ShutdownFails? { FlushStep(s, e); }
    else if e.EstopTaskRuns? || e.EstopAcked? { EstopStep(s, e); }
    else { FlagStep(s, e); }
  }

  /** No step among the first `n` was a forfeiting one. */
  ghost predicate Clean(states: seq<Sys>, events: seq<Event>, n: nat)
    requires n <= |events| < |states|
  {
    forall i :: 0 <= i < n ==> !Forfeits(states[i], events[i])
  }

  /** One of the first `n` steps forfeited this command. */
  ghost predicate Forfeited(states: seq<Sys>, events: seq<Event>, n: nat, id: Id)
    requires n <= |events| < |states|
  {
    exists i :: 0 <= i < n && ForfeitsIt(states[i], events[i], id)
  }

  ghost predicate ForfeitsIt(s: Sys, e: Event, id: Id) { Enabled(s, e) && Victim(s, e) == Some(id) }

  lemma StartIsSound(s: Sys)
    requires Init(s)
    ensures Sound(s.ctl) && Conserved(s.ctl) && s.ctl.accepted == []
  {
    StartHolds(s.ctl.cfg, s.ctl.now);
    assert LedgerOk(s.ctl.ledger, []);
  }

  lemma LostAfter(s: Sys, e: Event, t: Sys)
    requires Sound(s.ctl) && Step(s, e, t)
    ensures Sound(t.ctl) && |s.ctl.accepted| <= |t.ctl.accepted|
    ensures forall id: Id :: id < |t.ctl.accepted| ==>
              (!Placed(t.ctl, id) <==> (id < |s.ctl.accepted| && !Placed(s.ctl, id)) || ForfeitsIt(s, e, id))
    ensures forall id: Id :: ForfeitsIt(s, e, id) ==> id < |s.ctl.accepted|
  {
    hide Sound, Conserved, NoneReturns, Forfeits, Placed, Victim, CtlNext;
    StepPreserves(s, e);
  }

  /** In every run, over any boards, at every point: the dispatcher is sound, and an
      accepted command has lost its place, and with it its answer, if and only if one
      of the steps so far forfeited that very command. */
  lemma {:induction false} LostIffForfeited(states: seq<Sys>, events: seq<Event>, n: nat)
    requires Run(states, events) && n <= |events|
    ensures Sound(states[n].ctl)
    ensures forall id: Id :: id < |states[n].ctl.accepted| ==>
              (!Placed(states[n].ctl, id) <==> Forfeited(states, events, n, id))
    ensures forall id: Id :: Forfeited(states, events, n, id) ==> id < |states[n].ctl.accepted|
  {
    hide Sound, Conserved, Init, Step, ForfeitsIt, Placed;
    if n == 0 {
      StartIsSound(states[0]);
    } else {
      LostIffForfeited(states, events, n - 1);
      AtStep(states, events, n - 1);
      LostAfter(states[n - 1], events[n - 1], states[n]);
      forall id: Id ensures Forfeited(states, events, n, id)
        <==> Forfeited(states, events, n - 1, id) || ForfeitsIt(states[n - 1], events[n - 1], id) {
        ForfeitedSplits(states, events, n, id);
      }
    }
  }

  lemma ForfeitedSplits(states: seq<Sys>, events: seq<Event>, n: nat, id: Id)
    requires 0 < n <= |events| < |states|
    ensures Forfeited(states, events, n, id)
            <==> Forfeited(states, events, n - 1, id) || ForfeitsIt(states[n - 1], events[n - 1], id)
  {
    hide ForfeitsIt;
  }

  /** So no accepted command has been lost if and only if no step so far forfeited. */
  lemma NothingLostIffClean(states: seq<Sys>, events: seq<Event>, n: nat)
    requires Run(states, events) && n <= |events|
    ensures Sound(states[n].ctl)
    ensures Conserved(states[n].ctl) <==> Clean(states, events, n)
  {
    hide Sound, Init, Step, ForfeitsIt, Forfeits, Placed;
    LostIffForfeited(states, events, n);
    forall i: nat | i < n
      ensures Forfeits(states[i], events[i]) <==> exists id: Id :: ForfeitsIt(states[i], events[i], id)
    {
      AtStep(states, events, i);
      SomeVictim(states[i], events[i], states[i + 1]);
    }
    if !Conserved(states[n].ctl) {
      var id: Id :| id < |states[n].ctl.accepted| && !Placed(states[n].ctl, id);
      var i :| 0 <= i < n && ForfeitsIt(states[i], events[i], id);
    }
    if !Clean(states, events, n) {
      var i :| 0 <= i < n && Forfeits(states[i], events[i]);
      var id: Id :| ForfeitsIt(states[i], events[i], id);
      assert Forfeited(states, events, n, id);
    }
  }

  lemma SomeVictim(s: Sys, e: Event, t: Sys)
    requires Step(s, e, t)
    ensures Forfeits(s, e) <==> exists id: Id :: ForfeitsIt(s, e, id)
  {
    hide Forfeits, Victim;
    ForfeitsIffVictim(s, e);
    if Victim(s, e).Some? { assert ForfeitsIt(s, e, Victim(s, e).value); }
  }
}
