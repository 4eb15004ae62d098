/** Connections, writers, flags and e-stop sends, told from the events of a run. */
module Controls {
  import opened Basics
  import opened Protocol
  import opened SchemaGate
  import opened Controller
  import opened Resolvers
  import opened System
  import opened Loss
  import opened Estop

  /** What can happen to a board: it registers, it loses its writer, an e-stop send to it
      begins, an e-stop ack of it is processed, its session breaks off; or to all of
      them: the e-stop is latched. */
  datatype Kind = Registers | Loses | Sends | Acks | Breaks | Latches

  ghost predicate Happens(s: Sys, e: Event, b: BoardId, kind: Kind) {
    match kind
    case Registers => e.SchemaArrives? && e.board == b && Acceptable(e.schema)
    case Loses => ((e.LivenessExpires? || e.ReportDown?) && e.board == b) || e.WritersClose?
    case Sends =>
      || (e.EstopTaskRuns? && e.board == b && b in s.ctl.boards && s.ctl.boards[b].writer)
      || (s.ctl.latched && e.SchemaArrives? && e.board == b && Acceptable(e.schema))
    case Acks => e.EstopAcked? && e.board == b
    case Breaks =>
      ((e.LinkFails? || e.SessionEnds?) && e.board == b) || (e.SchemaArrives? && e.board == b && !Acceptable(e.schema))
    case Latches => e.EstopTriggered? && !s.ctl.latched
  }

  /** The last of the first `n` steps in which it happened. */
  ghost function LastOf(states: seq<Sys>, events: seq<Event>, n: nat, b: BoardId, kind: Kind): (k: Option<nat>)
    requires n <= |events| < |states|
    ensures k.Some? ==> k.value < n && Happens(states[k.value], events[k.value], b, kind)
    ensures forall j :: 0 <= j < n && Happens(states[j], events[j], b, kind) ==> k.Some? && j <= k.value
  {
    if n == 0 then None
    else if Happens(states[n - 1], events[n - 1], b, kind) then Some(n - 1)
    else LastOf(states, events, n - 1, b, kind)
  }

  /** It happened, and the other did not happen since. */
  predicate Later(k: Option<nat>, other: Option<nat>) { k.Some? && (other.None? || other.value < k.value) }

  /** The connection state after one more event. */
  ghost function ConnNext(e: Event, b: BoardId, conn: ConnState): ConnState {
    match e
    case Dial(x) => if x == b then CONNECTING else conn
    case Link(x) => if x == b then CONNECTED else conn
    case SchemaArrives(x, m) => if x != b then conn else if Acceptable(m) then REGISTERED else FAULTED
    case LinkFails(x) => if x == b then FAULTED else conn
    case LivenessExpires(x) => if x == b then FAULTED else conn
    case ReportDown(x) => if x == b then FAULTED else conn
    case ShutdownFails => DISCONNECTED
    case _ => conn
  }

  /** The connection state the events leave a board in. */
  ghost function ConnOf(events: seq<Event>, n: nat, b: BoardId): ConnState
    requires n <= |events|
  {
    if n == 0 then DISCONNECTED else ConnNext(events[n - 1], b, ConnOf(events, n - 1, b))
  }

  /** What one step does to a board's connection, writer and ack flag, to its scheduled
      e-stop sends, and to the shutdown flag. */
  ghost predicate Moved(s: Sys, e: Event, d: Ctl, b: BoardId) {
    var c := s.ctl;
    && b in c.boards && b in d.boards
    && d.boards[b].conn == ConnNext(e, b, c.boards[b].conn)
    && d.boards[b].writer == (Happens(s, e, b, Registers) || (c.boards[b].writer && !Happens(s, e, b, Loses)))
    && d.boards[b].estopAck == (Happens(s, e, b, Acks) || (c.boards[b].estopAck && !Happens(s, e, b, Sends)))
    && d.estopTasks[b] + (if e == EstopTaskRuns(b) then 1 else 0)
       == c.estopTasks[b] + (if Schedules(c, e, b) then 1 else 0)
    && (d.closing <==> c.closing || e.ShutdownBegins?)
  }

  /** A trigger that latches schedules one send to each board that is up. */
  predicate Schedules(c: Ctl, e: Event, b: BoardId) {
    e.EstopTriggered? && !c.latched && b in c.boards && c.boards[b].conn == REGISTERED && c.boards[b].writer
  }

  lemma CommandMoved(s: Sys, e: Event, b: BoardId)
    requires Enabled(s, e) && OnCommand(e) && b in s.ctl.boards
    ensures Moved(s, e, CtlNext(s, e), b)
  {
    hide CtlNext, Valid;
    CommandUntouched(s, e);
  }

  lemma SchemaMoved(s: Sys, e: Event, b: BoardId)
    requires Enabled(s, e) && e.SchemaArrives? && b in s.ctl.boards
    ensures Moved(s, e, CtlNext(s, e), b)
  {
    hide Valid, Acceptable, CheckProtocolVersion, Register;
    RegistersIff(e.schema);
  }

  lemma DownMoved(s: Sys, e: Event, b: BoardId)
    requires Enabled(s, e) && (e.LivenessExpires? || e.ReportDown?) && b in s.ctl.boards
    ensures Moved(s, e, CtlNext(s, e), b)
  {
    hide Valid, BoardDown;
    DownLeaves(s.ctl, e.board);
  }

  lemma DownLeaves(c: Ctl, b: BoardId)
    requires Valid(c) && b in c.boards
    ensures var d := BoardDown(c, b);
            && d == c.(boards := d.boards, pending := d.pending, timers := d.timers, ledger := d.ledger)
            && d.boards == c.boards[b := c.boards[b].(conn := FAULTED, writer := false, fifo := [], inFlight := None)]
  {
    hide ResolveAll, Dict.Values, Dict.PopAll, SeqsOf, CancelAll, OnBoard;
  }

  lemma LinkMoved(s: Sys, e: Event, b: BoardId)
    requires Enabled(s, e) && OnConnection(e) && b in s.ctl.boards
    requires !e.SchemaArrives? && !e.LivenessExpires? && !e.ReportDown?
    ensures Moved(s, e, CtlNext(s, e), b)
  {
    hide Valid;
  }

  lemma TriggerLeaves(c: Ctl)
    requires Valid(c) && !c.latched
    ensures var d := TriggerEstop(c);
            && d == c.(latched := true, boards := d.boards, ledger := d.ledger, estopTasks := d.estopTasks)
            && d.boards.Keys == c.boards.Keys && (forall b :: b in c.boards ==> d.boards[b] == c.boards[b].(fifo := []))
            && forall b :: d.estopTasks[b] == c.estopTasks[b] + if Schedules(c, EstopTriggered, b) then 1 else 0
  {
    hide ResolveAll, Queued, Valid;
  }

  lemma FailLeaves(c: Ctl)
    requires Valid(c)
    ensures var d := FailRemaining(c);
            && d == c.(boards := d.boards, pending := d.pending, timers := d.timers, ledger := d.ledger)
            && d.boards.Keys == c.boards.Keys
            && forall b :: b in c.boards ==>
                 d.boards[b] == c.boards[b].(fifo := [], inFlight := None, conn := DISCONNECTED)
  {
    hide ResolveAll, Queued, Dict.Values, Dict.PopAll, SeqsOf, CancelAll;
  }

  lemma TriggerMoved(s: Sys, e: Event, b: BoardId)
    requires Enabled(s, e) && e.EstopTriggered? && b in s.ctl.boards
    ensures Moved(s, e, CtlNext(s, e), b)
  {
    hide Valid, TriggerEstop;
    if s.ctl.latched { NoTrigger(s.ctl); } else { TriggerLeaves(s.ctl); }
  }

  lemma FailMoved(s: Sys, e: Event, b: BoardId)
    requires Enabled(s, e) && e.ShutdownFails? && b in s.ctl.boards
    ensures Moved(s, e, CtlNext(s, e), b)
  {
    hide Valid, FailRemaining;
    FailLeaves(s.ctl);
  }

  lemma TaskMoved(s: Sys, e: Event, b: BoardId)
    requires Enabled(s, e) && e.EstopTaskRuns? && b in s.ctl.boards
    ensures Moved(s, e, CtlNext(s, e), b)
  {
    hide Valid, RunEstopTask;
    TaskLeaves(s.ctl, e.board);
  }

  lemma TaskLeaves(c: Ctl, b: BoardId)
    requires b in c.boards && b in c.estopTasks
    ensures var d := RunEstopTask(c, b);
            && d == c.(boards := d.boards, estopTasks := c.estopTasks - multiset{b})
            && d.boards == if c.boards[b].writer then c.boards[b := c.boards[b].(estopAck := false)] else c.boards
  {
  }

  lemma AckMoved(s: Sys, e: Event, b: BoardId)
    requires Enabled(s, e) && e.EstopAcked? && b in s.ctl.boards
    ensures Moved(s, e, CtlNext(s, e), b)
  {
    hide Valid;
  }

  lemma FlagMoved(s: Sys, e: Event, b: BoardId)
    requires Enabled(s, e) && b in s.ctl.boards
    requires e.EstopReset? || e.ShutdownBegins? || e.WritersClose? || e.Tick?
    ensures Moved(s, e, CtlNext(s, e), b)
  {
    hide Valid;
  }

  lemma StepMoved(s: Sys, e: Event, b: BoardId)
    requires Enabled(s, e) && b in s.ctl.boards
    ensures Moved(s, e, CtlNext(s, e), b)
  {
    hide CtlNext, Moved, Enabled;
    if OnCommand(e) { CommandMoved(s, e, b); }
    else if e.SchemaArrives? { SchemaMoved(s, e, b); }
    else if e.LivenessExpires? || e.ReportDown? { DownMoved(s, e, b); }
    else if OnConnection(e) { LinkMoved(s, e, b); }
    else if e.EstopTriggered? { TriggerMoved(s, e, b); }
    else if e.ShutdownFails? { FailMoved(s, e, b); }
    else if e.EstopTaskRuns? { TaskMoved(s, e, b); }
    else if e.EstopAcked? { AckMoved(s, e, b); }
    else { FlagMoved(s, e, b); }
  }

  // ------------------------------------------------------------------- runs

  /** How often a send to this board was scheduled by a trigger. */
  ghost function Scheduled(states: seq<Sys>, events: seq<Event>, n: nat, b: BoardId): nat
    requires n <= |events| < |states|
  {
    if n == 0 then 0
    else Scheduled(states, events, n - 1, b) + if Schedules(states[n - 1].ctl, events[n - 1], b) then 1 else 0
  }

  /** How often a scheduled send to this board has run. */
  function Ran(events: seq<Event>, n: nat, b: BoardId): nat
    requires n <= |events|
  {
    if n == 0 then 0 else Ran(events, n - 1, b) + if events[n - 1] == EstopTaskRuns(b) then 1 else 0
  }

  predicate ShutdownBegan(events: seq<Event>, n: nat)
    requires n <= |events|
  {
    exists j :: 0 <= j < n && events[j].ShutdownBegins?
  }

  ghost predicate Told(states: seq<Sys>, events: seq<Event>, n: nat, b: BoardId)
    requires n <= |events| < |states|
  {
    var c := states[n].ctl;
    && b in c.boards
    && c.boards[b].conn == ConnOf(events, n, b)
    && (c.boards[b].writer
        <==> Later(LastOf(states, events, n, b, Registers), LastOf(states, events, n, b, Loses)))
    && (c.boards[b].estopAck <==> Later(LastOf(states, events, n, b, Acks), LastOf(states, events, n, b, Sends)))
    && c.estopTasks[b] + Ran(events, n, b) == Scheduled(states, events, n, b)
    && (c.closing <==> ShutdownBegan(events, n))
  }

  /** In every run, for every expected board: its connection state is the one the
      connection events leave it in; it has a writer exactly if it registered and neither
      went down nor had the writers closed since; its ack flag is set exactly if an ack
      was processed and no send began since; the sends scheduled by triggers are those
      that have run and those still to run; and shutdown has begun exactly if it was
      begun. */
  lemma {:induction false} ControlsFollowEvents(states: seq<Sys>, events: seq<Event>, n: nat, b: BoardId)
    requires Run(states, events) && n <= |events| && b in states[0].ctl.boards
    ensures b in states[n].ctl.boards && Told(states, events, n, b)
  {
    hide Init, Enabled, CtlNext, Happens, Schedules, ConnNext;
    if n == 0 {
      StartTold(states[0], b);
    } else {
      ControlsFollowEvents(states, events, n - 1, b);
      AtStep(states, events, n - 1);
      StepMoved(states[n - 1], events[n - 1], b);
      Apart(states[n - 1], events[n - 1], b);
    }
  }

  lemma StartTold(s: Sys, b: BoardId)
    requires Init(s) && b in s.ctl.boards
    ensures s.ctl.boards[b].conn == DISCONNECTED && !s.ctl.boards[b].writer && !s.ctl.boards[b].estopAck
    ensures s.ctl.estopTasks[b] == 0 && !s.ctl.closing
  {
  }

  lemma Apart(s: Sys, e: Event, b: BoardId)
    ensures !(Happens(s, e, b, Registers) && Happens(s, e, b, Loses))
    ensures !(Happens(s, e, b, Acks) && Happens(s, e, b, Sends))
  {
  }

  // ---------------------------------------------------------- the histories

  /** The step counted in a history, or none. */
  predicate Marks(at: map<BoardId, nat>, b: BoardId, k: Option<nat>) {
    (b in at <==> k.Some?) && (k.Some? ==> at[b] == k.value + 1)
  }

  /** The histories name the steps their names promise. */
  ghost predicate HistoryTold(states: seq<Sys>, events: seq<Event>, n: nat, b: BoardId)
    requires n <= |events| < |states|
  {
    var h, broke := states[n].hist, LastOf(states, events, n, b, Breaks);
    && h.step == n
    && Marks(h.registeredAt, b, LastOf(states, events, n, b, Registers))
    && Marks(h.estopSentAt, b, LastOf(states, events, n, b, Sends))
    && Marks(h.estopAckedAt, b, LastOf(states, events, n, b, Acks))
    && (b in h.endedAt <==> broke.Some?) && (broke.Some? ==> h.endedAt[b] == states[broke.value].ctl.now)
    && var latch := LastOf(states, events, n, b, Latches); h.latchedAt == if latch.Some? then latch.value + 1 else 0
  }

  lemma {:induction false} HistoriesAreTrue(states: seq<Sys>, events: seq<Event>, n: nat, b: BoardId)
    requires Run(states, events) && n <= |events|
    ensures HistoryTold(states, events, n, b)
  {
    hide Init, Step, StepAt, HistoryTold, Records;
    if n == 0 {
      StartUntold(states[0]);
      NothingTold(states, events, b);
    } else {
      HistoriesAreTrue(states, events, n - 1, b);
      AtStep(states, events, n - 1);
      HistoryAfter(states[n - 1], events[n - 1], states[n], b);
      ToldNext(states, events, n - 1, b);
    }
  }

  lemma NothingTold(states: seq<Sys>, events: seq<Event>, b: BoardId)
    requires |events| < |states| && states[0].hist == History(0, 0, map[], map[], map[], map[])
    ensures HistoryTold(states, events, 0, b)
  {
  }

  lemma ToldNext(states: seq<Sys>, events: seq<Event>, n: nat, b: BoardId)
    requires n < |events| < |states| && HistoryTold(states, events, n, b)
    requires Records(states[n], events[n], states[n + 1].hist, b)
    ensures HistoryTold(states, events, n + 1, b)
  {
    hide Happens;
  }

  lemma StartUntold(s: Sys)
    requires Init(s)
    ensures s.hist == History(0, 0, map[], map[], map[], map[])
  {
  }

  lemma HistoryAfter(s: Sys, e: Event, t: Sys, b: BoardId)
    requires Step(s, e, t)
    ensures Records(s, e, t.hist, b)
  {
    hide Enabled, CtlNext, HistNext, Records;
    HistoryStep(s, e, b);
  }

  /** What one step writes into the histories. */
  ghost predicate Records(s: Sys, e: Event, g: History, b: BoardId) {
    var h := s.hist;
    && g.step == h.step + 1
    && g.latchedAt == (if Happens(s, e, b, Latches) then g.step else h.latchedAt)
    && Marked(h.registeredAt, g.registeredAt, b, Happens(s, e, b, Registers), g.step)
    && Marked(h.estopSentAt, g.estopSentAt, b, Happens(s, e, b, Sends), g.step)
    && Marked(h.estopAckedAt, g.estopAckedAt, b, Happens(s, e, b, Acks), g.step)
    && Marked(h.endedAt, g.endedAt, b, Happens(s, e, b, Breaks), s.ctl.now)
  }

  lemma HistoryStep(s: Sys, e: Event, b: BoardId)
    requires Enabled(s, e)
    ensures Records(s, e, HistNext(s, e), b)
  {
    hide Enabled, Records, HistNext;
    if e.SchemaArrives? { SchemaHistory(s, e, b); } else { OtherHistory(s, e, b); }
  }

  lemma SchemaHistory(s: Sys, e: Event, b: BoardId)
    requires Enabled(s, e) && e.SchemaArrives?
    ensures Records(s, e, HistNext(s, e), b)
  {
    hide Enabled, Valid, Acceptable, CheckProtocolVersion;
    RegistersIff(e.schema);
  }

  lemma OtherHistory(s: Sys, e: Event, b: BoardId)
    requires Enabled(s, e) && !e.SchemaArrives?
    ensures Records(s, e, HistNext(s, e), b)
  {
    hide Valid;
  }

  predicate Marked<T(==)>(before: map<BoardId, T>, after: map<BoardId, T>, b: BoardId, happens: bool, v: T) {
    if happens then b in after && after[b] == v
    else (b in after <==> b in before) && (b in after ==> after[b] == before[b])
  }

  /** In every run, shutdown or not: while the latch is set, a registered board that has a
      writer has a send still scheduled, or the last send to it began no earlier than the
      latching trigger and than its own registration; its ack flag means an ack
      processed after that send. */
  lemma EveryBoardIsStopped(states: seq<Sys>, events: seq<Event>, n: nat, b: BoardId)
    requires Run(states, events) && n <= |events| && b in states[0].ctl.boards && b in states[n].ctl.boards
    requires var board := states[n].ctl.boards[b];
             states[n].ctl.latched && board.conn == REGISTERED && board.writer
    ensures var sent, latch := LastOf(states, events, n, b, Sends), LastOf(states, events, n, b, Latches);
            var registered, acked := LastOf(states, events, n, b, Registers), LastOf(states, events, n, b, Acks);
            && latch.Some? && registered.Some?
            && (states[n].ctl.estopTasks[b] > 0
                || (sent.Some? && sent.value >= latch.value && sent.value >= registered.value))
            && (states[n].ctl.boards[b].estopAck ==> acked.Some? && (sent.Some? ==> acked.value > sent.value))
  {
    hide Init, StepAt, Happens;
    EstopReachesEveryBoard(states, events, n, b);
    ControlsFollowEvents(states, events, n, b);
    HistoriesAreTrue(states, events, n, b);
    LatchedLately(states, events, n, b);
  }

  lemma {:induction false} LatchedLately(states: seq<Sys>, events: seq<Event>, n: nat, b: BoardId)
    requires Run(states, events) && n <= |events| && states[n].ctl.latched
    ensures LastOf(states, events, n, b, Latches).Some?
  {
    hide Init, Enabled, CtlNext;
    if n == 0 {
      StartOpen(states[0]);
    } else {
      AtStep(states, events, n - 1);
      if states[n - 1].ctl.latched { LatchedLately(states, events, n - 1, b); }
      else { OpenStep(states[n - 1], events[n - 1]); }
    }
  }
}
