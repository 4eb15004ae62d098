/** The dispatcher together with one connection manager per board. The manager
    (board_connection.py) decides which connection steps a board can take. */
module System {
  import opened Basics
  import opened Protocol
  import opened SchemaGate
  import opened Controller

  /** Where a board's connection manager is: between attempts, connecting,
      waiting for the schema, in session, leaving the session, leaving it after
      a liveness fault already reported the board down, or stopped. */
  datatype Phase = Idle | Dialing | Linked | Live | Ending | Downed | Stopped

  datatype Event =
    | RouteCommand(command: Command, local: Reply)
    | WriteReturns(id: Id)
    | WriteRaises(id: Id)
    | ResponseArrives(board: BoardId, reply: BoardReply)
    | TimerFires(id: Id)
    | Dial(board: BoardId)
    | Link(board: BoardId)
    | SchemaArrives(board: BoardId, schema: Object)
    | LinkFails(board: BoardId)
    | SessionEnds(board: BoardId)
    | LivenessExpires(board: BoardId)
    | ReportDown(board: BoardId)
    | SkipReport(board: BoardId)
    | StopBoard(board: BoardId)
    | EstopTriggered
    | EstopTaskRuns(board: BoardId)
    | EstopAcked(board: BoardId)
    | EstopReset(kind: string, target: string, cleared: bool)
    | ShutdownBegins
    | ShutdownFails
    | WritersClose
    | Tick(elapsed: real)

  /** Which step last did what, per board; `endedAt` is a time. */
  datatype History = History(
    step: nat, latchedAt: nat, registeredAt: map<BoardId, nat>, estopSentAt: map<BoardId, nat>,
    estopAckedAt: map<BoardId, nat>, endedAt: map<BoardId, real>)

  /** The callers of route_command. `begins` tells in which write of which command
      the call for an accepted command is suspended; `gone` are the commands whose
      call ended with the error of such a write, so that nobody awaits their future. */
  datatype Callers = Callers(begins: map<Id, Id>, gone: set<Id>)

  datatype Sys = Sys(ctl: Ctl, phase: map<BoardId, Phase>, failed: bool, hist: History, callers: Callers)

  ghost predicate Init(s: Sys) {
    && NoDup(s.ctl.cfg.boards)
    && s.ctl == Start(s.ctl.cfg, s.ctl.now)
    && s.phase == (map b | b in s.ctl.boards :: Idle)
    && !s.failed
    && s.hist == History(0, 0, map[], map[], map[], map[])
    && s.callers == Callers(map[], {})
  }

  /** What the environment may do next. */
  ghost predicate Enabled(s: Sys, e: Event) {
    && Valid(s.ctl) && s.phase.Keys == s.ctl.boards.Keys
    && match e
       case RouteCommand(c, local) => Coupled(local.status, local.code)
       case WriteReturns(id) => id in s.ctl.writing
       case WriteRaises(id) => id in s.ctl.writing
       case ResponseArrives(b, r) => b in s.phase && Coupled(r.status, r.code)
       case TimerFires(id) => id in s.ctl.timers.asleep
       case Dial(b) => b in s.phase && s.phase[b] == Idle
       case Link(b) => b in s.phase && s.phase[b] == Dialing
       case SchemaArrives(b, m) => b in s.phase && s.phase[b] == Linked
       case LinkFails(b) => b in s.phase && s.phase[b] in {Dialing, Linked, Live, Downed}
       case SessionEnds(b) => b in s.phase && s.phase[b] == Live
       case LivenessExpires(b) => b in s.phase && s.phase[b] in {Live, Ending} && s.ctl.boards[b].conn == REGISTERED
       case ReportDown(b) => b in s.phase && s.phase[b] == Ending
       case SkipReport(b) => b in s.phase && s.phase[b] == Downed
       case StopBoard(b) => b in s.phase && s.phase[b] in {Idle, Ending, Downed}
       case EstopTriggered => true
       case EstopTaskRuns(b) => b in s.phase && b in s.ctl.estopTasks
       case EstopAcked(b) => b in s.phase
       case EstopReset(kind, target, cleared) => true
       case ShutdownBegins => !s.ctl.closing
       case ShutdownFails => s.ctl.closing && !s.failed
       case WritersClose => s.failed
       case Tick(d) => d >= 0.0
  }

  /** Send a latched e-stop to a board that is registered. */
  function Reassert(c: Ctl, b: BoardId): Ctl
    requires b in c.boards
  {
    if c.boards[b].conn == REGISTERED && c.latched then SendEstop(c, b) else c
  }

  /** Register, and re-assert a latched e-stop before anything else runs. */
  function RegisterAndAssert(c: Ctl, b: BoardId, m: Object): Ctl
    requires b in c.boards
  {
    Reassert(RegisterBoard(c, b, m), b)
  }

  function CtlNext(s: Sys, e: Event): Ctl
    requires Enabled(s, e)
  {
    var c := s.ctl;
    match e
    case RouteCommand(command, local) => Route(c, command, local).0
    case WriteReturns(id) => ResumeWrite(c, id)
    case WriteRaises(id) => AbortWrite(c, id)
    case ResponseArrives(b, r) => HandleResponse(c, r)
    case TimerFires(id) => FireTimer(c, id)
    case Dial(b) => SetConn(c, b, CONNECTING)
    case Link(b) => SetConn(c, b, CONNECTED)
    case SchemaArrives(b, m) => RegisterAndAssert(c, b, m)
    case LinkFails(b) => SetConn(c, b, FAULTED)
    case SessionEnds(b) => c
    case LivenessExpires(b) => BoardDown(c, b)
    case ReportDown(b) => BoardDown(c, b)
    case SkipReport(b) => c
    case StopBoard(b) => c
    case EstopTriggered => TriggerEstop(c)
    case EstopTaskRuns(b) => RunEstopTask(c, b)
    case EstopAcked(b) => AckEstop(c, b)
    case EstopReset(kind, target, cleared) => ResetEstop(c, kind, target, cleared)
    case ShutdownBegins => BeginShutdown(c)
    case ShutdownFails => FailRemaining(c)
    case WritersClose => CloseWriters(c)
    case Tick(d) => c.(now := c.now + d)
  }

  function PhaseNext(s: Sys, e: Event): map<BoardId, Phase>
    requires Enabled(s, e)
  {
    var p := s.phase;
    match e
    case Dial(b) => p[b := Dialing]
    case Link(b) => p[b := Linked]
    case SchemaArrives(b, m) => p[b := if CheckProtocolVersion(m).Good? then Live else Ending]
    case LinkFails(b) => p[b := if p[b] == Downed then Downed else Ending]
    case SessionEnds(b) => p[b := Ending]
    case LivenessExpires(b) => p[b := Downed]
    case ReportDown(b) => p[b := Idle]
    case SkipReport(b) => p[b := Idle]
    case StopBoard(b) => p[b := Stopped]
    case _ => p
  }

  function HistNext(s: Sys, e: Event): History
    requires Enabled(s, e)
  {
    var h := s.hist.(step := s.hist.step + 1);
    var n := h.step;
    match e
    case SchemaArrives(b, m) =>
      if CheckProtocolVersion(m).Bad? then h.(endedAt := h.endedAt[b := s.ctl.now])
      else h.(registeredAt := h.registeredAt[b := n],
              estopSentAt := if s.ctl.latched then h.estopSentAt[b := n] else h.estopSentAt)
    case LinkFails(b) => h.(endedAt := h.endedAt[b := s.ctl.now])
    case SessionEnds(b) => h.(endedAt := h.endedAt[b := s.ctl.now])
    case EstopTriggered => if s.ctl.latched then h else h.(latchedAt := n)
    case EstopTaskRuns(b) => if s.ctl.boards[b].writer then h.(estopSentAt := h.estopSentAt[b := n]) else h
    case EstopAcked(b) => h.(estopAckedAt := h.estopAckedAt[b := n])
    case _ => h
  }

  /** The call that routes a command begins the write that its dispatch begins, and
      awaits that write before the future. */
  function CallersNext(s: Sys, e: Event): Callers
    requires Enabled(s, e)
  {
    var p := s.callers;
    match e
    case RouteCommand(command, local) =>
      var d, id := CtlNext(s, e), |s.ctl.accepted|;
      if |d.accepted| > id && |d.sent| > |s.ctl.sent| then p.(begins := p.begins[id := d.sent[|s.ctl.sent|].id]) else p
    case WriteReturns(w) => p.(begins := map x | x in p.begins && p.begins[x] != w :: p.begins[x])
    case WriteRaises(w) =>
      Callers(map x | x in p.begins && p.begins[x] != w :: p.begins[x],
              p.gone + set x | x in p.begins && p.begins[x] == w)
    case _ => p
  }

  function Next(s: Sys, e: Event): Sys
    requires Enabled(s, e)
  {
    Sys(CtlNext(s, e), PhaseNext(s, e), s.failed || e.ShutdownFails?, HistNext(s, e), CallersNext(s, e))
  }

  // ------------------------------------------------------------------- runs

  ghost predicate Step(s: Sys, e: Event, t: Sys) { Enabled(s, e) && t == Next(s, e) }

  ghost predicate StepAt(states: seq<Sys>, events: seq<Event>, i: nat) {
    i < |events| && i + 1 < |states| && Step(states[i], events[i], states[i + 1])
  }

  /** A run: `states[i]` takes `events[i]` to `states[i + 1]`. */
  ghost predicate Run(states: seq<Sys>, events: seq<Event>) {
    && |states| == |events| + 1
    && Init(states[0])
    && forall i: nat :: i < |events| ==> StepAt(states, events, i)
  }

  lemma AtStep(states: seq<Sys>, events: seq<Event>, i: nat)
    requires Run(states, events) && i < |events|
    ensures Step(states[i], events[i], states[i + 1])
  {
    assert StepAt(states, events, i);
  }

  function Last(states: seq<Sys>): Sys
    requires states != []
  {
    states[|states| - 1]
  }

  lemma Extend(states: seq<Sys>, events: seq<Event>, e: Event, t: Sys)
    requires Run(states, events) && Step(Last(states), e, t)
    ensures Run(states + [t], events + [e]) && Last(states + [t]) == t
  {
    hide Init, Step;
    var after, more := states + [t], events + [e];
    forall i: nat | i < |more| ensures StepAt(after, more, i) {
      if i < |events| { assert StepAt(states, events, i); }
    }
  }
}
