/** The command dispatcher of controller.py as a state machine. Each function is
    one run of code between two suspension points. Tables are keyed as in the
    source: pending entries, timers and resolved statuses by bare board seq. */
module Controller {
  import opened Basics
  import opened Protocol
  import opened ResolvedCache
  import opened SchemaGate

  type BoardId = string

  /** Identity of an accepted command, that is, of its PendingCommand and future. */
  type Id = nat

  const MAX_COMMAND_TIMEOUT_S: real := 10.0
  const LOCAL_TARGET: string := "controller"

  datatype ConnState = DISCONNECTED | CONNECTING | CONNECTED | REGISTERED | FAULTED

  /** A client command; absent limits take the controller's defaults. */
  datatype Command = Command(
    target: BoardId, clientSeq: nat, source: string, name: string,
    executionTimeout: Option<real>, residencyCap: Option<real>)

  datatype Entry = Entry(
    id: Id, board: BoardId, boardSeq: nat, clientSeq: nat, client: string, name: string,
    enqueuedAt: real, residencyCap: real, executionTimeout: real, writtenAt: Option<real>)

  /** A terminal answer to a client. */
  datatype Reply = Reply(
    clientSeq: nat, target: string, status: Status, code: Option<ErrorCode>,
    boardSeq: Option<nat>, latencyMs: Option<real>)

  /** A command write that has begun, with the circumstances it began in. */
  datatype BoardWrite = BoardWrite(
    id: Id, board: BoardId, boardSeq: nat, age: real, residencyCap: real,
    latched: bool, gated: bool, closing: bool)

  datatype Board = Board(
    conn: ConnState, writer: bool, nextSeq: nat, fifo: seq<Entry>, inFlight: Option<nat>,
    reg: Registration, estopAck: bool)

  datatype Nap = Nap(boardSeq: nat, deadline: real)

  /** `armed` is the table of timeout tasks by board seq; `asleep` are the tasks
      that have neither fired nor been cancelled, named by their command. */
  datatype Timers = Timers(armed: map<nat, Id>, asleep: map<Id, Nap>)

  datatype Counters = Counters(
    ok: nat, error: nat, timeout: nat, commandTimeouts: nat, unmatched: nat, late: nat, duplicate: nat,
    stale: nat, busy: nat, estopRejections: nat, boardDisconnects: nat, versionMismatches: nat)

  /** Everything a terminal answer touches: the futures that are done, the cache
      of resolved seqs, the counters; and two histories, the log of resolutions
      and the number of commands taken in. */
  datatype Ledger = Ledger(
    outcome: map<Id, Reply>, cache: Cache, counters: Counters, log: seq<Resolution>, taken: nat)

  datatype Config = Config(boards: seq<BoardId>, fifoDepth: nat, defaultTimeout: real, defaultCap: real)

  /** The whole dispatcher. `writing` are the writes that are suspended;
      `estopTasks` the e-stop sends scheduled and not yet run; `accepted`, `sent`
      and `stranded` (writes that ended without arming a timer) are histories. */
  datatype Ctl = Ctl(
    cfg: Config, now: real, latched: bool, closing: bool, boards: map<BoardId, Board>,
    pending: Dict<Entry>, timers: Timers, writing: map<Id, Entry>, estopTasks: multiset<BoardId>,
    ledger: Ledger, accepted: seq<Entry>, sent: seq<BoardWrite>, stranded: set<Id>)

  // ---------------------------------------------------------- initial state

  const NEW_BOARD: Board := Board(DISCONNECTED, false, 1, [], None, UNREGISTERED, false)
  const NO_COUNTS: Counters := Counters(0, 0, 0, 0, 0, 0, 0, 0, 0, 0, 0, 0)

  function Start(cfg: Config, now: real): Ctl {
    Ctl(cfg, now, false, false, map b | b in cfg.boards :: NEW_BOARD,
        Dict(map[], []), Timers(map[], map[]), map[], multiset{},
        Ledger(map[], EMPTY, NO_COUNTS, [], 0), [], [], {})
  }

  /** The structural facts the code relies on when it indexes its tables. */
  ghost predicate Valid(s: Ctl) {
    && NoDup(s.cfg.boards)
    && (forall b :: b in s.cfg.boards <==> b in s.boards)
    && s.pending.Valid()
    && (forall k :: k in s.pending.m ==> s.pending.m[k].board in s.boards && s.pending.m[k].boardSeq == k)
    && (forall id :: id in s.writing ==> s.writing[id].board in s.boards && s.writing[id].id == id)
    && (forall b :: b in s.boards ==> forall j :: 0 <= j < |s.boards[b].fifo| ==> s.boards[b].fifo[j].board == b)
  }

  // ------------------------------------------------------- terminal answers

  function ErrorReply(clientSeq: nat, target: string, code: ErrorCode): Reply {
    Reply(clientSeq, target, if code == COMMAND_TIMEOUT then TIMEOUT else ERROR, Some(code), None, None)
  }

  function RelayedReply(e: Entry, r: BoardReply, now: real): Reply {
    var latency := if e.writtenAt.Some? then Some((now - e.writtenAt.value) * 1000.0) else None;
    if r.status == OK then Reply(e.clientSeq, e.client, OK, None, Some(e.boardSeq), latency)
    else Reply(e.clientSeq, e.client, r.status, r.code, None, None)
  }

  function RecordTerminal(c: Counters, r: Reply): Counters {
    match r.status
    case OK => c.(ok := c.ok + 1)
    case ERROR => c.(error := c.error + 1)
    case TIMEOUT =>
      c.(timeout := c.timeout + 1,
         commandTimeouts := c.commandTimeouts + if r.code == Some(COMMAND_TIMEOUT) then 1 else 0)
  }

  /** Remember the seq, count the answer, and set the future unless it is done. */
  function Settle(l: Ledger, e: Entry, r: Reply): Ledger {
    l.(cache := Remember(l.cache, e.boardSeq, r.status),
       log := l.log + [Resolution(e.id, e.boardSeq, r.status)],
       counters := RecordTerminal(l.counters, r),
       outcome := if e.id in l.outcome then l.outcome else l.outcome[e.id := r])
  }

  function ResolveError(l: Ledger, e: Entry, code: ErrorCode): Ledger {
    if e.id in l.outcome then l else Settle(l, e, ErrorReply(e.clientSeq, e.client, code))
  }

  function ResolveAll(l: Ledger, es: seq<Entry>, code: ErrorCode): Ledger
    decreases |es|
  {
    if es == [] then l else ResolveAll(ResolveError(l, es[0], code), es[1..], code)
  }

  /** A command answered at once, without an entry. */
  function AnswerNow(l: Ledger, r: Reply): Ledger {
    l.(counters := RecordTerminal(l.counters, r), taken := l.taken + 1)
  }

  // ----------------------------------------------------------------- timers

  function CancelTimeout(t: Timers, k: nat): Timers {
    if k in t.armed then Timers(t.armed - {k}, t.asleep - {t.armed[k]}) else t
  }

  function CancelAll(t: Timers, ks: seq<nat>): Timers
    decreases |ks|
  {
    if ks == [] then t else CancelAll(CancelTimeout(t, ks[0]), ks[1..])
  }

  // --------------------------------------------------------------- dispatch

  predicate Ready(b: Board) { b.conn == REGISTERED && b.writer }

  predicate Expired(e: Entry, now: real) { now - e.enqueuedAt > e.residencyCap }

  /** How many entries at the head of the queue are past their residency cap. */
  function StalePrefix(q: seq<Entry>, now: real): (n: nat)
    ensures n <= |q|
    ensures forall j :: 0 <= j < n ==> now - q[j].enqueuedAt > q[j].residencyCap
    ensures n < |q| ==> now - q[n].enqueuedAt <= q[n].residencyCap
  {
    if q == [] || !Expired(q[0], now) then 0 else 1 + StalePrefix(q[1..], now)
  }

  /** Absent from the gate table counts as blocked, as an undeclared command does. */
  predicate Gated(b: Board, name: string) { name in b.reg.gates ==> b.reg.gates[name] }

  predicate MayDispatch(s: Ctl, b: BoardId)
    requires b in s.boards
  {
    !s.closing && Ready(s.boards[b]) && s.boards[b].inFlight.None?
  }

  /** Answer the stale prefix of the queue; the rest stays queued. */
  function DropStale(s: Ctl, b: BoardId): Ctl
    requires b in s.boards
  {
    var q := s.boards[b].fifo;
    var n := StalePrefix(q, s.now);
    var settled := ResolveAll(s.ledger, q[..n], COMMAND_TIMEOUT);
    s.(boards := s.boards[b := s.boards[b].(fifo := q[n..])],
       ledger := settled.(counters := settled.counters.(stale := settled.counters.stale + n)))
  }

  /** Take the head of the queue, make it pending and begin its write. */
  function StartWrite(s: Ctl, b: BoardId): Ctl
    requires b in s.boards && s.boards[b].fifo != [] && s.pending.Valid()
  {
    var rt := s.boards[b];
    var e := rt.fifo[0].(writtenAt := Some(s.now));
    var w := BoardWrite(e.id, b, e.boardSeq, s.now - e.enqueuedAt, e.residencyCap,
                        s.latched, Gated(rt, e.name), s.closing);
    s.(boards := s.boards[b := rt.(fifo := rt.fifo[1..], inFlight := Some(e.boardSeq))],
       pending := s.pending.Set(e.boardSeq, e), writing := s.writing[e.id := e], sent := s.sent + [w])
  }

  function DispatchNext(s: Ctl, b: BoardId): Ctl
    requires b in s.boards && s.pending.Valid()
  {
    if !MayDispatch(s, b) then s
    else
      var t := DropStale(s, b);
      if t.boards[b].fifo == [] then t else StartWrite(t, b)
  }

  /** The write of command `id` returned. */
  function ResumeWrite(s: Ctl, id: Id): Ctl
    requires Valid(s) && id in s.writing
  {
    var e := s.writing[id];
    var rt := s.boards[e.board];
    var t := s.(writing := s.writing - {id});
    if id in s.ledger.outcome then
      t.(pending := s.pending.Pop(e.boardSeq),
         boards := if rt.inFlight == Some(e.boardSeq) then s.boards[e.board := rt.(inFlight := None)] else s.boards)
    else if s.closing then t.(stranded := s.stranded + {id})
    else
      var nap := Nap(e.boardSeq, s.now + Max(0.0, e.executionTimeout));
      t.(timers := Timers(s.timers.armed[e.boardSeq := id], s.timers.asleep[id := nap]))
  }

  /** The write of command `id` raised; its coroutine is gone. */
  function AbortWrite(s: Ctl, id: Id): Ctl
    requires id in s.writing
  {
    s.(writing := s.writing - {id}, stranded := s.stranded + {id})
  }

  // ---------------------------------------------------------------- routing

  datatype RouteResult = Answered(reply: Reply) | Accepted(id: Id) | Raised

  /** Which answer, if any, a routed command gets before it is queued. */
  function Refusal(s: Ctl, c: Command): Option<ErrorCode> {
    if c.target !in s.boards then Some(UNKNOWN_TARGET)
    else
      var rt := s.boards[c.target];
      if !Ready(rt) then Some(BOARD_UNAVAILABLE)
      else if c.name !in rt.reg.gates then Some(UNKNOWN_COMMAND)
      else if s.latched && rt.reg.gates[c.name] then Some(ESTOP_ACTIVE)
      else if rt.inFlight.Some? && |rt.fifo| >= s.cfg.fifoDepth then Some(BOARD_BUSY)
      else None
  }

  function Refuse(s: Ctl, c: Command, code: ErrorCode): Ctl {
    var l := AnswerNow(s.ledger, ErrorReply(c.clientSeq, c.source, code));
    s.(ledger := l.(counters := l.counters.(
      busy := l.counters.busy + if code == BOARD_BUSY then 1 else 0,
      estopRejections := l.counters.estopRejections + if code == ESTOP_ACTIVE then 1 else 0)))
  }

  /** Append a fresh entry to the queue of its board. */
  function Enqueue(s: Ctl, c: Command): Ctl
    requires c.target in s.boards
  {
    var rt := s.boards[c.target];
    var e := Entry(|s.accepted|, c.target, rt.nextSeq, c.clientSeq, c.source, c.name, s.now,
                   if c.residencyCap.Some? then c.residencyCap.value else s.cfg.defaultCap,
                   if c.executionTimeout.Some? then c.executionTimeout.value else s.cfg.defaultTimeout, None);
    s.(boards := s.boards[c.target := rt.(nextSeq := rt.nextSeq + 1, fifo := rt.fifo + [e])],
       accepted := s.accepted + [e], ledger := s.ledger.(taken := s.ledger.taken + 1))
  }

  predicate TimeoutTooLong(s: Ctl, c: Command) {
    (if c.executionTimeout.Some? then c.executionTimeout.value else s.cfg.defaultTimeout) > MAX_COMMAND_TIMEOUT_S
  }

  /** `local` is what the controller's own handler answers to its own commands.
      A timeout over the ceiling raises after the board seq has been drawn. */
  function Route(s: Ctl, c: Command, local: Reply): (r: (Ctl, RouteResult))
    requires Valid(s)
  {
    if s.closing then
      (Refuse(s, c, CONTROLLER_SHUTDOWN), Answered(ErrorReply(c.clientSeq, c.source, CONTROLLER_SHUTDOWN)))
    else if c.target == LOCAL_TARGET then
      (s.(ledger := AnswerNow(s.ledger, local)), Answered(local))
    else
      var refusal := Refusal(s, c);
      if refusal.Some? then
        (Refuse(s, c, refusal.value), Answered(ErrorReply(c.clientSeq, c.source, refusal.value)))
      else
        var rt := s.boards[c.target];
        if rt.nextSeq > UINT64_MAX then (s, Raised)
        else if TimeoutTooLong(s, c) then
          (s.(boards := s.boards[c.target := rt.(nextSeq := rt.nextSeq + 1)]), Raised)
        else
          (DispatchNext(Enqueue(s, c), c.target), Accepted(|s.accepted|))
  }

  // -------------------------------------------------------------- resolvers

  /** Free the in-flight slot of the entry's board if it holds the entry's seq. */
  function FreeSlot(s: Ctl, e: Entry): Ctl
    requires e.board in s.boards
  {
    if s.boards[e.board].inFlight == Some(e.boardSeq)
    then s.(boards := s.boards[e.board := s.boards[e.board].(inFlight := None)])
    else s
  }

  function CountUnmatched(c: Counters, cache: Cache, k: nat): Counters {
    var seen := if k in cache.statuses then Some(cache.statuses[k]) else None;
    c.(unmatched := c.unmatched + 1,
       late := c.late + if seen == Some(TIMEOUT) then 1 else 0,
       duplicate := c.duplicate + if seen.Some? && seen != Some(TIMEOUT) then 1 else 0)
  }

  /** Pop the entry pending under `k`, stop its timer, free its slot. */
  function TakeOut(s: Ctl, k: nat): Ctl
    requires Valid(s) && k in s.pending.m
  {
    FreeSlot(s.(pending := s.pending.Pop(k), timers := CancelTimeout(s.timers, k)), s.pending.m[k])
  }

  /** Take out the entry a response names and settle it, up to the next dispatch. */
  function Matched(s: Ctl, r: BoardReply): Ctl
    requires Valid(s) && r.boardSeq in s.pending.m
  {
    var e := s.pending.m[r.boardSeq];
    TakeOut(s, r.boardSeq).(ledger := Settle(s.ledger, e, RelayedReply(e, r, s.now)))
  }

  /** The reported processing time is converted after the entry was taken out and
      before it is settled; when that raises, nothing more happens. */
  function HandleResponse(s: Ctl, r: BoardReply): Ctl
    requires Valid(s)
  {
    if r.boardSeq !in s.pending.m then
      s.(ledger := s.ledger.(counters := CountUnmatched(s.ledger.counters, s.ledger.cache, r.boardSeq)))
    else if r.overflows then TakeOut(s, r.boardSeq)
    else DispatchNext(Matched(s, r), s.pending.m[r.boardSeq].board)
  }

  /** The timeout task of command `id` wakes and finds its seq pending: pop and
      settle whatever entry is there, up to the next dispatch. */
  function TimedOut(s: Ctl, id: Id): Ctl
    requires Valid(s) && id in s.timers.asleep && s.timers.asleep[id].boardSeq in s.pending.m
  {
    var k := s.timers.asleep[id].boardSeq;
    var e := s.pending.m[k];
    var t := FreeSlot(s.(pending := s.pending.Pop(k),
      timers := Timers(s.timers.armed - {k}, s.timers.asleep - {id})), e);
    t.(ledger := ResolveError(s.ledger, e, COMMAND_TIMEOUT))
  }

  function FireTimer(s: Ctl, id: Id): Ctl
    requires Valid(s) && id in s.timers.asleep
  {
    var k := s.timers.asleep[id].boardSeq;
    if k !in s.pending.m then s.(timers := s.timers.(asleep := s.timers.asleep - {id}))
    else DispatchNext(TimedOut(s, id), s.pending.m[k].board)
  }

  function OnBoard(es: seq<Entry>, b: BoardId): (r: seq<Entry>)
    ensures forall e :: e in r <==> e in es && e.board == b
  {
    if es == [] then []
    else
      assert es == [es[0]] + es[1..];
      (if es[0].board == b then [es[0]] else []) + OnBoard(es[1..], b)
  }

  function SeqsOf(es: seq<Entry>): (ks: seq<nat>)
    ensures |ks| == |es|
    ensures forall j :: 0 <= j < |es| ==> ks[j] == es[j].boardSeq
  {
    seq(|es|, j requires 0 <= j < |es| => es[j].boardSeq)
  }

  /** Take these entries out of the pending table and cancel their timers. */
  function Withdraw(s: Ctl, es: seq<Entry>): Ctl
    requires s.pending.Valid()
  {
    s.(pending := s.pending.PopAll(SeqsOf(es)), timers := CancelAll(s.timers, SeqsOf(es)))
  }

  /** Fault the board and fail its pending entries, then its queue. */
  function BoardDown(s: Ctl, b: BoardId): Ctl
    requires Valid(s) && b in s.boards
  {
    var lost := OnBoard(s.pending.Values(), b);
    var t := Withdraw(s, lost);
    var l := s.ledger.(counters := s.ledger.counters.(boardDisconnects := s.ledger.counters.boardDisconnects + 1));
    t.(boards := s.boards[b := s.boards[b].(conn := FAULTED, writer := false, fifo := [], inFlight := None)],
       ledger := ResolveAll(l, lost + s.boards[b].fifo, BOARD_UNAVAILABLE))
  }

  /** The queued entries of the boards from position `i` of the board list on. */
  function QueuedFrom(s: Ctl, i: nat): seq<Entry>
    requires i <= |s.cfg.boards| && forall b :: b in s.cfg.boards ==> b in s.boards
    decreases |s.cfg.boards| - i
  {
    if i == |s.cfg.boards| then [] else s.boards[s.cfg.boards[i]].fifo + QueuedFrom(s, i + 1)
  }

  function Queued(s: Ctl): seq<Entry>
    requires forall b :: b in s.cfg.boards ==> b in s.boards
  {
    QueuedFrom(s, 0)
  }

  function ReadyBoards(s: Ctl): set<BoardId> {
    set b | b in s.boards && Ready(s.boards[b])
  }

  /** Latch, flush every queue, and schedule an e-stop send per ready board. */
  function TriggerEstop(s: Ctl): Ctl
    requires Valid(s)
  {
    if s.latched then s
    else s.(latched := true,
            boards := map b | b in s.boards :: s.boards[b].(fifo := []),
            ledger := ResolveAll(s.ledger, Queued(s), ESTOP_ACTIVE),
            estopTasks := s.estopTasks + multiset(ReadyBoards(s)))
  }

  /** `send_estop_to_board` up to its write. */
  function SendEstop(s: Ctl, b: BoardId): Ctl
    requires b in s.boards
  {
    if s.boards[b].writer then s.(boards := s.boards[b := s.boards[b].(estopAck := false)]) else s
  }

  function RunEstopTask(s: Ctl, b: BoardId): Ctl
    requires b in s.boards && b in s.estopTasks
  {
    SendEstop(s.(estopTasks := s.estopTasks - multiset{b}), b)
  }

  function AckEstop(s: Ctl, b: BoardId): Ctl
    requires b in s.boards
  {
    s.(boards := s.boards[b := s.boards[b].(estopAck := true)])
  }

  /** Why an operator reset is refused, if it is. */
  function ResetRefusal(kind: string, target: string, cleared: bool): Option<ErrorCode> {
    if kind != "estop_reset" then Some(INVALID_TYPE)
    else if target != LOCAL_TARGET then Some(UNKNOWN_TARGET)
    else if !cleared then Some(ESTOP_ACTIVE)
    else None
  }

  function ResetEstop(s: Ctl, kind: string, target: string, cleared: bool): Ctl {
    if ResetRefusal(kind, target, cleared).None? then s.(latched := false) else s
  }

  // --------------------------------------------------- connection, shutdown

  function SetConn(s: Ctl, b: BoardId, c: ConnState): Ctl
    requires b in s.boards
  {
    s.(boards := s.boards[b := s.boards[b].(conn := c)])
  }

  function RegisterBoard(s: Ctl, b: BoardId, schema: Object): Ctl
    requires b in s.boards
  {
    var rt := s.boards[b];
    if CheckProtocolVersion(schema).Bad? then
      s.(boards := s.boards[b := rt.(conn := FAULTED)],
         ledger := s.ledger.(counters := s.ledger.counters.(
           versionMismatches := s.ledger.counters.versionMismatches + 1)))
    else
      s.(boards := s.boards[b := rt.(conn := REGISTERED, writer := true, reg := Register(rt.reg, schema))])
  }

  function BeginShutdown(s: Ctl): Ctl { s.(closing := true) }

  /** After the drain: fail what is pending, then every queue. */
  function FailRemaining(s: Ctl): Ctl
    requires Valid(s)
  {
    var lost := s.pending.Values();
    Withdraw(s, lost).(
      boards := map b | b in s.boards :: s.boards[b].(fifo := [], inFlight := None, conn := DISCONNECTED),
      ledger := ResolveAll(s.ledger, lost + Queued(s), CONTROLLER_SHUTDOWN))
  }

  function CloseWriters(s: Ctl): Ctl {
    s.(boards := map b | b in s.boards :: s.boards[b].(writer := false))
  }
}
