/** The dispatcher in the source's own form: an object whose methods update its
    tables in place. Each method is one run of code between two suspension points
    and takes `State()` exactly where the specification in module Controller does. */
module ControllerCore {
  import opened Basics
  import opened Protocol
  import RC = ResolvedCache
  import opened SchemaGate
  import Spec = Controller
  import opened Types = Controller
  import opened Steps

  class ControllerCore {
    const cfg: Config
    var now: real
    var estopActive: bool
    var shuttingDown: bool
    var boards: map<BoardId, Board>
    var pending: Dict<Entry>
    var timeoutTasks: map<nat, Id>
    var asleep: map<Id, Nap>
    var estopTasks: multiset<BoardId>
    var writing: map<Id, Entry>
    var futures: map<Id, Reply>
    var resolvedStatuses: map<nat, Status>
    var resolvedOrder: seq<nat>
    var counters: Counters
    /** Every command taken in so far; its length is the identity of the next. */
    var accepted: seq<Entry>
    ghost var log: seq<RC.Resolution>
    ghost var taken: nat
    ghost var sent: seq<BoardWrite>
    ghost var stranded: set<Id>

    ghost function Books(): Ledger
      reads this
    {
      Ledger(futures, RC.Cache(resolvedStatuses, resolvedOrder), counters, log, taken)
    }

    ghost function State(): Ctl
      reads this
    {
      Ctl(cfg, now, estopActive, shuttingDown, boards, pending, Timers(timeoutTasks, asleep), writing, estopTasks,
          Books(), accepted, sent, stranded)
    }

    constructor (config: Config, clock: real)
      ensures State() == Start(config, clock)
    {
      cfg := config;
      now := clock;
      estopActive, shuttingDown := false, false;
      boards := map b | b in config.boards :: NEW_BOARD;
      pending := Dict(map[], []);
      timeoutTasks, asleep, estopTasks, writing := map[], map[], multiset{}, map[];
      futures, resolvedStatuses, resolvedOrder, counters := map[], map[], [], NO_COUNTS;
      accepted, log, taken, sent, stranded := [], [], 0, [], {};
    }

    // ----------------------------------------------------- terminal answers

    method RememberTerminalBoardSeq(k: nat, st: Status)
      modifies this`resolvedStatuses, this`resolvedOrder
      ensures RC.Cache(resolvedStatuses, resolvedOrder)
              == RC.Remember(RC.Cache(old(resolvedStatuses), old(resolvedOrder)), k, st)
    {
      if |resolvedOrder| == RC.WINDOW {
        var oldest := resolvedOrder[0];
        resolvedStatuses := resolvedStatuses - {oldest};
        resolvedOrder := resolvedOrder[1..];
      }
      resolvedOrder := resolvedOrder + [k];
      resolvedStatuses := resolvedStatuses[k := st];
    }

    method RecordTerminalResponse(r: Reply)
      modifies this`counters
      ensures counters == RecordTerminal(old(counters), r)
    {
      if r.status == OK {
        counters := counters.(ok := counters.ok + 1);
      } else if r.status == ERROR {
        counters := counters.(error := counters.error + 1);
      } else {
        counters := counters.(timeout := counters.timeout + 1);
        if r.code == Some(COMMAND_TIMEOUT) { counters := counters.(commandTimeouts := counters.commandTimeouts + 1); }
      }
    }

    /** Remember the seq, count the answer, set the future if nothing has. */
    method SettleEntry(e: Entry, r: Reply)
      modifies this`resolvedStatuses, this`resolvedOrder, this`counters, this`futures, this`log
      ensures Books() == Settle(old(Books()), e, r)
      ensures State() == old(State()).(ledger := Books())
    {
      hide RC.Remember, RecordTerminal;
      RememberTerminalBoardSeq(e.boardSeq, r.status);
      RecordTerminalResponse(r);
      SetResult(e, r);
    }

    method SetResult(e: Entry, r: Reply)
      modifies this`futures, this`log
      ensures futures == if e.id in old(futures) then old(futures) else old(futures)[e.id := r]
      ensures log == old(log) + [RC.Resolution(e.id, e.boardSeq, r.status)]
    {
      log := log + [RC.Resolution(e.id, e.boardSeq, r.status)];
      if e.id !in futures { futures := futures[e.id := r]; }
    }

    method ResolveEntryError(e: Entry, code: ErrorCode)
      modifies this`resolvedStatuses, this`resolvedOrder, this`counters, this`futures, this`log
      ensures Books() == ResolveError(old(Books()), e, code)
      ensures State() == old(State()).(ledger := Books())
    {
      if e.id in futures { return; }
      SettleEntry(e, ErrorReply(e.clientSeq, e.client, code));
    }

    /** `while fifo: resolve(fifo.popleft())` for one board. */
    method FlushQueue(b: BoardId, code: ErrorCode, ghost rest: seq<Entry>)
      requires b in boards
      modifies this`boards, this`resolvedStatuses, this`resolvedOrder, this`counters, this`futures, this`log
      ensures boards == old(boards)[b := old(boards)[b].(fifo := [])]
      ensures ResolveAll(Books(), rest, code) == ResolveAll(old(Books()), old(boards)[b].fifo + rest, code)
      ensures taken == old(taken)
    {
      hide ResolveError, ResolveAll, State;
      ghost var was := boards;
      while boards[b].fifo != []
        invariant boards.Keys == was.Keys && boards[b] == was[b].(fifo := boards[b].fifo)
        invariant forall x :: x in was && x != b ==> boards[x] == was[x]
        invariant ResolveAll(Books(), boards[b].fifo + rest, code) == ResolveAll(old(Books()), was[b].fifo + rest, code)
        decreases |boards[b].fifo|
      {
        FirstResolved(Books(), boards[b].fifo, rest, code);
        var entry := boards[b].fifo[0];
        boards := boards[b := boards[b].(fifo := boards[b].fifo[1..])];
        ResolveEntryError(entry, code);
      }
      assert [] + rest == rest;
      assert boards == was[b := was[b].(fifo := [])];
    }

    // -------------------------------------------------------------- dispatch

    /** The head of the queue is past its residency cap. */
    method AnswerStaleHead(b: BoardId)
      requires b in boards && boards[b].fifo != []
      modifies this
      ensures State() == WithoutStaleHead(old(State()), b)
    {
      hide ResolveError;
      var entry := boards[b].fifo[0];
      boards := boards[b := boards[b].(fifo := boards[b].fifo[1..])];
      counters := counters.(stale := counters.stale + 1);
      ResolveEntryError(entry, COMMAND_TIMEOUT);
    }

    /** The head of the queue goes to the board, up to the write. */
    method BeginWrite(b: BoardId)
      requires b in boards && boards[b].fifo != [] && pending.Valid()
      modifies this
      ensures State() == StartWrite(old(State()), b)
    {
      var entry := boards[b].fifo[0];
      sent := sent + [BoardWrite(entry.id, b, entry.boardSeq, now - entry.enqueuedAt, entry.residencyCap,
                                 estopActive, Gated(boards[b], entry.name), shuttingDown)];
      boards := boards[b := boards[b].(fifo := boards[b].fifo[1..], inFlight := Some(entry.boardSeq))];
      entry := entry.(writtenAt := Some(now));
      pending := pending.Set(entry.boardSeq, entry);
      writing := writing[entry.id := entry];
    }

    method DispatchNext(b: BoardId)
      requires b in boards && pending.Valid()
      modifies this
      ensures State() == Spec.DispatchNext(old(State()), b)
    {
      if shuttingDown || !boards[b].writer || boards[b].conn != REGISTERED || boards[b].inFlight.Some? { return; }
      while boards[b].fifo != []
        invariant b in boards && pending.Valid() && MayDispatch(State(), b)
        invariant Spec.DispatchNext(State(), b) == Spec.DispatchNext(old(State()), b)
        decreases |boards[b].fifo|
      {
        hide Spec.DispatchNext, StartWrite;
        ghost var s := State();
        if Expired(boards[b].fifo[0], now) {
          StaleStep(s, b);
          AnswerStaleHead(b);
        } else {
          LiveStep(s, b);
          BeginWrite(b);
          return;
        }
      }
      EmptyStep(State(), b);
    }

    // ------------------------------------------------- the writes that end

    method ResumeWrite(id: Id)
      requires Valid(State()) && id in writing
      modifies this
      ensures State() == Spec.ResumeWrite(old(State()), id)
    {
      WritingBoard(State(), id);
      hide Valid, Dict.Pop;
      var entry := writing[id];
      writing := writing - {id};
      if id in futures {
        Forget(entry);
      } else if shuttingDown {
        stranded := stranded + {id};
      } else {
        timeoutTasks := timeoutTasks[entry.boardSeq := id];
        asleep := asleep[id := Nap(entry.boardSeq, now + Max(0.0, entry.executionTimeout))];
      }
    }

    /** The entry was answered while its write was suspended. */
    method Forget(e: Entry)
      requires e.board in boards && pending.Valid()
      modifies this`pending, this`boards
      ensures State() == old(State()).(pending := old(pending).Pop(e.boardSeq), boards := Freed(old(boards), e))
    {
      pending := pending.Pop(e.boardSeq);
      if boards[e.board].inFlight == Some(e.boardSeq) {
        boards := boards[e.board := boards[e.board].(inFlight := None)];
      }
    }

    /** The write raised, and with it the coroutine that waited for it. */
    method AbortWrite(id: Id)
      requires id in writing
      modifies this
      ensures State() == Spec.AbortWrite(old(State()), id)
    {
      writing := writing - {id};
      stranded := stranded + {id};
    }

    // --------------------------------------------------------------- routing

    method RouteCommand(c: Command, local: Reply) returns (r: RouteResult)
      requires Valid(State())
      modifies this
      ensures (State(), r) == Spec.Route(old(State()), c, local)
    {
      if shuttingDown {
        r := Reject(c, CONTROLLER_SHUTDOWN);
        return;
      }
      if c.target == LOCAL_TARGET {
        RecordTerminalResponse(local);
        taken := taken + 1;
        return Answered(local);
      }
      if c.target !in boards {
        r := Reject(c, UNKNOWN_TARGET);
        return;
      }
      var runtime := boards[c.target];
      if !runtime.writer || runtime.conn != REGISTERED {
        r := Reject(c, BOARD_UNAVAILABLE);
        return;
      }
      if c.name !in runtime.reg.gates {
        r := Reject(c, UNKNOWN_COMMAND);
        return;
      }
      if estopActive && runtime.reg.gates[c.name] {
        r := Reject(c, ESTOP_ACTIVE);
        return;
      }
      if runtime.inFlight.Some? && |runtime.fifo| >= cfg.fifoDepth {
        r := Reject(c, BOARD_BUSY);
        return;
      }
      if runtime.nextSeq > UINT64_MAX { return Raised; }
      var timeout := if c.executionTimeout.Some? then c.executionTimeout.value else cfg.defaultTimeout;
      if timeout > MAX_COMMAND_TIMEOUT_S {
        boards := boards[c.target := runtime.(nextSeq := runtime.nextSeq + 1)];
        return Raised;
      }
      ghost var before := State();
      r := Accepted(|accepted|);
      Append(c);
      DispatchNext(c.target);
      assert Spec.Route(before, c, local) == (Spec.DispatchNext(Enqueue(before, c), c.target), r)
        by { hide Enqueue, Spec.DispatchNext; }
    }

    method Reject(c: Command, code: ErrorCode) returns (r: RouteResult)
      modifies this
      ensures State() == Refuse(old(State()), c, code)
      ensures r == Answered(ErrorReply(c.clientSeq, c.source, code))
    {
      hide ErrorReply, RecordTerminal;
      var reply := ErrorReply(c.clientSeq, c.source, code);
      RefusalsCommute(counters, reply, code);
      if code == ESTOP_ACTIVE { counters := counters.(estopRejections := counters.estopRejections + 1); }
      if code == BOARD_BUSY { counters := counters.(busy := counters.busy + 1); }
      RecordTerminalResponse(reply);
      taken := taken + 1;
      r := Answered(reply);
    }

    /** Draw a board seq and queue the command. */
    method Append(c: Command)
      requires c.target in boards && pending.Valid()
      modifies this
      ensures State() == Enqueue(old(State()), c) && c.target in boards && pending.Valid()
    {
      var runtime := boards[c.target];
      var entry := Entry(|accepted|, c.target, runtime.nextSeq, c.clientSeq, c.source, c.name, now,
                         if c.residencyCap.Some? then c.residencyCap.value else cfg.defaultCap,
                         if c.executionTimeout.Some? then c.executionTimeout.value else cfg.defaultTimeout, None);
      boards := boards[c.target := runtime.(nextSeq := runtime.nextSeq + 1, fifo := runtime.fifo + [entry])];
      accepted := accepted + [entry];
      taken := taken + 1;
    }

    // ------------------------------------------------------------- resolvers

    method CancelTimeoutTask(k: nat)
      modifies this`timeoutTasks, this`asleep
      ensures Timers(timeoutTasks, asleep) == CancelTimeout(Timers(old(timeoutTasks), old(asleep)), k)
      ensures State() == old(State()).(timers := CancelTimeout(Timers(old(timeoutTasks), old(asleep)), k))
    {
      if k in timeoutTasks {
        asleep := asleep - {timeoutTasks[k]};
        timeoutTasks := timeoutTasks - {k};
      }
    }

    method HandleBoardResponse(r: BoardReply)
      requires Valid(State())
      modifies this
      ensures State() == HandleResponse(old(State()), r)
    {
      if r.boardSeq !in pending.m {
        counters := counters.(unmatched := counters.unmatched + 1);
        if r.boardSeq in resolvedStatuses {
          if resolvedStatuses[r.boardSeq] == TIMEOUT {
            counters := counters.(late := counters.late + 1);
          } else {
            counters := counters.(duplicate := counters.duplicate + 1);
          }
        }
        return;
      }
      hide Valid, HandleResponse, Matched, Spec.DispatchNext, Spec.TakeOut, RelayedReply, Settle;
      ghost var before := State();
      var entry := TakeOut(r.boardSeq);
      if r.overflows {
        RaisedAfterTaking(before, r);
        return;
      }
      SettleEntry(entry, RelayedReply(entry, r, now));
      MatchedFacts(before, r);
      DispatchNext(entry.board);
      MatchedThenDispatched(before, r);
    }

    /** `pop_pending`, and the slot the entry held. */
    method TakePending(k: nat) returns (entry: Entry)
      requires k in pending.m && pending.Valid() && pending.m[k].board in boards && pending.m[k].boardSeq == k
      modifies this`pending, this`boards
      ensures entry == old(pending).m[k] && entry.board in old(boards)
      ensures State() == old(State()).(pending := old(pending).Pop(k), boards := Freed(old(boards), entry))
    {
      entry := pending.m[k];
      Forget(entry);
    }

    method TimerDone(id: Id, k: nat)
      modifies this`timeoutTasks, this`asleep
      ensures State() == old(State()).(timers := Timers(old(timeoutTasks) - {k}, old(asleep) - {id}))
    {
      timeoutTasks, asleep := timeoutTasks - {k}, asleep - {id};
    }

    /** Pop the entry pending under `k`, stop its timer, free its slot. */
    method TakeOut(k: nat) returns (entry: Entry)
      requires Valid(State()) && k in pending.m
      modifies this`pending, this`boards, this`timeoutTasks, this`asleep
      ensures State() == Spec.TakeOut(old(State()), k) && entry == old(pending).m[k]
    {
      hide Valid, Spec.CancelTimeout, Spec.TakeOut, Dict.Pop, Freed;
      TakeOutIs(State(), k);
      assert Timers(timeoutTasks, asleep) == State().timers;
      entry := TakePending(k);
      CancelTimeoutTask(k);
    }

    /** The timeout task of command `id` wakes. */
    method ExecutionTimeout(id: Id)
      requires Valid(State()) && id in asleep
      modifies this
      ensures State() == FireTimer(old(State()), id)
    {
      var k := asleep[id].boardSeq;
      if k !in pending.m {
        asleep := asleep - {id};
        return;
      }
      hide Valid, FireTimer, TimedOut, Spec.DispatchNext;
      ghost var before := State();
      EntryFacts(before, k);
      var board := pending.m[k].board;
      SettleTimedOut(id);
      TimedOutFacts(before, id);
      DispatchNext(board);
      TimedOutThenDispatched(before, id);
    }

    /** The seq of the woken task is pending: pop whatever entry is there. */
    method SettleTimedOut(id: Id)
      requires Valid(State()) && id in asleep && asleep[id].boardSeq in pending.m
      modifies this
      ensures State() == TimedOut(old(State()), id)
    {
      hide Valid, ResolveError, TimedOut, Dict.Pop, Freed;
      TimedOutIs(State(), id);
      var k := asleep[id].boardSeq;
      var entry := TakePending(k);
      TimerDone(id, k);
      ResolveEntryError(entry, COMMAND_TIMEOUT);
    }

    /** Pop, cancel and fail those of the pending entries `entries` that are on
        board `b`, or all of them if no board is named. */
    method FailPending(entries: seq<Entry>, b: Option<BoardId>, code: ErrorCode, ghost rest: seq<Entry>)
      requires pending.Valid()
      modifies this`pending, this`timeoutTasks, this`asleep, this`resolvedStatuses, this`resolvedOrder, this`counters,
               this`futures, this`log
      ensures var lost := if b.Some? then OnBoard(entries, b.value) else entries;
              && pending == old(pending).PopAll(SeqsOf(lost))
              && Timers(timeoutTasks, asleep) == CancelAll(Timers(old(timeoutTasks), old(asleep)), SeqsOf(lost))
              && ResolveAll(Books(), rest, code) == ResolveAll(old(Books()), lost + rest, code)
    {
      hide ResolveError, ResolveAll, CancelTimeout, State, Dict.Pop;
      var todo := entries;
      ghost var lost := if b.Some? then OnBoard(entries, b.value) else entries;
      ghost var left := lost;
      while todo != []
        invariant left == if b.Some? then OnBoard(todo, b.value) else todo
        invariant pending.Valid() && pending.PopAll(SeqsOf(left)) == old(pending).PopAll(SeqsOf(lost))
        invariant CancelAll(Timers(timeoutTasks, asleep), SeqsOf(left))
          == CancelAll(Timers(old(timeoutTasks), old(asleep)), SeqsOf(lost))
        invariant ResolveAll(Books(), left + rest, code) == ResolveAll(old(Books()), lost + rest, code)
        decreases |todo|
      {
        var entry := todo[0];
        todo := todo[1..];
        if b.None? || entry.board == b.value {
          LostHead(left);
          FirstResolved(Books(), left, rest, code);
          pending := pending.Pop(entry.boardSeq);
          CancelTimeoutTask(entry.boardSeq);
          ResolveEntryError(entry, code);
          left := left[1..];
        }
      }
      assert left + rest == rest;
    }

    method MarkFaulted(b: BoardId)
      requires b in boards
      modifies this`boards, this`counters
      ensures boards == old(boards)[b := old(boards)[b].(conn := FAULTED, writer := false)]
      ensures Books() == old(Books()).(counters := old(counters).(
                boardDisconnects := old(counters).boardDisconnects + 1))
    {
      counters := counters.(boardDisconnects := counters.boardDisconnects + 1);
      boards := boards[b := boards[b].(conn := FAULTED, writer := false)];
    }

    /** Fail what the board has pending, then its queue. */
    method FailBoard(b: BoardId)
      requires pending.Valid() && b in boards
      modifies this`pending, this`timeoutTasks, this`asleep, this`resolvedStatuses, this`resolvedOrder, this`counters,
               this`futures, this`log, this`boards
      ensures var lost := OnBoard(old(pending).Values(), b);
              && pending == old(pending).PopAll(SeqsOf(lost))
              && Timers(timeoutTasks, asleep) == CancelAll(Timers(old(timeoutTasks), old(asleep)), SeqsOf(lost))
              && Books() == ResolveAll(old(Books()), lost + old(boards)[b].fifo, BOARD_UNAVAILABLE)
      ensures boards == old(boards)[b := old(boards)[b].(fifo := [], inFlight := None)]
    {
      hide State, OnBoard, CancelAll, ResolveAll, SeqsOf, Dict.Pop, Dict.PopAll, Dict.Values, Dict.ValuesFrom;
      ghost var queued := boards[b].fifo;
      FailPending(pending.Values(), Some(b), BOARD_UNAVAILABLE, queued);
      assert queued + [] == queued;
      FlushQueue(b, BOARD_UNAVAILABLE, []);
      NothingLeft(Books(), BOARD_UNAVAILABLE);
      boards := boards[b := boards[b].(inFlight := None)];
    }

    method BoardDown(b: BoardId)
      requires Valid(State()) && b in boards
      modifies this
      ensures State() == Spec.BoardDown(old(State()), b)
    {
      hide Valid, OnBoard, CancelAll, ResolveAll, SeqsOf, Spec.BoardDown, Dict.Pop, Dict.PopAll, Dict.Values,
           Dict.ValuesFrom;
      PendingIsValid(State());
      BoardDownIs(State(), b);
      MarkFaulted(b);
      FailBoard(b);
    }

    // ---------------------------------------------------- e-stop, shutdown

    /** Empty every queue in the order of the boards, failing what was in it. */
    method FlushQueues(code: ErrorCode)
      requires NoDup(cfg.boards) && forall b :: b in cfg.boards <==> b in boards
      modifies this`boards, this`resolvedStatuses, this`resolvedOrder, this`counters, this`futures, this`log
      ensures boards == Emptied(old(boards))
      ensures Books() == ResolveAll(old(Books()), Queued(old(State())), code)
    {
      hide ResolveAll, NoDup;
      ghost var s := State();
      var i := 0;
      while i < |cfg.boards|
        invariant 0 <= i <= |cfg.boards|
        invariant boards.Keys == s.boards.Keys
        invariant forall j :: 0 <= j < |cfg.boards| ==>
                    boards[cfg.boards[j]] == if j < i then s.boards[cfg.boards[j]].(fifo := [])
                      else s.boards[cfg.boards[j]]
        invariant ResolveAll(Books(), QueuedFrom(s, i), code) == ResolveAll(old(Books()), Queued(s), code)
      {
        Apart(cfg.boards, i);
        FlushQueue(cfg.boards[i], code, QueuedFrom(s, i + 1));
        i := i + 1;
      }
      NothingLeft(Books(), code);
    }

    /** The same, as a step of the whole state. */
    method FlushAll(code: ErrorCode)
      requires NoDup(cfg.boards) && forall b :: b in cfg.boards <==> b in boards
      modifies this
      ensures State() == old(State()).(boards := Emptied(old(boards)),
              ledger := ResolveAll(old(Books()), Queued(old(State())), code))
      ensures boards == Emptied(old(boards))
    {
      hide ResolveAll, Queued, Emptied, NoDup;
      FlushQueues(code);
    }

    method TriggerEstop()
      requires Valid(State())
      modifies this
      ensures State() == Spec.TriggerEstop(old(State()))
    {
      if estopActive { return; }
      hide ResolveAll, Queued, Emptied, Valid, ReadyBoards, ReadyAmong;
      ghost var s := State();
      TriggerIs(s);
      BoardsListed(s);
      Latch();
      SameQueued(s, State());
      FlushAll(ESTOP_ACTIVE);
      EmptiedReady(s.boards, cfg.boards);
      AllReady(s);
      ScheduleSends();
    }

    method Latch()
      modifies this`estopActive
      ensures State() == old(State()).(latched := true)
    {
      estopActive := true;
    }

    /** A send to every registered board that has a writer. */
    method ScheduleSends()
      requires NoDup(cfg.boards) && forall b :: b in cfg.boards ==> b in boards
      modifies this`estopTasks
      ensures State() == old(State()).(estopTasks := old(estopTasks) + multiset(ReadyAmong(cfg.boards, old(boards))))
    {
      hide NoDup, ReadyAmong;
      NoneReady(boards);
      var i := 0;
      while i < |cfg.boards|
        invariant 0 <= i <= |cfg.boards|
        invariant estopTasks == old(estopTasks) + multiset(ReadyAmong(cfg.boards[..i], boards))
      {
        OneMoreReady(cfg.boards, i, boards);
        if boards[cfg.boards[i]].writer && boards[cfg.boards[i]].conn == REGISTERED {
          estopTasks := estopTasks + multiset{cfg.boards[i]};
        }
        i := i + 1;
      }
      assert cfg.boards[..i] == cfg.boards;
    }

    /** `send_estop_to_board` up to its write. */
    method SendEstop(b: BoardId)
      requires b in boards
      modifies this
      ensures State() == Spec.SendEstop(old(State()), b)
    {
      if boards[b].writer { boards := boards[b := boards[b].(estopAck := false)]; }
    }

    method MarkEstopAck(b: BoardId)
      requires b in boards
      modifies this
      ensures State() == AckEstop(old(State()), b)
    {
      boards := boards[b := boards[b].(estopAck := true)];
    }

    /** The reply goes to whoever asked. */
    method ResetEstop(kind: string, seqno: nat, source: string, target: string, cleared: bool) returns (r: Reply)
      modifies this
      ensures State() == Spec.ResetEstop(old(State()), kind, target, cleared)
      ensures r.clientSeq == seqno && r.target == source && Coupled(r.status, r.code)
      ensures r.code == (if kind != "estop_reset" then Some(INVALID_TYPE)
                         else if target != "controller" then Some(UNKNOWN_TARGET)
                         else if !cleared then Some(ESTOP_ACTIVE) else None)
      ensures estopActive == (old(estopActive) && r.status != OK)
      ensures r.boardSeq.None? && r.latencyMs.None?
    {
      if kind != "estop_reset" { return ErrorReply(seqno, source, INVALID_TYPE); }
      if target != LOCAL_TARGET { return ErrorReply(seqno, source, UNKNOWN_TARGET); }
      if !cleared { return ErrorReply(seqno, source, ESTOP_ACTIVE); }
      estopActive := false;
      r := Reply(seqno, source, OK, None, None, None);
    }

    method BeginShutdown()
      modifies this
      ensures State() == Spec.BeginShutdown(old(State()))
    {
      shuttingDown := true;
    }

    /** `_fail_remaining_for_shutdown`. */
    method FailRemaining()
      requires Valid(State())
      modifies this
      ensures State() == Spec.FailRemaining(old(State()))
    {
      hide Valid, ResolveAll, CancelAll, Queued, Emptied, Closed, SeqsOf, Dict.Pop, Dict.PopAll, Dict.Values,
           Dict.ValuesFrom;
      ghost var s := State();
      PendingIsValid(s);
      FailRemainingIs(s);
      BoardsListed(s);
      WithdrawAll(Queued(s));
      SameQueued(s, State());
      ghost var m := State();
      FlushAll(CONTROLLER_SHUTDOWN);
      EmptiedClosed(s.boards);
      assert boards == Emptied(m.boards);
      Disconnect();
    }

    method WithdrawAll(ghost rest: seq<Entry>)
      requires pending.Valid()
      modifies this
      ensures var lost := old(pending).Values();
              && State() == old(State()).(pending := old(pending).PopAll(SeqsOf(lost)),
                                          timers := CancelAll(old(State()).timers, SeqsOf(lost)), ledger := Books())
              && ResolveAll(Books(), rest, CONTROLLER_SHUTDOWN)
                 == ResolveAll(old(Books()), lost + rest, CONTROLLER_SHUTDOWN)
    {
      hide ResolveAll, CancelAll, SeqsOf, Dict.Pop, Dict.PopAll, Dict.Values, Dict.ValuesFrom;
      FailPending(pending.Values(), None, CONTROLLER_SHUTDOWN, rest);
    }

    method Disconnect()
      modifies this`boards
      ensures State() == old(State()).(boards := Closed(old(boards)))
    {
      boards := map b | b in boards :: boards[b].(inFlight := None, conn := DISCONNECTED);
    }

    method CloseBoardWriters()
      modifies this
      ensures State() == CloseWriters(old(State()))
    {
      boards := map b | b in boards :: boards[b].(writer := false);
    }

    // ------------------------------------------------------------ connections

    method SetBoardState(b: BoardId, state: ConnState)
      requires b in boards
      modifies this
      ensures State() == SetConn(old(State()), b, state)
    {
      boards := boards[b := boards[b].(conn := state)];
    }

    method RegisterBoard(b: BoardId, schema: Object)
      requires b in boards
      modifies this
      ensures State() == Spec.RegisterBoard(old(State()), b, schema)
    {
      if CheckProtocolVersion(schema).Bad? {
        counters := counters.(versionMismatches := counters.versionMismatches + 1);
        boards := boards[b := boards[b].(conn := FAULTED)];
        return;
      }
      boards := boards[b := boards[b].(conn := REGISTERED, writer := true, reg := Register(boards[b].reg, schema))];
    }
  }

  /** All queues empty. */
  function Emptied(bs: map<BoardId, Board>): map<BoardId, Board> { map b | b in bs :: bs[b].(fifo := []) }

  function ReadyAmong(ids: seq<BoardId>, bs: map<BoardId, Board>): set<BoardId> {
    set b | b in ids && b in bs && Ready(bs[b])
  }

  lemma NoneReady(bs: map<BoardId, Board>)
    ensures multiset(ReadyAmong([], bs)) == multiset{}
  {
    assert ReadyAmong([], bs) == {};
  }

  lemma OneMoreReady(ids: seq<BoardId>, i: nat, bs: map<BoardId, Board>)
    requires NoDup(ids) && i < |ids| && ids[i] in bs
    ensures var before := multiset(ReadyAmong(ids[..i], bs));
            multiset(ReadyAmong(ids[..i + 1], bs)) == if Ready(bs[ids[i]]) then before + multiset{ids[i]} else before
  {
    var front, b := ReadyAmong(ids[..i], bs), ids[i];
    assert ids[..i + 1] == ids[..i] + [b];
    assert ReadyAmong(ids[..i + 1], bs) == if Ready(bs[b]) then front + {b} else front;
    assert b !in front;
    assert multiset(front + {b}) == multiset(front) + multiset{b};
  }

  lemma AllReady(s: Ctl)
    requires forall b :: b in s.cfg.boards <==> b in s.boards
    ensures ReadyAmong(s.cfg.boards, s.boards) == ReadyBoards(s)
  {
  }

  lemma EmptiedReady(bs: map<BoardId, Board>, ids: seq<BoardId>)
    ensures Emptied(bs).Keys == bs.Keys && ReadyAmong(ids, Emptied(bs)) == ReadyAmong(ids, bs)
  {
  }

  function Closed(bs: map<BoardId, Board>): map<BoardId, Board> {
    map b | b in bs :: bs[b].(inFlight := None, conn := DISCONNECTED)
  }

  lemma EmptiedClosed(bs: map<BoardId, Board>)
    ensures Closed(Emptied(bs)) == (map b | b in bs :: bs[b].(fifo := [], inFlight := None, conn := DISCONNECTED))
  {
  }

  lemma Apart(bs: seq<BoardId>, i: nat)
    requires NoDup(bs) && i < |bs|
    ensures forall j :: 0 <= j < |bs| && j != i ==> bs[j] != bs[i]
  {
  }

  lemma {:induction false} SameQueuedFrom(s: Ctl, t: Ctl, i: nat)
    requires s.cfg == t.cfg && s.boards == t.boards && i <= |s.cfg.boards| && forall b :: b in s.cfg.boards ==>
             b in s.boards
    ensures QueuedFrom(s, i) == QueuedFrom(t, i)
    decreases |s.cfg.boards| - i
  {
    if i < |s.cfg.boards| { SameQueuedFrom(s, t, i + 1); }
  }

  lemma SameQueued(s: Ctl, t: Ctl)
    requires s.cfg == t.cfg && s.boards == t.boards && forall b :: b in s.cfg.boards ==> b in s.boards
    ensures Queued(s) == Queued(t)
  {
    SameQueuedFrom(s, t, 0);
  }

  lemma TriggerIs(s: Ctl)
    requires Valid(s) && !s.latched
    ensures Spec.TriggerEstop(s) == s.(latched := true, boards := Emptied(s.boards),
                                       ledger := ResolveAll(s.ledger, Queued(s), ESTOP_ACTIVE),
                                       estopTasks := s.estopTasks + multiset(ReadyBoards(s)))
  {
  }

  lemma FailRemainingIs(s: Ctl)
    requires Valid(s)
    ensures Spec.FailRemaining(s) == s.(
              pending := s.pending.PopAll(SeqsOf(s.pending.Values())),
                timers := CancelAll(s.timers, SeqsOf(s.pending.Values())),
              boards := map b | b in s.boards :: s.boards[b].(fifo := [], inFlight := None, conn := DISCONNECTED),
              ledger := ResolveAll(s.ledger, s.pending.Values() + Queued(s), CONTROLLER_SHUTDOWN))
  {
    hide Valid, CancelAll, ResolveAll, SeqsOf, Queued, Dict.Pop, Dict.PopAll, Dict.Values, Dict.ValuesFrom;
  }

  lemma RefusalsCommute(c: Counters, r: Reply, code: ErrorCode)
    ensures code == ESTOP_ACTIVE ==>
              RecordTerminal(c.(estopRejections := c.estopRejections + 1), r)
              == RecordTerminal(c, r).(estopRejections := RecordTerminal(c, r).estopRejections + 1)
    ensures code == BOARD_BUSY ==>
              RecordTerminal(c.(busy := c.busy + 1), r) == RecordTerminal(c, r).(busy := RecordTerminal(c, r).busy + 1)
  {
  }

  lemma NothingLeft(l: Ledger, code: ErrorCode)
    ensures ResolveAll(l, [], code) == l
  {
  }

  lemma FirstResolved(l: Ledger, es: seq<Entry>, rest: seq<Entry>, code: ErrorCode)
    requires es != []
    ensures ResolveAll(l, es + rest, code) == ResolveAll(ResolveError(l, es[0], code), es[1..] + rest, code)
  {
    assert es + rest == [es[0]] + (es[1..] + rest);
  }

  lemma LostHead(left: seq<Entry>)
    requires left != []
    ensures SeqsOf(left) == [left[0].boardSeq] + SeqsOf(left[1..])
  {
  }

  /** The boards once the slot of the entry's board is freed. */
  function Freed(bs: map<BoardId, Board>, e: Entry): map<BoardId, Board>
    requires e.board in bs
  {
    if bs[e.board].inFlight == Some(e.boardSeq) then bs[e.board := bs[e.board].(inFlight := None)] else bs
  }

  lemma TakeOutIs(s: Ctl, k: nat)
    requires Valid(s) && k in s.pending.m
    ensures var e := s.pending.m[k];
            && e.board in s.boards && e.boardSeq == k && s.pending.Valid()
            && Spec.TakeOut(s, k) == s.(
                 pending := s.pending.Pop(k), timers := CancelTimeout(s.timers, k), boards := Freed(s.boards, e))
  {
  }

  lemma RaisedAfterTaking(s: Ctl, r: BoardReply)
    requires Valid(s) && r.boardSeq in s.pending.m && r.overflows
    ensures HandleResponse(s, r) == Spec.TakeOut(s, r.boardSeq)
  {
  }

  lemma TimedOutIs(s: Ctl, id: Id)
    requires Valid(s) && id in s.timers.asleep && s.timers.asleep[id].boardSeq in s.pending.m
    ensures var k := s.timers.asleep[id].boardSeq;
            var e := s.pending.m[k];
            && e.board in s.boards && e.boardSeq == k && s.pending.Valid()
            && TimedOut(s, id) == s.(
                 pending := s.pending.Pop(k), timers := Timers(s.timers.armed - {k}, s.timers.asleep - {id}),
                 boards := Freed(s.boards, e), ledger := ResolveError(s.ledger, e, COMMAND_TIMEOUT))
  {
  }

  lemma BoardDownIs(s: Ctl, b: BoardId)
    requires Valid(s) && b in s.boards && s.pending.Valid()
    ensures var lost := OnBoard(s.pending.Values(), b);
            var l := s.ledger.(counters := s.ledger.counters.(
              boardDisconnects := s.ledger.counters.boardDisconnects + 1));
            Spec.BoardDown(s, b) == s.(
              pending := s.pending.PopAll(SeqsOf(lost)), timers := CancelAll(s.timers, SeqsOf(lost)),
              boards := s.boards[b := s.boards[b].(conn := FAULTED, writer := false, fifo := [], inFlight := None)],
              ledger := ResolveAll(l, lost + s.boards[b].fifo, BOARD_UNAVAILABLE))
  {
    hide Valid, OnBoard, CancelAll, ResolveAll, SeqsOf, Dict.Pop, Dict.PopAll, Dict.Values, Dict.ValuesFrom;
  }

  lemma EntryFacts(s: Ctl, k: nat)
    requires Valid(s) && k in s.pending.m
    ensures s.pending.Valid() && s.pending.m[k].board in s.boards
  {
  }

  lemma MatchedFacts(s: Ctl, r: BoardReply)
    requires Valid(s) && r.boardSeq in s.pending.m
    ensures var e, m := s.pending.m[r.boardSeq], Matched(s, r);
            && m == Spec.TakeOut(s, r.boardSeq).(ledger := Settle(s.ledger, e, RelayedReply(e, r, s.now)))
            && Spec.TakeOut(s, r.boardSeq).ledger == s.ledger && Spec.TakeOut(s, r.boardSeq).now == s.now
            && m.pending.Valid() && e.board in m.boards
  {
  }

  lemma MatchedThenDispatched(s: Ctl, r: BoardReply)
    requires Valid(s) && r.boardSeq in s.pending.m && !r.overflows
    requires Matched(s, r).pending.Valid() && s.pending.m[r.boardSeq].board in Matched(s, r).boards
    ensures HandleResponse(s, r) == Spec.DispatchNext(Matched(s, r), s.pending.m[r.boardSeq].board)
  {
  }

  lemma TimedOutFacts(s: Ctl, id: Id)
    requires Valid(s) && id in s.timers.asleep && s.timers.asleep[id].boardSeq in s.pending.m
    ensures TimedOut(s, id).pending.Valid() && s.pending.m[s.timers.asleep[id].boardSeq].board in TimedOut(s, id).boards
  {
  }

  lemma TimedOutThenDispatched(s: Ctl, id: Id)
    requires Valid(s) && id in s.timers.asleep && s.timers.asleep[id].boardSeq in s.pending.m
    requires TimedOut(s, id).pending.Valid()
    requires s.pending.m[s.timers.asleep[id].boardSeq].board in TimedOut(s, id).boards
    ensures FireTimer(s, id) == Spec.DispatchNext(TimedOut(s, id), s.pending.m[s.timers.asleep[id].boardSeq].board)
  {
  }

  function WithoutStaleHead(s: Ctl, b: BoardId): Ctl
    requires b in s.boards && s.boards[b].fifo != []
  {
    s.(boards := s.boards[b := s.boards[b].(fifo := s.boards[b].fifo[1..])],
       ledger := ResolveError(AddStale(s.ledger, 1), s.boards[b].fifo[0], COMMAND_TIMEOUT))
  }

  function AddStale(l: Ledger, n: nat): Ledger {
    l.(counters := l.counters.(stale := l.counters.stale + n))
  }

  lemma {:induction false} StaleCommutes(l: Ledger, es: seq<Entry>, code: ErrorCode, n: nat)
    ensures ResolveAll(AddStale(l, n), es, code) == AddStale(ResolveAll(l, es, code), n)
    decreases |es|
  {
    if es != [] {
      assert ResolveError(AddStale(l, n), es[0], code) == AddStale(ResolveError(l, es[0], code), n);
      StaleCommutes(ResolveError(l, es[0], code), es[1..], code, n);
    }
  }

  lemma StaleBooks(l: Ledger, q: seq<Entry>, n: nat, code: ErrorCode)
    requires 0 < n <= |q|
    ensures AddStale(ResolveAll(l, q[..n], code), n)
            == AddStale(ResolveAll(ResolveError(AddStale(l, 1), q[0], code), q[1..][..n - 1], code), n - 1)
  {
    var tail := q[1..][..n - 1];
    assert q[..n] == [q[0]] + tail;
    assert ResolveAll(l, q[..n], code) == ResolveAll(ResolveError(l, q[0], code), tail, code);
    assert ResolveError(AddStale(l, 1), q[0], code) == AddStale(ResolveError(l, q[0], code), 1);
    StaleCommutes(ResolveError(l, q[0], code), tail, code, 1);
  }

  /** One pass of the dispatch loop over a stale head. */
  lemma StaleStep(s: Ctl, b: BoardId)
    requires b in s.boards && s.pending.Valid() && MayDispatch(s, b) && s.boards[b].fifo != []
    requires Expired(s.boards[b].fifo[0], s.now)
    ensures MayDispatch(WithoutStaleHead(s, b), b)
    ensures Spec.DispatchNext(s, b) == Spec.DispatchNext(WithoutStaleHead(s, b), b)
  {
    hide ResolveError, ResolveAll;
    var t, q := WithoutStaleHead(s, b), s.boards[b].fifo;
    var n := StalePrefix(q, s.now);
    assert StalePrefix(q[1..], s.now) == n - 1;
    StaleBooks(s.ledger, q, n, COMMAND_TIMEOUT);
    assert DropStale(s, b) == DropStale(t, b) by {
      assert q[n..] == q[1..][n - 1..];
      assert DropStale(s, b).boards == DropStale(t, b).boards;
    }
  }

  /** A live head is written. */
  lemma LiveStep(s: Ctl, b: BoardId)
    requires b in s.boards && s.pending.Valid() && MayDispatch(s, b) && s.boards[b].fifo != []
    requires !Expired(s.boards[b].fifo[0], s.now)
    ensures Spec.DispatchNext(s, b) == StartWrite(s, b)
  {
    assert StalePrefix(s.boards[b].fifo, s.now) == 0;
    assert DropStale(s, b) == s by { assert s.boards[b].fifo[0..] == s.boards[b].fifo; }
  }

  lemma EmptyStep(s: Ctl, b: BoardId)
    requires b in s.boards && s.pending.Valid() && s.boards[b].fifo == []
    ensures Spec.DispatchNext(s, b) == s
  {
  }
}
