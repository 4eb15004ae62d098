/** The shortest runs in which something goes wrong, for any boards and any schema
    that declares a command: two boards lose a command to their shared key space, a
    board answers another board's command, and a board's own response loses one. */
module Collision {
  import opened Basics
  import opened Protocol
  import opened SchemaGate
  import opened Controller
  import opened Conservation
  import opened Steps
  import opened System
  import opened Loss
  import opened Safety
  import opened Distinct
  import opened Correlation

  function Registered(m: Object): Board {
    Board(REGISTERED, true, 1, [], None, Register(UNREGISTERED, m), false)
  }

  /** A schema that registers and declares this command. */
  predicate Declares(m: Object, name: string) {
    CheckProtocolVersion(m).Good? && name in GateTable(m["schema"].fields)
  }

  function Plain(target: BoardId, name: string): Command {
    Command(target, 1, "client", name, None, None)
  }

  const ANY: Reply := Reply(0, "", OK, None, None, None)

  /** Nothing has been routed yet. */
  ghost predicate Untouched(s: Sys) {
    && NoDup(s.ctl.cfg.boards)
    && s.ctl == Start(s.ctl.cfg, s.ctl.now).(boards := s.ctl.boards)
    && s.ctl.boards.Keys == Start(s.ctl.cfg, s.ctl.now).boards.Keys == s.phase.Keys
    && forall b :: b in s.ctl.boards ==> s.ctl.boards[b].fifo == []
  }

  /** A connection event of `b` that leaves it unqueued. */
  lemma JoinStep(s: Sys, b: BoardId, e: Event, board: Board, phase: Phase) returns (t: Sys)
    requires Untouched(s) && Enabled(s, e) && b in s.phase && board.fifo == []
    requires CtlNext(s, e) == s.ctl.(boards := s.ctl.boards[b := board])
    requires PhaseNext(s, e) == s.phase[b := phase]
    ensures Step(s, e, t) && Untouched(t)
    ensures t.ctl == s.ctl.(boards := s.ctl.boards[b := board]) && t.phase == s.phase[b := phase]
  {
    hide Enabled, CtlNext, PhaseNext, HistNext, CallersNext;
    t := Next(s, e);
  }

  lemma UntouchedIsValid(s: Sys)
    requires Untouched(s)
    ensures Valid(s.ctl) && s.phase.Keys == s.ctl.boards.Keys && !s.ctl.latched
    ensures s.ctl.accepted == [] && s.ctl.sent == []
  {
  }

  lemma Join(s: Sys, b: BoardId, m: Object, name: string) returns (s1: Sys, s2: Sys, t: Sys)
    requires Untouched(s) && b in s.phase && s.phase[b] == Idle && b in s.ctl.boards && s.ctl.boards[b] == NEW_BOARD
    requires Declares(m, name)
    ensures Step(s, Dial(b), s1) && Step(s1, Link(b), s2) && Step(s2, SchemaArrives(b, m), t)
    ensures Untouched(t) && t.ctl == s.ctl.(boards := s.ctl.boards[b := Registered(m)])
    ensures t.phase == s.phase[b := Live]
  {
    hide Untouched, Step, Declares, Registered;
    s1, s2 := Approach(s, b);
    t := Arrive(s2, b, m, name);
    assert t.ctl.boards == s.ctl.boards[b := Registered(m)];
    assert t.phase == s.phase[b := Live];
  }

  lemma Approach(s: Sys, b: BoardId) returns (s1: Sys, s2: Sys)
    requires Untouched(s) && b in s.phase && s.phase[b] == Idle && b in s.ctl.boards && s.ctl.boards[b] == NEW_BOARD
    ensures Step(s, Dial(b), s1) && Step(s1, Link(b), s2) && Untouched(s2)
    ensures s2.ctl == s.ctl.(boards := s.ctl.boards[b := NEW_BOARD.(conn := CONNECTED)])
    ensures s2.phase == s.phase[b := Linked]
  {
    hide Untouched, Valid, Step;
    UntouchedIsValid(s);
    s1 := JoinStep(s, b, Dial(b), NEW_BOARD.(conn := CONNECTING), Dialing);
    UntouchedIsValid(s1);
    s2 := JoinStep(s1, b, Link(b), NEW_BOARD.(conn := CONNECTED), Linked);
    assert s2.ctl.boards == s.ctl.boards[b := NEW_BOARD.(conn := CONNECTED)];
    assert s2.phase == s.phase[b := Linked];
  }

  lemma Arrive(s: Sys, b: BoardId, m: Object, name: string) returns (t: Sys)
    requires Untouched(s) && b in s.phase && s.phase[b] == Linked
    requires b in s.ctl.boards && s.ctl.boards[b] == NEW_BOARD.(conn := CONNECTED) && Declares(m, name)
    ensures Step(s, SchemaArrives(b, m), t) && Untouched(t)
    ensures t.ctl == s.ctl.(boards := s.ctl.boards[b := Registered(m)]) && t.phase == s.phase[b := Live]
  {
    hide Untouched, Valid, Register, Step;
    UntouchedIsValid(s);
    t := JoinStep(s, b, SchemaArrives(b, m), Registered(m), Live);
  }

  lemma FirstIsAccepted(c: Ctl, a: BoardId, m: Object, name: string)
    requires a in c.boards && a != LOCAL_TARGET && c.boards[a] == Registered(m) && Declares(m, name)
    requires !c.closing && !c.latched && c.cfg.defaultTimeout <= MAX_COMMAND_TIMEOUT_S
    ensures Accepts(c, Plain(a, name))
  {
  }

  /** `d` is `c` after the first command of the idle board `a` was written at once. */
  ghost predicate FirstWritten(c: Ctl, d: Ctl, a: BoardId, b: BoardId, m: Object) {
    var id := |c.accepted|;
    && Valid(d) && d.boards.Keys == c.boards.Keys && (b in c.boards ==> d.boards[b] == c.boards[b])
    && d.cfg == c.cfg && d.closing == c.closing && d.latched == c.latched
    && a in d.boards && d.boards[a] == Registered(m).(nextSeq := 2, inFlight := Some(1))
    && |d.accepted| == id + 1 && d.accepted[id].board == a && d.accepted[id].boardSeq == d.accepted[id].clientSeq == 1
    && 1 in d.pending.m && d.pending.m[1].id == id && id in d.writing
    && |d.sent| == |c.sent| + 1 && d.sent[|c.sent|].id == id
  }

  lemma FirstIsWritten(c: Ctl, a: BoardId, b: BoardId, m: Object, name: string)
    requires Valid(c) && a in c.boards && a != b && c.boards[a] == Registered(m)
    requires !c.closing && c.cfg.defaultCap >= 0.0
    ensures FirstWritten(c, DispatchNext(Enqueue(c, Plain(a, name)), a), a, b, m)
  {
    hide Register, DispatchNext, Enqueue, Valid, Expired;
    var q := Enqueue(c, Plain(a, name));
    FirstIsQueued(c, a, b, m, name);
    OnlyIsWritten(q, a, b);
  }

  lemma FirstIsQueued(c: Ctl, a: BoardId, b: BoardId, m: Object, name: string)
    requires Valid(c) && a in c.boards && a != b
    requires c.boards[a] == Registered(m) && !c.closing && c.cfg.defaultCap >= 0.0
    ensures var q, id := Enqueue(c, Plain(a, name)), |c.accepted|;
            && q.boards.Keys == c.boards.Keys && (b in c.boards ==> q.boards[b] == c.boards[b])
            && q.cfg == c.cfg && q.closing == c.closing && q.latched == c.latched && Valid(q) && q.sent == c.sent
            && MayDispatch(q, a) && q.boards[a] == Registered(m).(nextSeq := 2, fifo := q.boards[a].fifo)
            && |q.boards[a].fifo| == 1 && q.boards[a].fifo[0].boardSeq == 1 && q.boards[a].fifo[0].id == id
            && !Expired(q.boards[a].fifo[0], q.now)
            && |q.accepted| == id + 1 && q.accepted[id].board == a
            && q.accepted[id].boardSeq == q.accepted[id].clientSeq == 1
  {
    hide Register;
  }

  /** The only queued command of `a` was written; nothing of `b` moved. */
  ghost predicate OnlyWritten(c: Ctl, d: Ctl, a: BoardId, b: BoardId)
    requires a in c.boards && c.boards[a].fifo != []
  {
    var id := c.boards[a].fifo[0].id;
    && Valid(d) && d.boards.Keys == c.boards.Keys && (b in c.boards ==> d.boards[b] == c.boards[b])
    && d.boards[a] == c.boards[a].(fifo := [], inFlight := Some(1))
    && d.cfg == c.cfg && d.closing == c.closing && d.latched == c.latched && d.accepted == c.accepted
    && 1 in d.pending.m && d.pending.m[1].id == id && id in d.writing
    && |d.sent| == |c.sent| + 1 && d.sent[|c.sent|].id == id
  }

  /** A board with one live queued command and a free slot. */
  lemma OnlyIsWritten(c: Ctl, a: BoardId, b: BoardId)
    requires Valid(c) && a in c.boards && a != b && MayDispatch(c, a)
    requires |c.boards[a].fifo| == 1 && c.boards[a].fifo[0].boardSeq == 1 && !Expired(c.boards[a].fifo[0], c.now)
    ensures OnlyWritten(c, DispatchNext(c, a), a, b)
  {
    hide Valid, MayDispatch, Expired, StartWrite;
    FreshQueue(c, a);
    OnlyShape(c, a, b);
    assert DispatchNext(c, a) == StartWrite(DropStale(c, a), a);
  }

  lemma FreshQueue(c: Ctl, a: BoardId)
    requires Valid(c) && a in c.boards && c.boards[a].fifo != [] && !Expired(c.boards[a].fifo[0], c.now)
    ensures DropStale(c, a).boards == c.boards && DropStale(c, a).sent == c.sent
    ensures DropStale(c, a).pending.Valid() && DropStale(c, a).accepted == c.accepted
  {
    assert DropStale(c, a).boards[a].fifo == c.boards[a].fifo;
  }

  lemma OnlyShape(c: Ctl, a: BoardId, b: BoardId)
    requires Valid(c) && a in c.boards && a != b && |c.boards[a].fifo| == 1 && c.boards[a].fifo[0].boardSeq == 1
    requires DropStale(c, a).boards == c.boards && DropStale(c, a).sent == c.sent
    requires DropStale(c, a).pending.Valid() && DropStale(c, a).accepted == c.accepted
    ensures OnlyWritten(c, StartWrite(DropStale(c, a), a), a, b)
  {
    hide Valid, DropStale, Expired;
    StaleIsValid(c, a);
    OnlyStarts(DropStale(c, a), a, b);
  }

  lemma StaleIsValid(c: Ctl, a: BoardId)
    requires Valid(c) && a in c.boards && DropStale(c, a).boards == c.boards
    ensures var d := DropStale(c, a);
            && Valid(d) && d.pending.Valid() && d.cfg == c.cfg && d.closing == c.closing && d.latched == c.latched
  {
    hide DropStale, Valid;
    StaleMoves(c, a);
    PendingIsValid(c);
    LedgerKeepsValid(c, DropStale(c, a));
  }

  lemma LedgerKeepsValid(c: Ctl, d: Ctl)
    requires Valid(c) && d == c.(ledger := d.ledger)
    ensures Valid(d)
  {
  }

  lemma StaleMoves(c: Ctl, a: BoardId)
    requires a in c.boards
    ensures DropStale(c, a) == c.(boards := DropStale(c, a).boards, ledger := DropStale(c, a).ledger)
  {
  }

  lemma OnlyStarts(c: Ctl, a: BoardId, b: BoardId)
    requires Valid(c) && a in c.boards && a != b && |c.boards[a].fifo| == 1 && c.boards[a].fifo[0].boardSeq == 1
    ensures OnlyWritten(c, StartWrite(c, a), a, b)
  {
    StartWriteShape(c, a);
    StartWriteRest(c, a);
    PendingIsValid(c);
    hide Valid, StartWrite;
  }

  lemma StartWriteRest(c: Ctl, a: BoardId)
    requires c.pending.Valid() && a in c.boards && c.boards[a].fifo != []
    ensures var d, e := StartWrite(c, a), c.boards[a].fifo[0];
            && d.cfg == c.cfg && d.closing == c.closing && d.latched == c.latched
            && d.boards == c.boards[a := c.boards[a].(fifo := c.boards[a].fifo[1..], inFlight := Some(e.boardSeq))]
            && |d.sent| == |c.sent| + 1 && d.sent[|c.sent|].id == e.id
  {
  }

  lemma RouteFirst(s: Sys, a: BoardId, b: BoardId, m: Object, name: string) returns (t: Sys)
    requires Untouched(s) && a in s.ctl.boards && a != b && a != LOCAL_TARGET
    requires s.ctl.boards[a] == Registered(m) && Declares(m, name)
    requires s.ctl.cfg.defaultTimeout <= MAX_COMMAND_TIMEOUT_S && s.ctl.cfg.defaultCap >= 0.0
    ensures Step(s, RouteCommand(Plain(a, name), ANY), t) && t.phase == s.phase
    ensures FirstWritten(s.ctl, t.ctl, a, b, m)
  {
    hide DispatchNext, Enqueue, Accepts, Valid, Declares, FirstWritten;
    UntouchedIsValid(s);
    NotClosing(s);
    FirstIsAccepted(s.ctl, a, m, name);
    FirstIsWritten(s.ctl, a, b, m, name);
    AcceptedRoute(s.ctl, Plain(a, name), ANY);
    t := Next(s, RouteCommand(Plain(a, name), ANY));
  }

  lemma NotClosing(s: Sys)
    requires Untouched(s)
    ensures !s.ctl.closing
  {
  }

  lemma SecondForfeits(s: Sys, b: BoardId, m: Object, name: string)
    requires Valid(s.ctl) && s.phase.Keys == s.ctl.boards.Keys && b in s.ctl.boards && b != LOCAL_TARGET
    requires s.ctl.boards[b] == Registered(m) && !s.ctl.closing && !s.ctl.latched && 1 in s.ctl.pending.m
    requires Declares(m, name)
    requires s.ctl.cfg.defaultTimeout <= MAX_COMMAND_TIMEOUT_S && s.ctl.cfg.defaultCap >= 0.0
    ensures Forfeits(s, RouteCommand(Plain(b, name), ANY))
  {
    var q := Enqueue(s.ctl, Plain(b, name));
    assert q.boards[b].fifo == [q.accepted[|s.ctl.accepted|]];
    assert StalePrefix(q.boards[b].fifo, q.now) == 0;
  }

  // ------------------------------------------------------------ building runs

  function Joining(b: BoardId, m: Object): seq<Event> { [Dial(b), Link(b), SchemaArrives(b, m)] }

  /** A board that is up: nothing of it queued, nothing routed anywhere yet. */
  ghost predicate Up(s: Sys, b: BoardId, m: Object) {
    && Untouched(s) && b in s.ctl.boards && s.ctl.boards[b] == Registered(m)
    && b in s.phase && s.phase[b] == Live
  }

  ghost predicate Unborn(s: Sys, b: BoardId) {
    Untouched(s) && b in s.phase && s.phase[b] == Idle && b in s.ctl.boards && s.ctl.boards[b] == NEW_BOARD
  }

  /** The run in which `b` comes up next, with the other board as it was. */
  lemma JoinRun(states: seq<Sys>, events: seq<Event>, b: BoardId, other: BoardId, m: Object, name: string)
    returns (after: seq<Sys>)
    requires Run(states, events) && Unborn(Last(states), b) && Declares(m, name) && b != other
    ensures Run(after, events + Joining(b, m)) && after[0] == states[0] && Up(Last(after), b, m)
    ensures Last(after).ctl.cfg == Last(states).ctl.cfg
    ensures Up(Last(states), other, m) ==> Up(Last(after), other, m)
    ensures Unborn(Last(states), other) ==> Unborn(Last(after), other)
  {
    hide Init, Step, StepAt, Declares, Registered, Untouched;
    var s1, s2, t := Join(Last(states), b, m, name);
    Extend(states, events, Dial(b), s1);
    Extend(states + [s1], events + [Dial(b)], Link(b), s2);
    Extend(states + [s1] + [s2], events + [Dial(b)] + [Link(b)], SchemaArrives(b, m), t);
    after := states + [s1] + [s2] + [t];
    assert events + [Dial(b)] + [Link(b)] + [SchemaArrives(b, m)] == events + Joining(b, m);
  }

  lemma StartRun(s: Sys, b: BoardId)
    requires Init(s) && b in s.ctl.cfg.boards
    ensures Run([s], []) && Last([s]) == s && Unborn(s, b)
  {
  }

  /** What the routed command of an idle board leaves behind. */
  ghost predicate OneRouted(s: Sys, a: BoardId, m: Object) {
    && Valid(s.ctl) && s.phase.Keys == s.ctl.boards.Keys && !s.ctl.closing && !s.ctl.latched
    && a in s.phase && s.phase[a] == Live && s.ctl.boards[a] == Registered(m).(nextSeq := 2, inFlight := Some(1))
    && |s.ctl.accepted| == 1 && s.ctl.accepted[0].board == a
    && s.ctl.accepted[0].boardSeq == s.ctl.accepted[0].clientSeq == 1
    && 1 in s.ctl.pending.m && s.ctl.pending.m[1].id == 0 && 0 in s.ctl.writing
    && |s.ctl.sent| == 1 && s.ctl.sent[0].id == 0
  }

  /** The run in which `a` comes up and is sent its first command. */
  lemma RouteRun(states: seq<Sys>, events: seq<Event>, a: BoardId, b: BoardId, m: Object, name: string)
    returns (after: seq<Sys>)
    requires Run(states, events) && Up(Last(states), a, m) && Declares(m, name) && a != b && a != LOCAL_TARGET
    requires Last(states).ctl.cfg.defaultTimeout <= MAX_COMMAND_TIMEOUT_S && Last(states).ctl.cfg.defaultCap >= 0.0
    ensures Run(after, events + [RouteCommand(Plain(a, name), ANY)])
    ensures after[0] == states[0] && OneRouted(Last(after), a, m)
    ensures after[|events|] == Last(states) && Last(states).ctl.accepted == [] && Last(states).ctl.sent == []
    ensures Last(after).ctl.cfg == Last(states).ctl.cfg && Last(after).ctl.boards.Keys == Last(states).ctl.boards.Keys
    ensures Up(Last(states), b, m) ==> b in Last(after).ctl.boards && Last(after).ctl.boards[b] == Registered(m)
  {
    hide Init, Step, StepAt, Declares, Registered, Valid, Plain, Untouched;
    var t := RouteFirst(Last(states), a, b, m, name);
    UntouchedIsValid(Last(states));
    NotClosing(Last(states));
    Extend(states, events, RouteCommand(Plain(a, name), ANY), t);
    after := states + [t];
  }

  /** The first command of a board goes out under the seq its client gave it, if that
      is 1: the two numberings can meet. */
  lemma SeqsCoincide(s: Sys, a: BoardId, m: Object, name: string) returns (states: seq<Sys>)
    requires Init(s) && s.ctl.cfg.boards == [a] && a != LOCAL_TARGET && Declares(m, name)
    requires s.ctl.cfg.defaultTimeout <= MAX_COMMAND_TIMEOUT_S && s.ctl.cfg.defaultCap >= 0.0
    ensures Run(states, Joining(a, m) + [RouteCommand(Plain(a, name), ANY)]) && states[0] == s
    ensures var c := Last(states).ctl; |c.accepted| == 1 && c.accepted[0].boardSeq == c.accepted[0].clientSeq
  {
    states := FirstRun(s, a, m, name);
  }

  /** One board comes up and is sent its first command. */
  lemma FirstRun(s: Sys, a: BoardId, m: Object, name: string) returns (states: seq<Sys>)
    requires Init(s) && s.ctl.cfg.boards == [a] && a != LOCAL_TARGET && Declares(m, name)
    requires s.ctl.cfg.defaultTimeout <= MAX_COMMAND_TIMEOUT_S && s.ctl.cfg.defaultCap >= 0.0
    ensures Run(states, Joining(a, m) + [RouteCommand(Plain(a, name), ANY)]) && states[0] == s
    ensures OneRouted(Last(states), a, m) && Last(states).ctl.cfg == s.ctl.cfg
    ensures states[3].ctl.accepted == [] && states[3].ctl.sent == []
  {
    hide Step, StepAt, Registered, Init, Plain, Declares, Untouched, Valid, OneRouted;
    StartRun(s, a);
    var other := a + "'";
    states := JoinRun([s], [], a, other, m, name);
    states := RouteRun(states, [] + Joining(a, m), a, other, m, name);
    assert [] + Joining(a, m) + [RouteCommand(Plain(a, name), ANY)]
        == Joining(a, m) + [RouteCommand(Plain(a, name), ANY)];
  }

  // ------------------------------------------------------------------- losses

  /** Two registered boards that each get their first command lose one of them:
      both live under board seq 1, and the second write takes the first's entry. */
  lemma TwoBoardsLose(s: Sys, a: BoardId, b: BoardId, m: Object, name: string) returns (states: seq<Sys>)
    requires Init(s) && s.ctl.cfg.boards == [a, b] && a != LOCAL_TARGET && b != LOCAL_TARGET && Declares(m, name)
    requires s.ctl.cfg.defaultTimeout <= MAX_COMMAND_TIMEOUT_S && s.ctl.cfg.defaultCap >= 0.0
    ensures Run(states, Joining(a, m) + Joining(b, m)
                        + [RouteCommand(Plain(a, name), ANY), RouteCommand(Plain(b, name), ANY)])
    ensures states[0] == s && !Conserved(Last(states).ctl)
  {
    hide Step, StepAt, Forfeits, Conserved, Sound, Registered, Init, Plain, Declares, Untouched, Valid;
    TwoBoards(s, a, b);
    StartRun(s, a);
    StartRun(s, b);
    states := JoinRun([s], [], a, b, m, name);
    states := JoinRun(states, [] + Joining(a, m), b, a, m, name);
    var events := [] + Joining(a, m) + Joining(b, m);
    var before := RouteRun(states, events, a, b, m, name);
    SecondForfeits(Last(before), b, m, name);
    var r1, r2 := RouteCommand(Plain(a, name), ANY), RouteCommand(Plain(b, name), ANY);
    states := ForfeitRun(before, events + [r1], r2);
    assert events + [r1] + [r2] == Joining(a, m) + Joining(b, m) + [r1, r2];
  }

  lemma TwoBoards(s: Sys, a: BoardId, b: BoardId)
    requires Init(s) && s.ctl.cfg.boards == [a, b]
    ensures a != b && a in s.ctl.cfg.boards && b in s.ctl.cfg.boards
  {
    assert s.ctl.cfg.boards[0] != s.ctl.cfg.boards[1];
  }

  /** A run whose next event forfeits ends in a loss. */
  lemma ForfeitRun(states: seq<Sys>, events: seq<Event>, e: Event) returns (after: seq<Sys>)
    requires Run(states, events) && Forfeits(Last(states), e)
    ensures Run(after, events + [e]) && after[0] == states[0] && !Conserved(Last(after).ctl)
  {
    hide Init, Step, StepAt, Forfeits, Conserved, Sound;
    var t := ForfeitStep(Last(states), e);
    Extend(states, events, e, t);
    after := states + [t];
    var all, n := events + [e], |events|;
    NothingLostIffClean(after, all, |all|);
    assert after[n] == Last(states) && all[n] == e;
  }

  lemma ForfeitStep(s: Sys, e: Event) returns (t: Sys)
    requires Forfeits(s, e)
    ensures Step(s, e, t)
  {
    t := Next(s, e);
  }

  /** A schema as the lemmas here ask for exists. */
  const DEMO: Object := map[
    "type" := JStr("schema"), "seq" := JInt(1), "source" := JStr("board"), "target" := JStr("controller"),
    "protocol_version" := JStr("1"), "schema" := JObj(map["commands" := JObj(map["move" := JObj(map[])])])]

  lemma DemoRegisters()
    ensures Declares(DEMO, "move") && GateTable(DEMO["schema"].fields)["move"]
  {
  }

  /** A valid ok response to board seq 1 whose processing time is 2 to the 1024, an
      integer of 309 digits. */
  function Oversized(): Object {
    map["type" := JStr("response"), "seq" := JInt(1), "source" := JStr("board"), "target" := JStr("controller"),
        "status" := JStr("ok"), "board_proc_us" := JInt(Pow2(1024))]
  }

  lemma OversizedRaises()
    ensures ValidateResponse(Oversized()).Good? && Typed(Oversized()) == BoardReply(1, OK, None, true)
  {
    hide Pow2;
    var m := Oversized();
    assert ReportedTime(m) == JInt(Pow2(1024));
    assert FloatLimit() == Pow2(1024) - Pow2(970);
  }

  /** One board, one command, and the board's own valid response to it: the command
      is lost. */
  lemma OneBoardCanLose(s: Sys, a: BoardId, m: Object, name: string) returns (states: seq<Sys>)
    requires Init(s) && s.ctl.cfg.boards == [a] && a != LOCAL_TARGET && Declares(m, name)
    requires s.ctl.cfg.defaultTimeout <= MAX_COMMAND_TIMEOUT_S && s.ctl.cfg.defaultCap >= 0.0
    ensures ValidateResponse(Oversized()).Good?
            && Run(states, Joining(a, m) + [RouteCommand(Plain(a, name), ANY), ResponseArrives(a, Typed(Oversized()))])
    ensures states[0] == s && !Conserved(Last(states).ctl)
  {
    hide Step, StepAt, Forfeits, Conserved, Sound, Registered, Init, Plain, Declares, Untouched, Valid, Oversized,
         Typed;
    OversizedRaises();
    var before := FirstRun(s, a, m, name);
    RaiseForfeits(Last(before), a, Typed(Oversized()));
    var r1, r2 := RouteCommand(Plain(a, name), ANY), ResponseArrives(a, Typed(Oversized()));
    states := ForfeitRun(before, Joining(a, m) + [r1], r2);
    assert Joining(a, m) + [r1] + [r2] == Joining(a, m) + [r1, r2];
  }

  lemma RaiseForfeits(s: Sys, a: BoardId, r: BoardReply)
    requires Valid(s.ctl) && s.phase.Keys == s.ctl.boards.Keys && a in s.ctl.boards && 1 in s.ctl.pending.m
    requires r == BoardReply(1, OK, None, true)
    ensures Forfeits(s, ResponseArrives(a, r))
  {
  }

  // --------------------------------------------------- another board's answer

  const REPLY: BoardReply := BoardReply(1, OK, None, false)

  lemma ReplyStep(s: Sys, a: BoardId) returns (t: Sys)
    requires Valid(s.ctl) && s.phase.Keys == s.ctl.boards.Keys && a in s.ctl.boards
    ensures Step(s, ResponseArrives(a, REPLY), t)
  {
    t := Next(s, ResponseArrives(a, REPLY));
  }

  /** Two boards and one command, for `b`. A response from `a` under seq 1, which
      nobody asked it for, answers it, and nothing is lost by that. */
  lemma StrangerAnswers(s: Sys, a: BoardId, b: BoardId, m: Object, name: string) returns (states: seq<Sys>)
    requires Init(s) && s.ctl.cfg.boards == [a, b] && a != LOCAL_TARGET && b != LOCAL_TARGET && Declares(m, name)
    requires s.ctl.cfg.defaultTimeout <= MAX_COMMAND_TIMEOUT_S && s.ctl.cfg.defaultCap >= 0.0
    ensures Run(states, Joining(a, m) + Joining(b, m) + [RouteCommand(Plain(b, name), ANY), ResponseArrives(a, REPLY)])
    ensures var before, after := states[7].ctl, states[8].ctl;
            && |before.accepted| == 1 && before.accepted[0].board == b != a
            && 0 !in before.ledger.outcome && 0 in after.ledger.outcome && after.ledger.outcome[0].status == OK
            && Conserved(after)
  {
    hide Step, StepAt, Forfeits, Conserved, Sound, Registered, Init, Plain, Declares, Untouched, Valid, Correlates;
    TwoBoards(s, a, b);
    StartRun(s, a);
    StartRun(s, b);
    var up := JoinRun([s], [], a, b, m, name);
    up := JoinRun(up, [] + Joining(a, m), b, a, m, name);
    var events := [] + Joining(a, m) + Joining(b, m);
    var before := RouteRun(up, events, b, a, m, name);
    var r1, r2 := RouteCommand(Plain(b, name), ANY), ResponseArrives(a, REPLY);
    var t := ReplyStep(Last(before), a);
    Extend(before, events + [r1], r2, t);
    states := before + [t];
    var all := events + [r1] + [r2];
    assert all == Joining(a, m) + Joining(b, m) + [r1, r2];
    assert states[7] == Last(before) && states[8] == t;
    ResponsesCorrelate(states, all, 7, a, REPLY);
    AnswersOnlyOne(states[7].ctl, states[8].ctl);
    NothingLostIffClean(states, all, 7);
    ReplyTakesNone(states[7], a, states[8]);
    AllAnswered(states[8].ctl);
  }

  lemma ReplyTakesNone(s: Sys, a: BoardId, t: Sys)
    requires Sound(s.ctl) && Step(s, ResponseArrives(a, REPLY), t)
    ensures t.ctl.accepted == s.ctl.accepted
  {
    hide Sound, CtlNext;
    StepWrites(s, ResponseArrives(a, REPLY));
  }

  lemma AllAnswered(c: Ctl)
    requires |c.accepted| == 1 && 0 in c.ledger.outcome
    ensures Conserved(c)
  {
  }

  lemma AnswersOnlyOne(c: Ctl, d: Ctl)
    requires |c.accepted| == 1 && 1 in c.pending.m && Correlates(c, d, REPLY)
    ensures 0 !in c.ledger.outcome && 0 in d.ledger.outcome && d.ledger.outcome[0].status == OK
  {
    assert c.pending.m[1].id == 0;
  }
}
