/** The newline-JSON contract of protocol.py, on decoded JSON objects: response
    and command validation, the seq rewriting on each hop, and error replies. */
module Protocol {
  import opened Basics

  const UINT64_MAX: int := 0xFFFF_FFFF_FFFF_FFFF
  const PROTOCOL_VERSION: string := "1"

  datatype Json =
    | JNull
    | JBool(b: bool)
    | JInt(i: int)
    | JReal(x: real)
    | JStr(s: string)
    | JList(items: seq<Json>)
    | JObj(fields: Object)

  type Object = map<string, Json>

  datatype Status = OK | ERROR | TIMEOUT

  datatype ErrorCode =
    | INVALID_JSON | MISSING_FIELD | INVALID_TYPE | UNKNOWN_TARGET | UNKNOWN_COMMAND
    | INVALID_ARGUMENT | BOARD_UNAVAILABLE | BOARD_BUSY | COMMAND_TIMEOUT | ESTOP_ACTIVE
    | PROTOCOL_VERSION_MISMATCH | CONTROLLER_SHUTDOWN | INTERNAL_ERROR

  /** A validation error carries the code of the structured error object. */
  datatype Outcome<+T> = Good(value: T) | Bad(code: ErrorCode) {
    predicate IsFailure() { Bad? }
    function PropagateFailure<U>(): Outcome<U> requires Bad? { Bad(code) }
    function Extract(): T requires Good? { value }
  }

  function StatusName(st: Status): string {
    match st
    case OK => "ok"
    case ERROR => "error"
    case TIMEOUT => "timeout"
  }

  function ParseStatus(s: string): (r: Outcome<Status>)
    ensures forall st: Status :: r == Good(st) <==> s == StatusName(st)
  {
    if s == "ok" then Good(OK)
    else if s == "error" then Good(ERROR)
    else if s == "timeout" then Good(TIMEOUT)
    else Bad(INVALID_TYPE)
  }

  function CodeName(c: ErrorCode): string {
    match c
    case INVALID_JSON => "INVALID_JSON"
    case MISSING_FIELD => "MISSING_FIELD"
    case INVALID_TYPE => "INVALID_TYPE"
    case UNKNOWN_TARGET => "UNKNOWN_TARGET"
    case UNKNOWN_COMMAND => "UNKNOWN_COMMAND"
    case INVALID_ARGUMENT => "INVALID_ARGUMENT"
    case BOARD_UNAVAILABLE => "BOARD_UNAVAILABLE"
    case BOARD_BUSY => "BOARD_BUSY"
    case COMMAND_TIMEOUT => "COMMAND_TIMEOUT"
    case ESTOP_ACTIVE => "ESTOP_ACTIVE"
    case PROTOCOL_VERSION_MISMATCH => "PROTOCOL_VERSION_MISMATCH"
    case CONTROLLER_SHUTDOWN => "CONTROLLER_SHUTDOWN"
    case INTERNAL_ERROR => "INTERNAL_ERROR"
  }

  const ALL_CODES: seq<ErrorCode> := [
    INVALID_JSON, MISSING_FIELD, INVALID_TYPE, UNKNOWN_TARGET, UNKNOWN_COMMAND,
    INVALID_ARGUMENT, BOARD_UNAVAILABLE, BOARD_BUSY, COMMAND_TIMEOUT, ESTOP_ACTIVE,
    PROTOCOL_VERSION_MISMATCH, CONTROLLER_SHUTDOWN, INTERNAL_ERROR
  ]

  function FindCode(s: string, i: nat): (r: Outcome<ErrorCode>)
    requires i <= |ALL_CODES|
    ensures r.Good? ==> CodeName(r.value) == s
    ensures r.Bad? ==> forall j :: i <= j < |ALL_CODES| ==> CodeName(ALL_CODES[j]) != s
    decreases |ALL_CODES| - i
  {
    if i == |ALL_CODES| then Bad(INVALID_TYPE)
    else if CodeName(ALL_CODES[i]) == s then Good(ALL_CODES[i])
    else FindCode(s, i + 1)
  }

  function ParseCode(s: string): Outcome<ErrorCode> { FindCode(s, 0) }

  /** Names and codes correspond one to one. */
  lemma ParseCodeInvertsName(c: ErrorCode)
    ensures ParseCode(CodeName(c)) == Good(c)
  {
    var k := match c
      case INVALID_JSON => 0 case MISSING_FIELD => 1 case INVALID_TYPE => 2 case UNKNOWN_TARGET => 3
      case UNKNOWN_COMMAND => 4 case INVALID_ARGUMENT => 5 case BOARD_UNAVAILABLE => 6 case BOARD_BUSY => 7
      case COMMAND_TIMEOUT => 8 case ESTOP_ACTIVE => 9 case PROTOCOL_VERSION_MISMATCH => 10
      case CONTROLLER_SHUTDOWN => 11 case INTERNAL_ERROR => 12;
    assert ALL_CODES[k] == c;
    var r := ParseCode(CodeName(c));
    assert r.Good?;
    CodeNameInjective(r.value, c);
  }

  lemma CodeNameInjective(c: ErrorCode, d: ErrorCode)
    requires CodeName(c) == CodeName(d)
    ensures c == d
  {
    var a, b := CodeName(c), CodeName(d);
    assert |a| == |b| && a[0] == b[0] && a[|a| - 1] == b[|b| - 1] && a[1] == b[1];
  }

  // ---------------------------------------------------------------- fields

  function RequiredStr(m: Object, f: string): Outcome<string> {
    if f !in m then Bad(MISSING_FIELD)
    else if !m[f].JStr? then Bad(INVALID_TYPE)
    else Good(m[f].s)
  }

  function RequiredObject(m: Object, f: string): Outcome<Object> {
    if f !in m then Bad(MISSING_FIELD)
    else if !m[f].JObj? then Bad(INVALID_TYPE)
    else Good(m[f].fields)
  }

  predicate IsUint64(v: int) { 0 <= v <= UINT64_MAX }

  /** A JSON boolean is a Python int too, and is refused explicitly. */
  function RequiredUint64(m: Object, f: string): (r: Outcome<nat>) {
    if f !in m then Bad(MISSING_FIELD)
    else if !m[f].JInt? || !IsUint64(m[f].i) then Bad(INVALID_TYPE)
    else Good(m[f].i)
  }

  /** Python's `isinstance(v, int | float)`, which a bool satisfies. */
  predicate Numeric(v: Json) { v.JInt? || v.JReal? || v.JBool? }

  /** `message.get(f)`. */
  function Get(m: Object, f: string): Json { if f in m then m[f] else JNull }

  // ------------------------------------------------------------- validation

  function ValidateCommand(m: Object): Outcome<()> {
    var _ :- RequiredUint64(m, "seq");
    var _ :- RequiredStr(m, "source");
    var _ :- RequiredStr(m, "target");
    var _ :- RequiredStr(m, "command");
    var _ :- RequiredObject(m, "args");
    if "controller_ts" in m && !Numeric(m["controller_ts"]) then Bad(INVALID_TYPE) else Good(())
  }

  function ValidateErrorField(m: Object, st: Status): Outcome<()> {
    if st == OK then
      if Get(m, "error") != JNull then Bad(INVALID_TYPE) else Good(())
    else
      var error :- RequiredObject(m, "error");
      var name :- RequiredStr(error, "code");
      var code :- ParseCode(name);
      var _ :- RequiredStr(error, "message");
      if st == TIMEOUT && code != COMMAND_TIMEOUT then Bad(INVALID_TYPE)
      else if st == ERROR && code == COMMAND_TIMEOUT then Bad(INVALID_TYPE)
      else Good(())
  }

  function ValidateResponse(m: Object): Outcome<()> {
    var _ :- RequiredUint64(m, "seq");
    var _ :- RequiredStr(m, "source");
    var _ :- RequiredStr(m, "target");
    var name :- RequiredStr(m, "status");
    var st :- ParseStatus(name);
    var _ :- ValidateErrorField(m, st);
    if !Get(m, "result").JNull? && !Get(m, "result").JObj? then Bad(INVALID_TYPE)
    else if !Get(m, "controller_ts").JNull? && !Numeric(Get(m, "controller_ts")) then Bad(INVALID_TYPE)
    else Good(())
  }

  // ---------------------------------------------------------------- builders

  /** The client command on the board hop. */
  function BuildBoardCommand(c: Object, boardSeq: int, board: string, controllerTs: real): Outcome<Object> {
    var _ :- ValidateCommand(c);
    if !IsUint64(boardSeq) then Bad(INVALID_TYPE)
    else Good(map[
      "type" := JStr("command"), "seq" := JInt(boardSeq), "controller_ts" := JReal(controllerTs),
      "source" := JStr("controller"), "target" := JStr(board),
      "command" := c["command"], "args" := c["args"]])
  }

  /** The board response on the client hop. */
  function BuildClientResponse(m: Object, clientSeq: int, clientTarget: string, boardSeq: int, latency: Option<real>)
    : Outcome<Object>
  {
    var _ :- ValidateResponse(m);
    if !IsUint64(clientSeq) || !IsUint64(boardSeq) then Bad(INVALID_TYPE)
    else
      var st :- ParseStatus(m["status"].s);
      var payload := if Get(m, "result").JObj? then Get(m, "result").fields else map[];
      var stamped := payload["board_seq" := JInt(boardSeq)];
      var timed := if latency.Some? then stamped["latency_ms" := JReal(latency.value)] else stamped;
      Good(map[
        "type" := JStr("response"), "seq" := JInt(clientSeq), "controller_ts" := Get(m, "controller_ts"),
        "source" := JStr("controller"), "target" := JStr(clientTarget), "status" := JStr(StatusName(st)),
        "result" := if st == OK then JObj(timed) else JNull, "error" := Get(m, "error")])
  }

  function BuildErrorResponse(replySeq: int, target: string, code: ErrorCode, text: string,
    st: Status): Outcome<Object> {
    if st == OK then Bad(INVALID_TYPE)
    else if st == TIMEOUT && code != COMMAND_TIMEOUT then Bad(INVALID_TYPE)
    else
      var final := if code == COMMAND_TIMEOUT then TIMEOUT else st;
      Good(map[
        "type" := JStr("response"), "seq" := JInt(replySeq), "source" := JStr("controller"),
        "target" := JStr(target), "status" := JStr(StatusName(final)), "result" := JNull,
        "error" := JObj(map["code" := JStr(CodeName(code)), "message" := JStr(text)])])
  }

  // --------------------------------------------------------- typed responses

  function Pow2(n: nat): (p: nat)
    ensures p >= 1
  {
    if n == 0 then 1 else 2 * Pow2(n - 1)
  }

  /** The least integer that Python's `float` refuses: halfway between the largest
      finite double and the next power of two, where rounding goes up. */
  function FloatLimit(): int { Pow2(1024) - Pow2(970) }

  /** The processing time a board reports, at the top level or inside the result. */
  function ReportedTime(m: Object): Json {
    if !Get(m, "board_proc_us").JNull? then Get(m, "board_proc_us")
    else if Get(m, "result").JObj? then Get(Get(m, "result").fields, "board_proc_us")
    else JNull
  }

  /** Converting the reported time raises: an integer no double can hold. */
  predicate TimeOverflows(m: Object) { ReportedTime(m).JInt? && ReportedTime(m).i >= FloatLimit() }

  /** What the dispatcher reads of a valid response; `overflows` tells that its
      reported processing time does not convert. */
  datatype BoardReply = BoardReply(boardSeq: nat, status: Status, code: Option<ErrorCode>, overflows: bool)

  /** The coupling every terminal answer keeps: no code on ok, and the timeout
      status exactly with COMMAND_TIMEOUT. */
  predicate Coupled(st: Status, code: Option<ErrorCode>) {
    && (st == OK <==> code.None?)
    && (st == TIMEOUT <==> code == Some(COMMAND_TIMEOUT))
  }

  function Typed(m: Object): (r: BoardReply)
    requires ValidateResponse(m).Good?
    ensures r.boardSeq <= UINT64_MAX && Coupled(r.status, r.code)
  {
    var st := ParseStatus(m["status"].s).value;
    BoardReply(m["seq"].i, st, if st == OK then None
      else Some(ParseCode(m["error"].fields["code"].s).value), TimeOverflows(m))
  }

  // ------------------------------------------------------------------ lemmas

  /** A valid response, field by field. */
  ghost predicate WellFormed(m: Object) {
    && Get(m, "seq").JInt? && 0 <= Get(m, "seq").i < 0x1_0000_0000_0000_0000
    && Get(m, "source").JStr? && Get(m, "target").JStr? && Get(m, "status").JStr?
    && (Get(m, "result").JNull? || Get(m, "result").JObj?)
    && (var ts := Get(m, "controller_ts"); ts.JNull? || ts.JInt? || ts.JReal? || ts.JBool?)
    && if m["status"].s == "ok" then Get(m, "error").JNull?
       else
         && m["status"].s in {"error", "timeout"} && Get(m, "error").JObj?
         && Get(m["error"].fields, "message").JStr? && Get(m["error"].fields, "code").JStr?
         && exists c :: m["error"].fields["code"].s == CodeName(c)
              && (m["status"].s == "timeout" <==> c == COMMAND_TIMEOUT)
  }

  lemma ValidResponseIff(m: Object)
    ensures ValidateResponse(m).Good? <==> WellFormed(m)
  {
    hide ParseCode, CodeName;
    if Get(m, "error").JObj? && Get(m["error"].fields, "code").JStr? {
      ParseCodeIff(m["error"].fields["code"].s);
    }
  }

  lemma ParseCodeIff(s: string)
    ensures forall c :: ParseCode(s) == Good(c) <==> s == CodeName(c)
  {
    hide CodeName;
    forall c ensures ParseCode(s) == Good(c) <==> s == CodeName(c) {
      if s == CodeName(c) { ParseCodeInvertsName(c); }
    }
  }

  /** A valid command, field by field. */
  lemma ValidCommandIff(m: Object)
    ensures ValidateCommand(m).Good? <==>
            && Get(m, "seq").JInt? && 0 <= Get(m, "seq").i < 0x1_0000_0000_0000_0000
            && Get(m, "source").JStr? && Get(m, "target").JStr? && Get(m, "command").JStr? && Get(m, "args").JObj?
            && ("controller_ts" in m ==>
                  m["controller_ts"].JInt? || m["controller_ts"].JReal? || m["controller_ts"].JBool?)
  {
  }

  /** What the dispatcher reads of a valid response. */
  lemma TypedReads(m: Object)
    requires ValidateResponse(m).Good?
    ensures var r := Typed(m);
            && m["seq"] == JInt(r.boardSeq) && m["status"] == JStr(StatusName(r.status))
            && (r.code.Some? <==> r.status != OK)
            && (r.code.Some? ==> m["error"].fields["code"] == JStr(CodeName(r.code.value)))
            && var top := Get(m, "board_proc_us");
               var inside := if Get(m, "result").JObj? then Get(m["result"].fields, "board_proc_us") else JNull;
               var time := if top.JNull? then inside else top;
               r.overflows <==> time.JInt? && time.i >= Pow2(1024) - Pow2(970)
  {
    hide Pow2, CodeName;
  }

  /** Relaying a valid response gives a valid response: same status and error,
      the client's own seq, and the board_seq inside an ok result. */
  lemma RelayKeepsMeaning(m: Object, clientSeq: int, clientTarget: string, boardSeq: int, latency: Option<real>)
    requires ValidateResponse(m).Good?
    ensures BuildClientResponse(m, clientSeq, clientTarget, boardSeq, latency).Good?
            <==> IsUint64(clientSeq) && IsUint64(boardSeq)
    ensures var r := BuildClientResponse(m, clientSeq, clientTarget, boardSeq, latency);
            r.Good? ==>
              && ValidateResponse(r.value).Good?
              && Typed(r.value).boardSeq == clientSeq
              && Typed(r.value).status == Typed(m).status && Typed(r.value).code == Typed(m).code
              && r.value["target"] == JStr(clientTarget)
              && (Typed(m).status == OK ==>
                    && r.value["result"].JObj?
                    && Get(r.value["result"].fields, "board_seq") == JInt(boardSeq)
                    && forall f :: f != "board_seq" && f != "latency_ms" && Get(m, "result").JObj? ==>
                         Get(r.value["result"].fields, f) == Get(Get(m, "result").fields, f))
              && (Typed(m).status != OK ==> r.value["result"] == JNull)
  {
    hide TimeOverflows, FindCode, StatusName;
    var r := BuildClientResponse(m, clientSeq, clientTarget, boardSeq, latency);
    if r.Good? {
      assert r.value["error"] == Get(m, "error");
      assert r.value["status"].s == m["status"].s;
      assert ValidateErrorField(r.value, Typed(m).status) == ValidateErrorField(m, Typed(m).status);
    }
  }

  /** What else a relayed response carries: the controller as its source, the board's
      error and timestamp, and the latency if there is one. */
  lemma RelayEnvelope(m: Object, clientSeq: int, clientTarget: string, boardSeq: int, latency: Option<real>)
    requires ValidateResponse(m).Good? && IsUint64(clientSeq) && IsUint64(boardSeq)
    ensures var r := BuildClientResponse(m, clientSeq, clientTarget, boardSeq, latency);
            && r.Good?
            && Get(r.value, "type") == JStr("response") && Get(r.value, "source") == JStr("controller")
            && Get(r.value, "seq") == JInt(clientSeq) && Get(r.value, "target") == JStr(clientTarget)
            && Get(r.value, "error") == Get(m, "error") && Get(r.value, "controller_ts") == Get(m, "controller_ts")
            && Get(r.value, "status") == m["status"]
            && (Get(m, "status") == JStr("ok") && latency.Some? ==>
                  && Get(r.value, "result").JObj?
                  && Get(r.value["result"].fields, "latency_ms") == JReal(latency.value))
  {
    hide ValidateErrorField;
  }

  /** An error reply is refused only for an ok status or a timeout status without
      its code; otherwise it is itself a valid response, coupled as required. */
  lemma ErrorReplyIsCoupled(replySeq: int, target: string, code: ErrorCode, text: string, st: Status)
    ensures var r := BuildErrorResponse(replySeq, target, code, text, st);
            && (r.Good? <==> st == ERROR || (st == TIMEOUT && code == COMMAND_TIMEOUT))
            && (r.Good? ==>
                  && r.value["type"] == JStr("response") && r.value["source"] == JStr("controller")
                  && r.value["target"] == JStr(target) && r.value["result"].JNull?
                  && r.value["error"].JObj? && Get(r.value["error"].fields, "message") == JStr(text)
                  && (ValidateResponse(r.value).Good? <==> IsUint64(replySeq))
                  && (IsUint64(replySeq) ==>
                        Typed(r.value)
                        == BoardReply(replySeq, if code == COMMAND_TIMEOUT then TIMEOUT else ERROR, Some(code), false)))
  {
    hide FindCode, FloatLimit;
    var r := BuildErrorResponse(replySeq, target, code, text, st);
    if r.Good? {
      ParseCodeInvertsName(code);
      var error := r.value["error"].fields;
      assert RequiredStr(error, "code") == Good(CodeName(code));
    }
  }

  /** Validation accepts a terminal answer only when its status and code agree. */
  lemma ValidationForcesCoupling(m: Object)
    requires RequiredUint64(m, "seq").Good? && RequiredStr(m, "source").Good? && RequiredStr(m, "target").Good?
    requires Get(m, "result").JNull? || Get(m, "result").JObj?
    requires Get(m, "controller_ts").JNull? || Numeric(Get(m, "controller_ts"))
    requires RequiredStr(m, "status").Good? && RequiredObject(m, "error").Good?
    requires RequiredStr(m["error"].fields, "code").Good? && RequiredStr(m["error"].fields, "message").Good?
    ensures ValidateResponse(m).Good? <==>
            exists st, c :: && m["status"].s == StatusName(st) && st != OK
                            && m["error"].fields["code"].s == CodeName(c) && Coupled(st, Some(c))
  {
    if ValidateResponse(m).Good? {
      var t := Typed(m);
      assert m["status"].s == StatusName(t.status) && m["error"].fields["code"].s == CodeName(t.code.value);
    }
    forall st, c | && m["status"].s == StatusName(st) && st != OK
                   && m["error"].fields["code"].s == CodeName(c) && Coupled(st, Some(c))
      ensures ValidateResponse(m).Good?
    {
      ParseCodeInvertsName(c);
      assert ParseStatus(m["status"].s) == Good(st);
    }
  }

  /** The board hop is a valid command under the board's seq that keeps the
      client's command and arguments and none of its other fields. */
  lemma BoardHopKeepsCommand(c: Object, boardSeq: int, board: string, controllerTs: real)
    ensures var r := BuildBoardCommand(c, boardSeq, board, controllerTs);
            && (r.Good? <==> ValidateCommand(c).Good? && IsUint64(boardSeq))
            && (r.Good? ==>
                  && ValidateCommand(r.value).Good?
                  && r.value["type"] == JStr("command") && r.value["source"] == JStr("controller")
                  && r.value["controller_ts"] == JReal(controllerTs)
                  && r.value["seq"] == JInt(boardSeq) && r.value["target"] == JStr(board)
                  && r.value["command"] == c["command"] && r.value["args"] == c["args"]
                  && r.value.Keys == {"type", "seq", "controller_ts", "source", "target", "command", "args"})
  {
  }
}
