/** Schema registration: the e-stop gate table, the effective schema record that
    is built beside it, and the schema revision. */
module SchemaGate {
  import opened Basics
  import opened Protocol

  datatype SchemaRecord = SchemaRecord(effective: Object, version: string, firmware: Option<string>)

  /** What a board's runtime keeps of its registrations. */
  datatype Registration = Registration(record: Option<SchemaRecord>, revision: nat, gates: map<string, bool>)

  const UNREGISTERED: Registration := Registration(None, 0, map[])

  // ------------------------------------------------------------- validation

  predicate ValidMeta(v: Json) {
    && v.JObj?
    && ("args" in v.fields ==> v.fields["args"].JObj?)
    && ("blocked_by_estop" in v.fields ==> v.fields["blocked_by_estop"].JBool?)
  }

  /** `schema.get("commands", {})`. */
  function CommandsOf(body: Object): Object
    requires "commands" in body ==> body["commands"].JObj?
  {
    if "commands" in body then body["commands"].fields else map[]
  }

  predicate ValidBody(body: Object) {
    && ("commands" in body ==> body["commands"].JObj?)
    && forall n :: n in CommandsOf(body) ==> ValidMeta(CommandsOf(body)[n])
  }

  function ValidateSchema(m: Object): Outcome<()> {
    var kind :- RequiredStr(m, "type");
    if kind != "schema" then Bad(INVALID_TYPE)
    else
      var _ :- RequiredUint64(m, "seq");
      var _ :- RequiredStr(m, "source");
      var _ :- RequiredStr(m, "target");
      var _ :- RequiredStr(m, "protocol_version");
      var body :- RequiredObject(m, "schema");
      if ValidBody(body) then Good(()) else Bad(INVALID_TYPE)
  }

  function CheckProtocolVersion(m: Object): (r: Outcome<()>)
    ensures r.Good? ==> ValidateSchema(m).Good?
  {
    var _ :- ValidateSchema(m);
    if m["protocol_version"].s != PROTOCOL_VERSION then Bad(PROTOCOL_VERSION_MISMATCH) else Good(())
  }

  /** A schema message a board may register with, field by field. */
  ghost predicate Acceptable(m: Object) {
    && Get(m, "type") == JStr("schema") && Get(m, "protocol_version") == JStr("1")
    && Get(m, "seq").JInt? && 0 <= Get(m, "seq").i < 0x1_0000_0000_0000_0000
    && Get(m, "source").JStr? && Get(m, "target").JStr? && Get(m, "schema").JObj?
    && WellDeclared(m["schema"].fields)
  }

  /** If a schema lists commands, each is an object, with arguments as an object and
      `blocked_by_estop` as a boolean, if at all. */
  ghost predicate WellDeclared(body: Object) {
    "commands" in body ==>
      && body["commands"].JObj?
      && var commands := body["commands"].fields;
         forall n :: n in commands ==>
           && commands[n].JObj?
           && ("args" in commands[n].fields ==> commands[n].fields["args"].JObj?)
           && ("blocked_by_estop" in commands[n].fields ==> commands[n].fields["blocked_by_estop"].JBool?)
  }

  /** Registration goes through for exactly these messages; one that only differs in its
      version is refused for that. */
  lemma RegistersIff(m: Object)
    ensures CheckProtocolVersion(m).Good? <==> Acceptable(m)
    ensures CheckProtocolVersion(m) == Bad(PROTOCOL_VERSION_MISMATCH)
            <==> !Acceptable(m) && Get(m, "protocol_version").JStr? && Acceptable(m["protocol_version" := JStr("1")])
  {
    hide ValidBody, WellDeclared;
    var fixed := m["protocol_version" := JStr("1")];
    if Get(m, "schema").JObj? { BodyIff(m["schema"].fields); }
    assert forall f :: f != "protocol_version" ==> Get(fixed, f) == Get(m, f);
  }

  lemma BodyIff(body: Object)
    ensures ValidBody(body) <==> WellDeclared(body)
  {
    if "commands" in body && body["commands"].JObj? { assert CommandsOf(body) == body["commands"].fields; }
  }

  // ---------------------------------------------------- the two derivations

  /** A command that does not declare itself is blocked. */
  function Blocked(meta: Object): bool
    requires ValidMeta(JObj(meta))
  {
    if "blocked_by_estop" in meta then meta["blocked_by_estop"].b else true
  }

  function GateTable(body: Object): map<string, bool>
    requires ValidBody(body)
  {
    var commands := CommandsOf(body);
    map n | n in commands :: Blocked(commands[n].fields)
  }

  function Effective(body: Object): Object
    requires ValidBody(body)
  {
    var commands := CommandsOf(body);
    body["commands" := JObj(map n | n in commands ::
      JObj(commands[n].fields["blocked_by_estop" := JBool(Blocked(commands[n].fields))]))]
  }

  function RecordOf(m: Object): SchemaRecord
    requires ValidateSchema(m).Good?
  {
    var body := m["schema"].fields;
    var firmware := Get(body, "firmware_version");
    SchemaRecord(Effective(body), m["protocol_version"].s, if firmware.JStr? then Some(firmware.s) else None)
  }

  function Register(r: Registration, m: Object): Registration {
    if CheckProtocolVersion(m).Bad? then r
    else
      var record := RecordOf(m);
      Registration(Some(record), if r.record == Some(record) then r.revision else r.revision + 1,
                   GateTable(m["schema"].fields))
  }

  // ------------------------------------------------------------------ lemmas

  /** The gate table and the effective schema say the same of every command. */
  lemma GateMatchesEffective(body: Object)
    requires ValidBody(body)
    ensures ValidBody(Effective(body))
    ensures CommandsOf(Effective(body)).Keys == GateTable(body).Keys == CommandsOf(body).Keys
    ensures forall n :: n in GateTable(body) ==>
              var declared := CommandsOf(body)[n].fields;
              && CommandsOf(Effective(body))[n].fields["blocked_by_estop"] == JBool(GateTable(body)[n])
              && (GateTable(body)[n] <==> Get(declared, "blocked_by_estop") != JBool(false))
  {
  }

  /** What is recorded of an accepted schema: the body as sent but for the gates, the one
      accepted version, and the firmware version if it is a string. */
  lemma RecordKeepsSchema(m: Object)
    requires CheckProtocolVersion(m).Good?
    ensures var body, r := m["schema"].fields, RecordOf(m);
            && r.version == "1" && (forall s :: r.firmware == Some(s) <==> Get(body, "firmware_version") == JStr(s))
            && (forall f :: f != "commands" ==> Get(r.effective, f) == Get(body, f))
            && forall n, f :: n in CommandsOf(body) && f != "blocked_by_estop" ==>
                 && n in CommandsOf(r.effective) && CommandsOf(r.effective)[n].JObj?
                 && Get(CommandsOf(r.effective)[n].fields, f) == Get(CommandsOf(body)[n].fields, f)
  {
    var body := m["schema"].fields;
    GateMatchesEffective(body);
    assert forall n :: n in CommandsOf(body) ==>
      CommandsOf(Effective(body))[n]
      == JObj(CommandsOf(body)[n].fields["blocked_by_estop" := JBool(Blocked(CommandsOf(body)[n].fields))]);
  }

  /** Materialising the gates is idempotent: an effective schema is its own
      effective schema, with the same gate table. */
  lemma EffectiveIdempotent(body: Object)
    requires ValidBody(body)
    ensures ValidBody(Effective(body))
    ensures Effective(Effective(body)) == Effective(body)
    ensures GateTable(Effective(body)) == GateTable(body)
  {
    GateMatchesEffective(body);
    var once := Effective(body);
    var c1, c2 := CommandsOf(once), CommandsOf(Effective(once));
    forall n | n in c1 ensures c2[n] == c1[n] {
      assert c1[n].fields["blocked_by_estop" := JBool(Blocked(c1[n].fields))] == c1[n].fields;
    }
    assert c2 == c1;
  }

  /** The dispatch gate of a registration agrees with its effective record. */
  ghost predicate GateAgrees(r: Registration) {
    match r.record
    case None => r.gates == map[] && r.revision == 0
    case Some(record) =>
      && ValidBody(record.effective)
      && r.gates == GateTable(record.effective)
      && r.revision >= 1
  }

  lemma RegisterKeepsGate(r: Registration, m: Object)
    requires GateAgrees(r)
    ensures GateAgrees(Register(r, m))
  {
    if CheckProtocolVersion(m).Good? {
      EffectiveIdempotent(m["schema"].fields);
    }
  }

  // Histories of registration attempts.

  function RegisterAll(ms: seq<Object>): Registration {
    if ms == [] then UNREGISTERED else Register(RegisterAll(ms[..|ms| - 1]), ms[|ms| - 1])
  }

  /** The records of the accepted attempts, in order. */
  function Records(ms: seq<Object>): seq<SchemaRecord> {
    if ms == [] then []
    else
      var m := ms[|ms| - 1];
      Records(ms[..|ms| - 1]) + if CheckProtocolVersion(m).Good? then [RecordOf(m)] else []
  }

  /** How often the record differs from the one before it; the first counts. */
  function Changes(rs: seq<SchemaRecord>): nat {
    if rs == [] then 0
    else
      var n := |rs| - 1;
      Changes(rs[..n]) + if n > 0 && rs[n - 1] == rs[n] then 0 else 1
  }

  /** After any history of attempts: the record is the last accepted one, the
      gate table is that record's, the revision counts the record's changes, and
      refused attempts leave no trace. */
  lemma {:induction false} RegistrationHistory(ms: seq<Object>)
    ensures var r, rs := RegisterAll(ms), Records(ms);
            && r.record == (if rs == [] then None else Some(rs[|rs| - 1]))
            && r.revision == Changes(rs)
            && GateAgrees(r)
  {
    hide RecordOf, GateTable, ValidateSchema, CheckProtocolVersion;
    if ms != [] {
      hide GateAgrees;
      var front, m := ms[..|ms| - 1], ms[|ms| - 1];
      RegistrationHistory(front);
      RegisterKeepsGate(RegisterAll(front), m);
      if CheckProtocolVersion(m).Good? {
        var rs := Records(front);
        assert (rs + [RecordOf(m)])[..|rs|] == rs;
      } else {
        assert Records(ms) == Records(front);
      }
    }
  }
}
