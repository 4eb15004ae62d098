/** In every run the gate table of each board is that of the schemas it has sent. */
module Gates {
  import opened Basics
  import opened Protocol
  import opened SchemaGate
  import opened Controller
  import opened Steps
  import opened System
  import opened Loss
  import opened Resolvers

  /** The schemas that arrived from board `b`, in order. */
  function SchemasFrom(events: seq<Event>, b: BoardId): seq<Object> {
    if events == [] then []
    else
      var e := events[|events| - 1];
      SchemasFrom(events[..|events| - 1], b) + if e.SchemaArrives? && e.board == b then [e.schema] else []
  }

  /** Registrations stand still. */
  ghost predicate SameRegs(c: Ctl, d: Ctl) {
    d.boards.Keys == c.boards.Keys && forall b :: b in c.boards ==> d.boards[b].reg == c.boards[b].reg
  }

  lemma DispatchRegs(c: Ctl, m: Ctl, b: BoardId)
    requires SameRegs(c, m) && b in m.boards && m.pending.Valid()
    ensures SameRegs(c, DispatchNext(m, b))
  {
  }

  lemma RouteRegs(c: Ctl, command: Command, local: Reply)
    requires Valid(c)
    ensures SameRegs(c, Route(c, command, local).0)
  {
    hide DispatchNext;
    if Accepts(c, command) { DispatchRegs(c, Enqueue(c, command), command.target); }
  }

  lemma ResponseRegs(c: Ctl, r: BoardReply)
    requires Valid(c)
    ensures SameRegs(c, HandleResponse(c, r))
  {
    hide DispatchNext, Settle, CancelTimeout, RelayedReply, TakeOut;
    if r.boardSeq in c.pending.m {
      TakeOutFrame(c, r.boardSeq);
      if !r.overflows { DispatchRegs(c, Matched(c, r), c.pending.m[r.boardSeq].board); }
    }
  }

  lemma TimerRegs(c: Ctl, id: Id)
    requires Valid(c) && id in c.timers.asleep
    ensures SameRegs(c, FireTimer(c, id))
  {
    hide DispatchNext, ResolveError;
    var k := c.timers.asleep[id].boardSeq;
    if k in c.pending.m { DispatchRegs(c, TimedOut(c, id), c.pending.m[k].board); }
  }

  lemma ResumeRegs(c: Ctl, id: Id)
    requires Valid(c) && id in c.writing
    ensures SameRegs(c, ResumeWrite(c, id))
  {
  }

  lemma TriggerRegs(c: Ctl)
    requires Valid(c)
    ensures SameRegs(c, TriggerEstop(c))
  {
    hide ResolveAll, Queued, Valid, ReadyBoards;
    BoardsListed(c);
  }

  lemma FailRegs(c: Ctl)
    requires Valid(c)
    ensures SameRegs(c, FailRemaining(c))
  {
    hide ResolveAll, Queued, Withdraw;
  }

  lemma CloseRegs(c: Ctl)
    ensures SameRegs(c, CloseWriters(c))
  {
  }

  lemma DownRegs(c: Ctl, b: BoardId)
    requires Valid(c) && b in c.boards
    ensures SameRegs(c, BoardDown(c, b))
  {
    hide ResolveAll, CancelAll, OnBoard;
  }

  lemma CommandRegs(s: Sys, e: Event)
    requires Enabled(s, e) && OnCommand(e)
    ensures SameRegs(s.ctl, CtlNext(s, e))
  {
    hide SameRegs, Route, ResumeWrite, HandleResponse, FireTimer;
    var c := s.ctl;
    if e.RouteCommand? { RouteRegs(c, e.command, e.local); }
    else if e.WriteReturns? { ResumeRegs(c, e.id); }
    else if e.ResponseArrives? { ResponseRegs(c, e.reply); }
    else if e.TimerFires? { TimerRegs(c, e.id); }
    else { AbortRegs(c, e.id); }
  }

  lemma AbortRegs(c: Ctl, id: Id)
    requires id in c.writing
    ensures SameRegs(c, AbortWrite(c, id))
  {
  }

  lemma OtherRegs(s: Sys, e: Event)
    requires Enabled(s, e) && !OnCommand(e) && !e.SchemaArrives?
    ensures SameRegs(s.ctl, CtlNext(s, e))
  {
    hide TriggerEstop, FailRemaining, CloseWriters, BoardDown, RunEstopTask, Valid;
    if e.EstopTriggered? { TriggerRegs(s.ctl); }
    else if e.ShutdownFails? { FailRegs(s.ctl); }
    else if e.WritersClose? { CloseRegs(s.ctl); }
    else if e.LivenessExpires? || e.ReportDown? { DownRegs(s.ctl, e.board); }
    else if e.EstopTaskRuns? { TaskRegs(s.ctl, e.board); }
  }

  lemma TaskRegs(c: Ctl, b: BoardId)
    requires b in c.boards && b in c.estopTasks
    ensures SameRegs(c, RunEstopTask(c, b))
  {
  }

  /** Only an arriving schema changes a registration, and only that board's. */
  lemma StepRegs(s: Sys, e: Event, t: Sys)
    requires Step(s, e, t)
    ensures t.ctl.boards.Keys == s.ctl.boards.Keys
    ensures forall b :: b in s.ctl.boards ==>
              t.ctl.boards[b].reg == if e.SchemaArrives? && e.board == b then Register(s.ctl.boards[b].reg, e.schema)
                                     else s.ctl.boards[b].reg
  {
    if e.SchemaArrives? { SchemaRegs(s.ctl, e.board, e.schema); }
    else if OnCommand(e) { CommandRegs(s, e); }
    else { OtherRegs(s, e); }
    hide CtlNext, Valid;
  }

  lemma SchemaRegs(c: Ctl, b: BoardId, m: Object)
    requires b in c.boards
    ensures var d := RegisterAndAssert(c, b, m);
            && d.boards.Keys == c.boards.Keys
            && forall x :: x in c.boards ==> d.boards[x].reg == if x == b then Register(c.boards[b].reg, m)
               else c.boards[x].reg
  {
  }

  /** In every run, for every board: its registration is the outcome of the schemas
      that arrived from it. The dispatch gate equals `blocked_by_estop` of the last
      accepted schema's effective record, with absent meaning blocked; the revision
      counts the changes of that record; refused schemas left no trace. */
  lemma {:induction false} GatesFollowSchemas(states: seq<Sys>, events: seq<Event>, n: nat, b: BoardId)
    requires Run(states, events) && n <= |events| && b in states[n].ctl.boards
    ensures var r, ms := states[n].ctl.boards[b].reg, SchemasFrom(events[..n], b);
            && r == RegisterAll(ms) && GateAgrees(r)
            && r.revision == Changes(Records(ms))
            && r.record == (if Records(ms) == [] then None else Some(Records(ms)[|Records(ms)| - 1]))
  {
    hide Init, Step, RegisterAll, GateAgrees, Changes, Records, Register;
    RegistrationHistory(SchemasFrom(events[..n], b));
    if n == 0 {
      FirstRegs(states[0], b);
    } else {
      AtStep(states, events, n - 1);
      StepRegs(states[n - 1], events[n - 1], states[n]);
      GatesFollowSchemas(states, events, n - 1, b);
      assert events[..n][..n - 1] == events[..n - 1];
      var e := events[n - 1];
      if e.SchemaArrives? && e.board == b {
        RegisterOne(SchemasFrom(events[..n - 1], b), e);
      } else {
        assert SchemasFrom(events[..n], b) == SchemasFrom(events[..n - 1], b);
      }
    }
  }

  lemma FirstRegs(s: Sys, b: BoardId)
    requires Init(s) && b in s.ctl.boards
    ensures s.ctl.boards[b].reg == RegisterAll([])
  {
  }

  lemma RegisterOne(ms: seq<Object>, e: Event)
    requires e.SchemaArrives?
    ensures RegisterAll(ms + [e.schema]) == Register(RegisterAll(ms), e.schema)
  {
    assert (ms + [e.schema])[..|ms|] == ms;
  }
}
