/** What tables keyed by board and board seq together would change. The variant is a
    product: one dispatcher per board, each over that board alone, with the events of
    the controller as a whole shared by all. That boards do not touch each other's
    tables holds by this construction; what is proved is that nothing else goes wrong
    in it: for any number of boards a command is lost only to a raising response of
    its own board. */
module PerBoard {
  import opened Controller
  import opened Accounts
  import opened Conservation
  import opened System
  import opened Loss
  import opened Distinct

  /** For each board the dispatcher of that board alone. */
  type Family = map<BoardId, Sys>

  /** What happens to one board, or to all of them at once. */
  datatype Happening = At(board: BoardId, event: Event) | Everywhere(event: Event)

  predicate Shared(e: Event) {
    e.EstopTriggered? || e.EstopReset? || e.ShutdownBegins? || e.ShutdownFails? || e.WritersClose? || e.Tick?
  }

  /** Commands reach the tables of their target, and responses those of the board
      they come from. */
  predicate Concerns(e: Event, b: BoardId) {
    && !Shared(e)
    && (e.RouteCommand? ==> e.command.target == b)
    && (e.ResponseArrives? ==> e.board == b)
  }

  ghost predicate FamilyStep(f: Family, h: Happening, g: Family) {
    && g.Keys == f.Keys
    && match h
       case At(b, e) => b in f && Concerns(e, b) && Step(f[b], e, g[b]) && forall x :: x in f && x != b ==> g[x] == f[x]
       case Everywhere(e) => Shared(e) && forall x :: x in f ==> Step(f[x], e, g[x])
  }

  ghost predicate FamilyInit(f: Family) {
    forall b :: b in f ==> Init(f[b]) && f[b].ctl.cfg.boards == [b]
  }

  ghost predicate FamilyStepAt(fs: seq<Family>, hs: seq<Happening>, i: nat) {
    i < |hs| && i + 1 < |fs| && FamilyStep(fs[i], hs[i], fs[i + 1])
  }

  ghost predicate FamilyRun(fs: seq<Family>, hs: seq<Happening>) {
    && |fs| == |hs| + 1 && FamilyInit(fs[0])
    && forall i: nat :: i < |hs| ==> FamilyStepAt(fs, hs, i)
  }

  lemma {:induction false} SameBoards(fs: seq<Family>, hs: seq<Happening>, n: nat)
    requires FamilyRun(fs, hs) && n <= |hs|
    ensures fs[n].Keys == fs[0].Keys
  {
    hide FamilyInit, Step;
    if n > 0 {
      SameBoards(fs, hs, n - 1);
      assert FamilyStepAt(fs, hs, n - 1);
    }
  }

  /** A response from `b` took out the entry of its seq and raised. */
  predicate RaisesAt(f: Family, h: Happening, b: BoardId) {
    b in f && h.At? && h.board == b && Raises(f[b].ctl, h.event)
  }

  predicate NeverRaises(fs: seq<Family>, hs: seq<Happening>, n: nat, b: BoardId)
    requires n <= |hs| < |fs|
  {
    forall i :: 0 <= i < n ==> !RaisesAt(fs[i], hs[i], b)
  }

  /** What a run of the family is for one of its boards: a run of that board alone. */
  ghost predicate Mirrors(states: seq<Sys>, events: seq<Event>, fs: seq<Family>, hs: seq<Happening>, n: nat, b: BoardId)
    requires n <= |hs| < |fs|
  {
    && Run(states, events) && b in fs[n] && Last(states) == fs[n][b]
    && states[0].ctl.cfg.boards == [b]
    && (NoRaise(states, events, |events|) <==> NeverRaises(fs, hs, n, b))
  }

  lemma MirrorExtends(states: seq<Sys>, events: seq<Event>, fs: seq<Family>, hs: seq<Happening>, n: nat, b: BoardId,
    e: Event)
    requires n < |hs| < |fs| && Mirrors(states, events, fs, hs, n, b)
    requires b in fs[n + 1] && Step(fs[n][b], e, fs[n + 1][b])
    requires Raises(fs[n][b].ctl, e) <==> RaisesAt(fs[n], hs[n], b)
    ensures Mirrors(states + [fs[n + 1][b]], events + [e], fs, hs, n + 1, b)
  {
    hide Init, Step, StepAt, Raises, RaisesAt;
    var t := fs[n + 1][b];
    Extend(states, events, e, t);
    var after, more := states + [t], events + [e];
    assert NoRaise(after, more, |more|) <==> NoRaise(states, events, |events|) && !Raises(fs[n][b].ctl, e) by {
      forall i | 0 <= i < |events| ensures after[i] == states[i] && more[i] == events[i] {}
      assert after[|events|] == fs[n][b] && more[|events|] == e;
      RaiseSplits(states, events, after, more);
    }
    NeverSplits(fs, hs, n, b);
  }

  lemma RaiseSplits(states: seq<Sys>, events: seq<Event>, after: seq<Sys>, more: seq<Event>)
    requires |states| == |events| + 1 && |after| == |more| + 1 && |more| == |events| + 1
    requires forall i :: 0 <= i < |events| ==> after[i] == states[i] && more[i] == events[i]
    ensures NoRaise(after, more, |more|)
            <==> NoRaise(states, events, |events|) && !Raises(after[|events|].ctl, more[|events|])
  {
    hide Raises;
    if NoRaise(after, more, |more|) {
      forall i | 0 <= i < |events| ensures !Raises(states[i].ctl, events[i]) {
        assert !Raises(after[i].ctl, more[i]);
      }
    }
  }

  lemma NeverSplits(fs: seq<Family>, hs: seq<Happening>, n: nat, b: BoardId)
    requires n < |hs| < |fs|
    ensures NeverRaises(fs, hs, n + 1, b) <==> NeverRaises(fs, hs, n, b) && !RaisesAt(fs[n], hs[n], b)
  {
  }

  lemma {:induction false} Mirror(fs: seq<Family>, hs: seq<Happening>, n: nat, b: BoardId)
    returns (states: seq<Sys>, events: seq<Event>)
    requires FamilyRun(fs, hs) && n <= |hs| && b in fs[n]
    ensures Mirrors(states, events, fs, hs, n, b)
  {
    hide Init, Step, StepAt, Raises;
    SameBoards(fs, hs, n);
    if n == 0 {
      states, events := [fs[0][b]], [];
    } else {
      SameBoards(fs, hs, n - 1);
      states, events := Mirror(fs, hs, n - 1, b);
      assert FamilyStepAt(fs, hs, n - 1);
      var h := hs[n - 1];
      if h.At? && h.board != b {
        NeverSplits(fs, hs, n - 1, b);
      } else {
        if h.Everywhere? { SharedNeverRaises(fs[n - 1][b].ctl, h.event); }
        MirrorExtends(states, events, fs, hs, n - 1, b, h.event);
        states, events := states + [fs[n][b]], events + [h.event];
      }
    }
  }

  lemma SharedNeverRaises(c: Ctl, e: Event)
    requires Shared(e)
    ensures !Raises(c, e)
  {
  }

  /** In every run of the family, whatever the boards and their seqs: the commands of
      a board are all answered, queued or pending, each in exactly one place, if and
      only if no response of that board raised on an entry it had taken out. */
  lemma FamilyLosesNothing(fs: seq<Family>, hs: seq<Happening>, n: nat, b: BoardId)
    requires FamilyRun(fs, hs) && n <= |hs| && b in fs[n]
    ensures Conserved(fs[n][b].ctl) <==> NeverRaises(fs, hs, n, b)
    ensures forall id: Id :: id < |fs[n][b].ctl.accepted| ==> fs[n][b].ctl.accepted[id].board == b
  {
    hide Init, StepAt, FamilyStepAt, FamilyInit, Conserved, NoRaise, NeverRaises, Clean, LedgerOk;
    var states, events := Mirror(fs, hs, n, b);
    OneBoardLosesNothing(states, events, |events|);
    NothingLostIffClean(states, events, |events|);
    RunConfig(states, events, |events|);
    OwnCommands(fs[n][b].ctl, b);
  }

  lemma OwnCommands(c: Ctl, b: BoardId)
    requires Tables(c) && c.cfg.boards == [b]
    ensures forall id: Id :: id < |c.accepted| ==> c.accepted[id].board == b
  {
    forall id: Id | id < |c.accepted| ensures c.accepted[id].board == b { assert AcceptedOk(c, id); }
  }
}
