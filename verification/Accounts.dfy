/** What every change of the ledger keeps: each future is set at most once, with
    an answer addressed to its own client; the log, the cache and the counters
    tell the same story. */
module Accounts {
  import opened Basics
  import opened Protocol
  import opened ResolvedCache
  import opened Controller

  /** The answer belongs to this command and couples status and code. */
  predicate Answers(r: Reply, e: Entry) {
    && r.clientSeq == e.clientSeq
    && r.target == e.client
    && Coupled(r.status, r.code)
    && (r.status == OK ==> r.boardSeq == Some(e.boardSeq))
  }

  /** An error answer to this command, of the controller's own making. */
  predicate FailsWith(r: Reply, e: Entry, code: ErrorCode) {
    && r.clientSeq == e.clientSeq && r.target == e.client && r.code == Some(code)
    && r.status == (if code == COMMAND_TIMEOUT then TIMEOUT else ERROR)
    && r.boardSeq.None? && r.latencyMs.None?
  }

  /** The answer of a board to this command: the board's own status and code, and on
      ok the board seq and the latency. */
  predicate Relays(answer: Reply, e: Entry, r: BoardReply, latencyMs: real) {
    && answer.clientSeq == e.clientSeq && answer.target == e.client
    && answer.status == r.status && answer.code == r.code
    && answer.boardSeq == (if r.status == OK then Some(r.boardSeq) else None)
    && answer.latencyMs == (if r.status == OK then Some(latencyMs) else None)
  }

  /** `e` is the accepted command of its id, possibly with its write time. */
  predicate IsAccepted(e: Entry, acc: seq<Entry>) {
    e.id < |acc| && e == acc[e.id].(writtenAt := e.writtenAt)
  }

  predicate Mentions(es: seq<Entry>, id: Id) {
    exists j :: 0 <= j < |es| && es[j].id == id
  }

  predicate Logged(log: seq<Resolution>, id: Id) {
    exists i :: 0 <= i < |log| && log[i].id == id
  }

  ghost predicate LogMatches(log: seq<Resolution>, outcome: map<Id, Reply>, acc: seq<Entry>) {
    && (forall i :: 0 <= i < |log| ==> LogEntryOk(log[i], outcome, acc))
    && (forall i, j :: 0 <= i < j < |log| ==> log[i].id != log[j].id)
    && (forall id :: id in outcome ==> Logged(log, id))
    && |log| == |outcome|
  }

  predicate LogEntryOk(r: Resolution, outcome: map<Id, Reply>, acc: seq<Entry>) {
    && r.id in outcome && r.id < |acc|
    && r.boardSeq == acc[r.id].boardSeq
    && r.status == outcome[r.id].status
  }

  ghost predicate LedgerOk(l: Ledger, acc: seq<Entry>) {
    && (forall id :: id in l.outcome ==> id < |acc| && Answers(l.outcome[id], acc[id]))
    && LogMatches(l.log, l.outcome, acc)
    && l.cache == Replay(l.log)
    && l.counters.ok + l.counters.error + l.counters.timeout + |acc| == |l.log| + l.taken
    && l.counters.commandTimeouts == l.counters.timeout
  }

  lemma ReplaySnoc(log: seq<Resolution>, r: Resolution)
    ensures Replay(log + [r]) == Remember(Replay(log), r.boardSeq, r.status)
  {
    assert (log + [r])[..|log|] == log;
  }

  lemma LoggedSnoc(log: seq<Resolution>, r: Resolution, id: Id)
    ensures Logged(log + [r], id) <==> Logged(log, id) || id == r.id
  {
    if Logged(log, id) {
      var i :| 0 <= i < |log| && log[i].id == id;
      assert (log + [r])[i].id == id;
    }
    assert (log + [r])[|log|] == r;
  }

  lemma LogGrows(log: seq<Resolution>, outcome: map<Id, Reply>, acc: seq<Entry>, id: Id, r: Reply)
    requires LogMatches(log, outcome, acc) && id !in outcome && id < |acc|
    ensures LogMatches(log + [Resolution(id, acc[id].boardSeq, r.status)], outcome[id := r], acc)
  {
    var entry := Resolution(id, acc[id].boardSeq, r.status);
    var log', outcome' := log + [entry], outcome[id := r];
    forall x | x in outcome' ensures Logged(log', x) { LoggedSnoc(log, entry, x); }
    forall i | 0 <= i < |log'| ensures LogEntryOk(log'[i], outcome', acc) {
      if i < |log| {
        assert LogEntryOk(log[i], outcome, acc);
      }
    }
  }

  /** Settling an unresolved accepted command with an answer of its own. */
  lemma SettleKeeps(l: Ledger, acc: seq<Entry>, e: Entry, r: Reply)
    requires LedgerOk(l, acc) && IsAccepted(e, acc) && e.id !in l.outcome && Answers(r, e)
    ensures LedgerOk(Settle(l, e, r), acc)
    ensures Settle(l, e, r).outcome == l.outcome[e.id := r]
  {
    hide Replay, Remember, LogMatches;
    assert e.boardSeq == acc[e.id].boardSeq && Answers(r, acc[e.id]);
    LogGrows(l.log, l.outcome, acc, e.id, r);
    ReplaySnoc(l.log, Resolution(e.id, e.boardSeq, r.status));
  }

  lemma MentionsCons(es: seq<Entry>, id: Id)
    requires es != []
    ensures Mentions(es, id) <==> id == es[0].id || Mentions(es[1..], id)
  {
    if Mentions(es[1..], id) {
      var j :| 0 <= j < |es[1..]| && es[1..][j].id == id;
      assert es[j + 1].id == id;
    }
    if Mentions(es, id) {
      var j :| 0 <= j < |es| && es[j].id == id;
      assert j > 0 ==> es[1..][j - 1].id == id;
    }
  }

  /** The ledger after failing commands: the named ones are settled with this
      code if they were open, and no earlier answer changes. */
  ghost predicate Failed(l: Ledger, t: Ledger, acc: seq<Entry>, es: seq<Entry>, code: ErrorCode) {
    && (forall id :: id in t.outcome <==> id in l.outcome || Mentions(es, id))
    && (forall id :: id in l.outcome ==> t.outcome[id] == l.outcome[id])
    && (forall id :: id in t.outcome && id !in l.outcome ==>
          id < |acc| && FailsWith(t.outcome[id], acc[id], code))
  }

  lemma ResolveErrorKeeps(l: Ledger, acc: seq<Entry>, e: Entry, code: ErrorCode)
    requires LedgerOk(l, acc) && IsAccepted(e, acc)
    ensures LedgerOk(ResolveError(l, e, code), acc)
    ensures ResolveError(l, e, code).outcome
            == if e.id in l.outcome then l.outcome
              else l.outcome[e.id := ErrorReply(acc[e.id].clientSeq, acc[e.id].client, code)]
    ensures e.id !in l.outcome ==> FailsWith(ResolveError(l, e, code).outcome[e.id], acc[e.id], code)
  {
    if e.id !in l.outcome {
      SettleKeeps(l, acc, e, ErrorReply(e.clientSeq, e.client, code));
    }
  }

  lemma FailedStep(l: Ledger, mid: Ledger, t: Ledger, acc: seq<Entry>, es: seq<Entry>, code: ErrorCode)
    requires es != [] && es[0].id < |acc|
    requires mid.outcome == if es[0].id in l.outcome then l.outcome
                            else l.outcome[es[0].id := ErrorReply(acc[es[0].id].clientSeq, acc[es[0].id].client, code)]
    requires Failed(mid, t, acc, es[1..], code)
    ensures Failed(l, t, acc, es, code)
  {
    forall id ensures Mentions(es, id) <==> id == es[0].id || Mentions(es[1..], id) { MentionsCons(es, id); }
  }

  /** Failing a list of accepted commands. */
  lemma {:induction false} ResolveAllKeeps(l: Ledger, acc: seq<Entry>, es: seq<Entry>, code: ErrorCode)
    requires LedgerOk(l, acc) && forall e :: e in es ==> IsAccepted(e, acc)
    ensures LedgerOk(ResolveAll(l, es, code), acc)
    ensures Failed(l, ResolveAll(l, es, code), acc, es, code)
    decreases |es|
  {
    if es != [] {
      assert es[0] in es && forall x :: x in es[1..] ==> x in es;
      var mid := ResolveError(l, es[0], code);
      ResolveErrorKeeps(l, acc, es[0], code);
      ResolveAllKeeps(mid, acc, es[1..], code);
      FailedStep(l, mid, ResolveAll(mid, es[1..], code), acc, es, code);
    }
  }

  /** Counters other than the terminal ones are free to move. */
  lemma RecountKeeps(l: Ledger, acc: seq<Entry>, c: Counters)
    requires LedgerOk(l, acc)
    requires c.ok == l.counters.ok && c.error == l.counters.error && c.timeout == l.counters.timeout
    requires c.commandTimeouts == l.counters.commandTimeouts
    ensures LedgerOk(l.(counters := c), acc)
  {
  }

  lemma AnswerNowKeeps(l: Ledger, acc: seq<Entry>, r: Reply)
    requires LedgerOk(l, acc) && Coupled(r.status, r.code)
    ensures LedgerOk(AnswerNow(l, r), acc)
  {
  }

  lemma AcceptKeeps(l: Ledger, acc: seq<Entry>, e: Entry)
    requires LedgerOk(l, acc)
    ensures LedgerOk(l.(taken := l.taken + 1), acc + [e])
  {
  }
}
