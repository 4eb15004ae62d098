/** The cache of recently resolved board seqs: a dictionary beside a deque of at
    most 4096 keys, against the simple log of every resolution. */
module ResolvedCache {
  import opened Protocol

  const WINDOW: nat := 4096

  /** One terminal outcome: which command, under which board seq. */
  datatype Resolution = Resolution(id: nat, boardSeq: nat, status: Status)

  datatype Cache = Cache(statuses: map<nat, Status>, order: seq<nat>)

  const EMPTY: Cache := Cache(map[], [])

  /** A full deque loses its oldest key, and the dictionary loses that key too. */
  function Remember(c: Cache, k: nat, st: Status): Cache {
    var full := |c.order| == WINDOW;
    var kept := if full then c.statuses - {c.order[0]} else c.statuses;
    Cache(kept[k := st], (if full then c.order[1..] else c.order) + [k])
  }

  function Replay(log: seq<Resolution>): Cache {
    if log == [] then EMPTY
    else Remember(Replay(log[..|log| - 1]), log[|log| - 1].boardSeq, log[|log| - 1].status)
  }

  // The reference: the last WINDOW resolutions, the latest one winning per key.

  function Recent(log: seq<Resolution>): seq<Resolution> {
    if |log| <= WINDOW then log else log[|log| - WINDOW..]
  }

  function Keys(w: seq<Resolution>): (ks: seq<nat>)
    ensures |ks| == |w|
    ensures forall i :: 0 <= i < |w| ==> ks[i] == w[i].boardSeq
  {
    seq(|w|, i requires 0 <= i < |w| => w[i].boardSeq)
  }

  function Latest(w: seq<Resolution>): map<nat, Status> {
    if w == [] then map[]
    else Latest(w[..|w| - 1])[w[|w| - 1].boardSeq := w[|w| - 1].status]
  }

  lemma LatestSnoc(w: seq<Resolution>, r: Resolution)
    ensures Latest(w + [r]) == Latest(w)[r.boardSeq := r.status]
  {
    assert (w + [r])[..|w|] == w;
  }

  lemma {:induction false} LatestKeys(w: seq<Resolution>, k: nat)
    ensures k in Latest(w) <==> exists i :: 0 <= i < |w| && w[i].boardSeq == k
  {
    if w != [] {
      var n := |w| - 1;
      LatestKeys(w[..n], k);
      assert forall i :: 0 <= i < n ==> w[..n][i] == w[i];
      assert k in Latest(w) <==> k in Latest(w[..n]) || w[n].boardSeq == k;
    }
  }

  ghost predicate Agrees(c: Cache, log: seq<Resolution>) {
    && c.order == Keys(Recent(log))
    && c.statuses == Latest(Recent(log))
  }

  predicate DistinctSeqs(log: seq<Resolution>) {
    forall i, j :: 0 <= i < j < |log| ==> log[i].boardSeq != log[j].boardSeq
  }

  predicate Recurs(k: nat, w: seq<Resolution>) {
    exists i :: 0 <= i < |w| && w[i].boardSeq == k
  }

  /** Forgetting the oldest resolution forgets its key, unless a later one has it. */
  lemma {:induction false} LatestTail(head: Resolution, w: seq<Resolution>)
    ensures Latest(w) == if Recurs(head.boardSeq, w) then Latest([head] + w) else Latest([head] + w) - {head.boardSeq}
  {
    if w == [] {
      assert [head] + w == [] + [head];
      LatestSnoc([], head);
    } else {
      var n := |w| - 1;
      var front, last := w[..n], w[n];
      LatestTail(head, front);
      assert w == front + [last] && [head] + w == ([head] + front) + [last];
      LatestSnoc(front, last);
      LatestSnoc([head] + front, last);
      assert Recurs(head.boardSeq, w) <==> Recurs(head.boardSeq, front) || last.boardSeq == head.boardSeq by {
        assert w[n] == last;
        assert forall i :: 0 <= i < n ==> w[i] == front[i];
      }
    }
  }

  function Slide(w: seq<Resolution>): seq<Resolution> {
    if |w| == WINDOW then w[1..] else w
  }

  lemma RecentSnoc(log: seq<Resolution>, r: Resolution)
    ensures Recent(log + [r]) == Slide(Recent(log)) + [r]
    ensures |Recent(log)| == WINDOW <==> |log| >= WINDOW
  {
  }

  lemma OrderFollows(c: Cache, w: seq<Resolution>, r: Resolution)
    requires c.order == Keys(w)
    ensures Remember(c, r.boardSeq, r.status).order == Keys(Slide(w) + [r])
  {
  }

  /** Exactly when one more resolution keeps the cache equal to the window: not
      when it evicts a key that a younger resolution still in the window shares. */
  lemma RememberAgreesIff(c: Cache, log: seq<Resolution>, r: Resolution)
    requires Agrees(c, log)
    ensures Agrees(Remember(c, r.boardSeq, r.status), log + [r])
            <==> !(|log| >= WINDOW && c.order[0] in c.order[1..] && c.order[0] != r.boardSeq)
    ensures Remember(c, r.boardSeq, r.status).order == Keys(Recent(log + [r]))
  {
    var w := Recent(log);
    RecentSnoc(log, r);
    OrderFollows(c, w, r);
    if |w| == WINDOW {
      assert w == [w[0]] + w[1..] && Keys(w[1..]) == Keys(w)[1..];
      RecursInKeys(w[0].boardSeq, w[1..]);
      EvictAgreesIff(w[0], w[1..], r);
    } else {
      LatestSnoc(w, r);
    }
  }

  lemma EvictAgreesIff(head: Resolution, base: seq<Resolution>, r: Resolution)
    ensures (Latest([head] + base) - {head.boardSeq})[r.boardSeq := r.status] == Latest(base + [r])
            <==> !(Recurs(head.boardSeq, base) && head.boardSeq != r.boardSeq)
  {
    var w := [head] + base;
    LatestSnoc(base, r);
    LatestTail(head, base);
    if Recurs(head.boardSeq, base) {
      LatestKeys(base, head.boardSeq);
      EvictThenSet(Latest(w), head.boardSeq, r.boardSeq, r.status);
    }
  }

  lemma RecursInKeys(k: nat, w: seq<Resolution>)
    ensures Recurs(k, w) <==> k in Keys(w)
  {
    if k in Keys(w) {
      var i :| 0 <= i < |w| && Keys(w)[i] == k;
      assert w[i].boardSeq == k;
    }
    if Recurs(k, w) {
      var i :| 0 <= i < |w| && w[i].boardSeq == k;
      assert Keys(w)[i] == k;
    }
  }

  lemma EvictThenSet(m: map<nat, Status>, gone: nat, k: nat, st: Status)
    requires gone in m
    ensures (m - {gone})[k := st] == m[k := st] <==> gone == k
  {
    if gone != k {
      assert gone in m[k := st] && gone !in (m - {gone})[k := st];
    }
  }

  // ------------------------------------------------- lookups, after every log

  /** The last resolution of this key is at `p`. */
  predicate LastAt(log: seq<Resolution>, k: nat, p: nat) {
    p < |log| && log[p].boardSeq == k && forall q :: p < q < |log| ==> log[q].boardSeq != k
  }

  /** After the resolution at `p` the deque gave up this key, one resolved there
      earlier or the one of `p` itself, and the dictionary gave it up too. */
  predicate Evicted(log: seq<Resolution>, k: nat, p: nat) {
    exists q :: 0 <= q < |log| - WINDOW && p - WINDOW < q && log[q].boardSeq == k
  }

  lemma {:induction false} ReplayOrder(log: seq<Resolution>)
    ensures Replay(log).order == Keys(Recent(log))
  {
    if log != [] {
      var front, last := log[..|log| - 1], log[|log| - 1];
      assert front + [last] == log;
      ReplayOrder(front);
      RecentSnoc(front, last);
      OrderFollows(Replay(front), Recent(front), last);
    }
  }

  lemma {:induction false} NeverResolved(log: seq<Resolution>, k: nat)
    requires !Recurs(k, log)
    ensures k !in Replay(log).statuses
  {
    if log != [] {
      var front := log[..|log| - 1];
      assert forall i :: 0 <= i < |front| ==> front[i] == log[i];
      NeverResolved(front, k);
    }
  }

  /** The deque holds the keys of the last 4096 resolutions, in order. */
  lemma WindowHolds(log: seq<Resolution>)
    ensures var order, n := Replay(log).order, |log|;
            && |order| == (if n < 4096 then n else 4096)
            && forall i :: 0 <= i < |order| ==> order[i] == log[n - |order| + i].boardSeq
  {
    hide Replay, Recent;
    ReplayOrder(log);
    RecentIs(log);
  }

  lemma RecentIs(log: seq<Resolution>)
    ensures var w, n := Recent(log), |log|;
            && |w| == (if n < 4096 then n else 4096)
            && forall i :: 0 <= i < |w| ==> w[i] == log[n - |w| + i]
  {
  }

  /** What the dictionary holds, after every log: the last status of a key, unless
      the key was evicted since. */
  lemma {:induction false} ReplayLookup(log: seq<Resolution>, k: nat, p: nat)
    requires LastAt(log, k, p)
    ensures k in Replay(log).statuses <==> !Evicted(log, k, p)
    ensures k in Replay(log).statuses ==> Replay(log).statuses[k] == log[p].status
  {
    var n := |log| - 1;
    var front, last := log[..n], log[n];
    if p < n {
      assert forall i :: 0 <= i < n ==> front[i] == log[i];
      ReplayLookup(front, k, p);
      ReplayOrder(front);
      EvictedNext(log, k, p);
      assert |front| >= WINDOW ==> Replay(front).order[0] == log[n - WINDOW].boardSeq;
    }
  }

  lemma EvictedNext(log: seq<Resolution>, k: nat, p: nat)
    requires p < |log| - 1
    ensures var n := |log| - 1;
            Evicted(log, k, p) <==> Evicted(log[..n], k, p) || (n >= WINDOW && log[n - WINDOW].boardSeq == k)
  {
    var n := |log| - 1;
    var front := log[..n];
    assert forall i :: 0 <= i < n ==> front[i] == log[i];
    if Evicted(front, k, p) {
      var q :| 0 <= q < n - WINDOW && p - WINDOW < q && front[q].boardSeq == k;
      assert log[q].boardSeq == k;
    }
    if Evicted(log, k, p) {
      var q :| 0 <= q < |log| - WINDOW && p - WINDOW < q && log[q].boardSeq == k;
      if q < n - WINDOW { assert front[q].boardSeq == k; }
    }
  }

  lemma {:induction false} LastExists(log: seq<Resolution>, k: nat) returns (p: nat)
    requires Recurs(k, log)
    ensures LastAt(log, k, p)
  {
    p := |log| - 1;
    if log[p].boardSeq != k {
      var front := log[..p];
      assert forall i :: 0 <= i < p ==> front[i] == log[i];
      p := LastExists(front, k);
    }
  }

  /** What the window holds: the last status of a key resolved in it. */
  lemma {:induction false} LatestAt(w: seq<Resolution>, k: nat, p: nat)
    requires LastAt(w, k, p)
    ensures k in Latest(w) && Latest(w)[k] == w[p].status
  {
    var n := |w| - 1;
    if p < n {
      assert forall i :: 0 <= i < n ==> w[..n][i] == w[i];
      LatestAt(w[..n], k, p);
    }
  }

  lemma WindowLookup(log: seq<Resolution>, k: nat, p: nat)
    requires LastAt(log, k, p)
    ensures k in Latest(Recent(log)) <==> p >= |log| - WINDOW
    ensures k in Latest(Recent(log)) ==> Latest(Recent(log))[k] == log[p].status
  {
    var w, d := Recent(log), |log| - |Recent(log)|;
    assert forall i :: 0 <= i < |w| ==> w[i] == log[d + i];
    if p >= d { LatestAt(w, k, p - d); } else { LatestKeys(w, k); }
  }

  /** The last resolution of its key is still in the window, but the dictionary has
      lost the key to the eviction of an earlier one. */
  predicate Forgotten(log: seq<Resolution>, p: nat)
    requires p < |log|
  {
    p >= |log| - WINDOW && LastAt(log, log[p].boardSeq, p) && Evicted(log, log[p].boardSeq, p)
  }

  lemma LookupsDiffer(log: seq<Resolution>, k: nat, p: nat)
    requires LastAt(log, k, p)
    ensures (k in Replay(log).statuses <==> k in Latest(Recent(log))) <==> !Forgotten(log, p)
    ensures k in Replay(log).statuses ==>
              k in Latest(Recent(log)) && Replay(log).statuses[k] == Latest(Recent(log))[k]
  {
    ReplayLookup(log, k, p);
    WindowLookup(log, k, p);
    if p < |log| - WINDOW { assert Evicted(log, k, p); }
  }

  lemma NoLookup(log: seq<Resolution>, k: nat)
    requires !Recurs(k, log)
    ensures k !in Replay(log).statuses && k !in Latest(Recent(log))
  {
    NeverResolved(log, k);
    LatestKeys(Recent(log), k);
    var w, d := Recent(log), |log| - |Recent(log)|;
    assert forall i :: 0 <= i < |w| ==> w[i] == log[d + i];
  }

  /** After every log: dictionary and deque are the last 4096 resolutions, the latest
      winning, if and only if no key of theirs was evicted for an earlier resolution. */
  lemma ReplayAgreesIff(log: seq<Resolution>)
    ensures Agrees(Replay(log), log) <==> forall p: nat :: p < |log| ==> !Forgotten(log, p)
  {
    hide Replay, Recent, Latest, LastAt, Evicted;
    ReplayOrder(log);
    var seen, window := Replay(log).statuses, Latest(Recent(log));
    if Agrees(Replay(log), log) {
      forall p: nat | p < |log| ensures !Forgotten(log, p) {
        if LastAt(log, log[p].boardSeq, p) { LookupsDiffer(log, log[p].boardSeq, p); }
      }
    }
    if forall p: nat :: p < |log| ==> !Forgotten(log, p) {
      forall k: nat ensures (k in seen <==> k in window) && (k in seen && k in window ==> seen[k] == window[k]) {
        if Recurs(k, log) {
          var p := LastExists(log, k);
          InLog(log, k, p);
          LookupsDiffer(log, k, p);
        } else {
          NoLookup(log, k);
        }
      }
      assert seen == window;
    }
  }

  lemma InLog(log: seq<Resolution>, k: nat, p: nat)
    requires LastAt(log, k, p)
    ensures p < |log|
  {
  }

  /** For distinct seqs they always are. */
  lemma ReplayAgrees(log: seq<Resolution>)
    requires DistinctSeqs(log)
    ensures Agrees(Replay(log), log)
  {
    hide Replay, Agrees;
    ReplayAgreesIff(log);
    forall p: nat | p < |log| ensures !Forgotten(log, p) {}
  }
}
