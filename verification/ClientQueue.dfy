/** The bounded outbound queue of one local client (local_socket.py): two
    priorities, eviction of the oldest non-critical message, disconnection. */
module ClientQueue {
  import opened Basics

  datatype Item = Item(message: string, critical: bool)

  /** A connected client with the history of its queue. A message is named by its
      position in `accepted`; `delivered` and `queued` are such positions. */
  datatype Client = Client(
    maxsize: int, connected: bool, accepted: seq<Item>, delivered: seq<nat>, queued: seq<nat>,
    dropped: nat, refused: nat, disconnects: nat)

  datatype Op = Send(item: Item) | Get

  /** `asyncio.Queue.full`: a size of zero or less means no bound. */
  predicate Full(maxsize: int, size: nat) { maxsize > 0 && size >= maxsize }

  /** The position in the queue of its oldest non-critical message, or its length. */
  function Oldest(items: seq<Item>): (i: nat)
    ensures i <= |items|
    ensures forall j :: 0 <= j < i ==> items[j].critical
    ensures i < |items| ==> !items[i].critical
  {
    if items == [] || !items[0].critical then 0 else 1 + Oldest(items[1..])
  }

  /** The sequence without its element at `i`; past the end, all of it. */
  function Cut<T>(s: seq<T>, i: nat): seq<T> {
    if i < |s| then s[..i] + s[i + 1..] else s
  }

  predicate Within(ps: seq<nat>, n: nat) { forall j :: 0 <= j < |ps| ==> ps[j] < n }

  function Items(accepted: seq<Item>, ps: seq<nat>): (items: seq<Item>)
    requires Within(ps, |accepted|)
    ensures |items| == |ps|
    ensures forall j :: 0 <= j < |ps| ==> items[j] == accepted[ps[j]]
  {
    seq(|ps|, j requires 0 <= j < |ps| => accepted[ps[j]])
  }

  predicate Increasing(ps: seq<nat>) {
    forall i, j :: 0 <= i < j < |ps| ==> ps[i] < ps[j]
  }

  /** Delivered and then queued messages are the accepted ones in their order,
      without some that are all non-critical; the drop counter counts those and
      the refused ones; the queue keeps its bound. */
  ghost predicate Valid(c: Client) {
    var kept := c.delivered + c.queued;
    && Increasing(kept)
    && Within(kept, |c.accepted|)
    && (forall p :: 0 <= p < |c.accepted| && p !in kept ==> !c.accepted[p].critical)
    && c.dropped == |c.accepted| - |kept| + c.refused
    && (c.maxsize > 0 ==> |c.queued| <= c.maxsize)
  }

  function Contents(c: Client): seq<Item>
    requires Within(c.queued, |c.accepted|)
  {
    Items(c.accepted, c.queued)
  }

  function Accept(c: Client, item: Item): Client {
    c.(accepted := c.accepted + [item], queued := c.queued + [|c.accepted|])
  }

  /** What `_send` does and returns. */
  function Sent(c: Client, item: Item): (r: (Client, bool))
    requires Within(c.queued, |c.accepted|)
  {
    if !c.connected then (c, false)
    else if !Full(c.maxsize, |c.queued|) then (Accept(c, item), true)
    else
      var i := Oldest(Contents(c));
      if i < |c.queued| then (Accept(c.(queued := Cut(c.queued, i), dropped := c.dropped + 1), item), true)
      else if item.critical then (c.(connected := false, disconnects := c.disconnects + 1), false)
      else (c.(dropped := c.dropped + 1, refused := c.refused + 1), false)
  }

  /** The writer takes the oldest queued message, if there is one. */
  function Got(c: Client): Client {
    if c.queued == [] then c
    else c.(delivered := c.delivered + [c.queued[0]], queued := c.queued[1..])
  }

  // -------------------------------------------------------------- invariant

  lemma CutMembers<T>(s: seq<T>, i: nat)
    requires i < |s|
    ensures forall x :: x in s <==> x in Cut(s, i) || x == s[i]
    ensures forall j :: 0 <= j < |Cut(s, i)| ==> Cut(s, i)[j] == s[if j < i then j else j + 1]
  {
    assert s == s[..i] + [s[i]] + s[i + 1..];
  }

  lemma QueuedWithin(c: Client)
    requires Valid(c)
    ensures Within(c.queued, |c.accepted|)
  {
    assert forall j :: 0 <= j < |c.queued| ==> c.queued[j] == (c.delivered + c.queued)[|c.delivered| + j];
  }

  lemma AcceptKeeps(c: Client, item: Item)
    requires Valid(c) && !Full(c.maxsize, |c.queued|)
    ensures Valid(Accept(c, item))
  {
    var d := Accept(c, item);
    var kept := c.delivered + c.queued;
    assert d.delivered + d.queued == kept + [|c.accepted|];
    assert forall i :: 0 <= i < |kept| ==> kept[i] in kept;
  }

  /** Evicting a queued non-critical message. */
  lemma CutKeeps(c: Client, i: nat)
    requires Valid(c) && i < |c.queued| && Within(c.queued, |c.accepted|) && !c.accepted[c.queued[i]].critical
    ensures Valid(c.(queued := Cut(c.queued, i), dropped := c.dropped + 1))
  {
    var kept, n := c.delivered + c.queued, |c.delivered|;
    var d := c.(queued := Cut(c.queued, i), dropped := c.dropped + 1);
    assert d.delivered + d.queued == Cut(kept, n + i);
    CutMembers(kept, n + i);
  }

  lemma SentKeeps(c: Client, item: Item)
    requires Valid(c)
    ensures Within(c.queued, |c.accepted|) && Valid(Sent(c, item).0)
  {
    QueuedWithin(c);
    if c.connected && !Full(c.maxsize, |c.queued|) {
      AcceptKeeps(c, item);
    } else if c.connected {
      var i := Oldest(Contents(c));
      if i < |c.queued| {
        CutKeeps(c, i);
        AcceptKeeps(c.(queued := Cut(c.queued, i), dropped := c.dropped + 1), item);
      }
    }
  }

  lemma GotKeeps(c: Client)
    requires Valid(c)
    ensures Valid(Got(c))
  {
    if c.queued != [] {
      assert Got(c).delivered + Got(c).queued == c.delivered + c.queued;
    }
  }

  // ------------------------------------------------------------------- runs

  function New(maxsize: int): Client { Client(maxsize, true, [], [], [], 0, 0, 0) }

  function After(maxsize: int, ops: seq<Op>): (c: Client)
    ensures Valid(c) && c.maxsize == maxsize
    ensures Within(c.queued, |c.accepted|)
  {
    if ops == [] then New(maxsize)
    else
      var c, op := After(maxsize, ops[..|ops| - 1]), ops[|ops| - 1];
      SentKeeps(c, if op.Send? then op.item else Item("", false));
      GotKeeps(c);
      var d := if op.Get? then Got(c) else Sent(c, op.item).0;
      QueuedWithin(d);
      d
  }

  /** `out` is `log` without some of its non-critical messages. */
  predicate Thins(log: seq<Item>, out: seq<Item>) {
    if log == [] then out == []
    else (out != [] && out[0] == log[0] && Thins(log[1..], out[1..])) || (!log[0].critical && Thins(log[1..], out))
  }

  lemma {:induction false} ThinsFrom(log: seq<Item>, ps: seq<nat>, i: nat)
    requires i <= |log| && Increasing(ps) && forall j :: 0 <= j < |ps| ==> i <= ps[j] < |log|
    requires forall p :: i <= p < |log| && p !in ps ==> !log[p].critical
    ensures Thins(log[i..], Items(log, ps))
    decreases |log| - i
  {
    var out := Items(log, ps);
    assert ps == [] || i <= ps[0] < |log|;
    if i < |log| {
      assert log[i..][0] == log[i] && log[i..][1..] == log[i + 1..];
      if ps != [] && ps[0] == i {
        assert forall p :: p in ps ==> p == i || p in ps[1..];
        ThinsFrom(log, ps[1..], i + 1);
        assert out[1..] == Items(log, ps[1..]);
      } else {
        assert i !in ps;
        ThinsFrom(log, ps, i + 1);
      }
    }
  }

  /** Over any run of sends and gets: the delivered messages followed by the queued
      ones are the accepted messages in order with only non-criticals missing, and
      the drop counter counts exactly those and the refused ones. */
  lemma QueueRefinesLog(maxsize: int, ops: seq<Op>)
    ensures var c := After(maxsize, ops);
            && Within(c.delivered + c.queued, |c.accepted|)
            && var out := Items(c.accepted, c.delivered + c.queued);
               && Thins(c.accepted, out) && out[|c.delivered|..] == Contents(c)
               && c.dropped == (|c.accepted| - |out|) + c.refused
  {
    var c := After(maxsize, ops);
    ThinsFrom(c.accepted, c.delivered + c.queued, 0);
    assert c.accepted[0..] == c.accepted;
  }

  /** The queued message at `i` is non-critical, and no older queued one is. */
  ghost predicate OldestNoncritical(c: Client, i: nat)
    requires Within(c.queued, |c.accepted|)
  {
    && i < |c.queued| && !c.accepted[c.queued[i]].critical
    && forall j :: 0 <= j < i ==> c.accepted[c.queued[j]].critical
  }

  /** What a send does, over any run, position by position. On a connected client it
      returns true if and only if the queue has room or holds a non-critical message,
      whatever the priority of the new one. Then the queue is the old one, without its
      oldest non-critical message if there was no room, and the new message behind it.
      Otherwise the queue stays, and a critical message disconnects the client while a
      non-critical one is dropped and counted. */
  lemma SendExactly(maxsize: int, ops: seq<Op>, item: Item)
    ensures var c := After(maxsize, ops);
            var (d, ok) := Sent(c, item);
            var full := maxsize > 0 && |c.queued| >= maxsize;
            && (ok <==> c.connected && (!full || exists j :: 0 <= j < |c.queued| && !c.accepted[c.queued[j]].critical))
            && (ok ==> d.accepted == c.accepted + [item] && d.connected && d.disconnects == c.disconnects
                       && d.refused == c.refused)
            && (ok && !full ==> d.queued == c.queued + [|c.accepted|] && d.dropped == c.dropped)
            && (ok && full ==>
                  && d.dropped == c.dropped + 1
                  && forall i: nat :: OldestNoncritical(c, i) ==>
                       d.queued == c.queued[..i] + c.queued[i + 1..] + [|c.accepted|])
            && (!ok ==> d.accepted == c.accepted && d.queued == c.queued)
            && (!ok && c.connected ==>
                  if item.critical
                  then !d.connected && d.disconnects == c.disconnects + 1 && d.dropped == c.dropped
                  else d.connected && d.disconnects == c.disconnects && d.dropped == c.dropped + 1)
            && (!c.connected ==> d == c)
            && d.delivered == c.delivered && d.maxsize == maxsize
  {
    var c := After(maxsize, ops);
    OldestIsThere(c);
    forall i: nat | OldestNoncritical(c, i) ensures i == Oldest(Contents(c)) { OldestIsOne(c, i); }
  }

  lemma OldestIsThere(c: Client)
    requires Within(c.queued, |c.accepted|)
    ensures Oldest(Contents(c)) < |c.queued|
            <==> exists j :: 0 <= j < |c.queued| && !c.accepted[c.queued[j]].critical
  {
    var i := Oldest(Contents(c));
    if i < |c.queued| { assert !Contents(c)[i].critical; }
    forall j | 0 <= j < |c.queued| && i == |c.queued| ensures c.accepted[c.queued[j]].critical {
      assert Contents(c)[j].critical;
    }
  }

  lemma OldestIsOne(c: Client, i: nat)
    requires Within(c.queued, |c.accepted|) && OldestNoncritical(c, i)
    ensures i == Oldest(Contents(c))
  {
    assert forall j :: 0 <= j < |c.queued| ==> Contents(c)[j] == c.accepted[c.queued[j]];
  }

  /** A send evicts at most one message, the oldest queued non-critical one, and
      only from a full queue; it accepts the message exactly if it returns true. */
  lemma SendEvictsTheOldest(maxsize: int, ops: seq<Op>, item: Item)
    ensures var c := After(maxsize, ops);
            var (d, ok) := Sent(c, item);
            && (ok <==> d.accepted == c.accepted + [item]) && (!ok <==> d.accepted == c.accepted)
            && d.delivered == c.delivered
            && (forall p :: p in c.queued && p !in d.queued ==>
                  && Full(maxsize, |c.queued|) && ok && !c.accepted[p].critical
                  && (forall q :: q in c.queued && q < p ==> c.accepted[q].critical)
                  && (forall q :: q in c.queued && q != p ==> q in d.queued))
  {
    var c := After(maxsize, ops);
    var (d, ok) := Sent(c, item);
    if c.connected && Full(c.maxsize, |c.queued|) && Oldest(Contents(c)) < |c.queued| {
      EvictsTheOldest(c, item, Oldest(Contents(c)));
    }
  }

  lemma EvictsTheOldest(c: Client, item: Item, i: nat)
    requires Valid(c) && i < |c.queued| && Within(c.queued, |c.accepted|)
    requires forall j :: 0 <= j < i ==> c.accepted[c.queued[j]].critical
    ensures var d := Accept(c.(queued := Cut(c.queued, i), dropped := c.dropped + 1), item);
            forall p :: p in c.queued && p !in d.queued ==>
              && p == c.queued[i]
              && (forall q :: q in c.queued && q < p ==> c.accepted[q].critical)
              && (forall q :: q in c.queued && q != p ==> q in d.queued)
  {
    CutMembers(c.queued, i);
    var kept, n := c.delivered + c.queued, |c.delivered|;
    forall q | q in c.queued && q < c.queued[i] ensures c.accepted[q].critical {
      var j :| 0 <= j < |c.queued| && c.queued[j] == q;
      assert kept[n + i] == c.queued[i] && kept[n + j] == c.queued[j];
    }
  }

  /** A send disconnects the client exactly when a critical message meets a full
      queue that holds nothing but criticals. */
  lemma DisconnectsIff(maxsize: int, ops: seq<Op>, item: Item)
    ensures var c := After(maxsize, ops);
            var d := Sent(c, item).0;
            c.connected && !d.connected
            <==> c.connected && item.critical && Full(maxsize, |c.queued|) && forall p :: p in c.queued ==>
              c.accepted[p].critical
  {
    var c := After(maxsize, ops);
    var i := Oldest(Contents(c));
    if i < |c.queued| { assert !Contents(c)[i].critical && c.queued[i] in c.queued; }
    forall p | i == |c.queued| && p in c.queued ensures c.accepted[p].critical {
      var j :| 0 <= j < |c.queued| && c.queued[j] == p;
      assert Contents(c)[j].critical;
    }
  }

  // ------------------------------------------------------ the code in place

  class LocalClientConnection {
    const maxsize: int
    var connected: bool
    var outbound: seq<Item>
    var eventsDropped: nat
    var criticalDisconnects: nat
    /** The history of this connection; it ends when the client is disconnected. */
    ghost var run: Client

    ghost predicate Holds()
      reads this
    {
      && Valid(run) && run.maxsize == maxsize && run.connected == connected
      && Within(run.queued, |run.accepted|)
      && outbound == Contents(run) && eventsDropped == run.dropped && criticalDisconnects == run.disconnects
    }

    constructor (size: int)
      ensures Holds() && run == New(size)
    {
      maxsize := size;
      connected := true;
      outbound := [];
      eventsDropped := 0;
      criticalDisconnects := 0;
      run := New(size);
    }

    /** Drain the queue, then put back all but its oldest non-critical message. */
    method EvictOldestNoncritical() returns (dropped: bool)
      modifies this`outbound, this`eventsDropped
      ensures dropped == (Oldest(old(outbound)) < |old(outbound)|)
      ensures outbound == Cut(old(outbound), Oldest(old(outbound)))
      ensures eventsDropped == old(eventsDropped) + if dropped then 1 else 0
    {
      hide Cut, Oldest, PutBack;
      ghost var was := outbound;
      var items: seq<Item> := [];
      while outbound != []
        invariant items + outbound == was && eventsDropped == old(eventsDropped)
        decreases |outbound|
      {
        items := items + [outbound[0]];
        outbound := outbound[1..];
      }
      dropped := false;
      PutBackNone(items);
      var i := 0;
      while i < |items|
        invariant 0 <= i <= |items| && items == was
        invariant PutBack(items, i, outbound, dropped)
        invariant eventsDropped == old(eventsDropped) + if dropped then 1 else 0
      {
        PutBackOne(items, i, outbound, dropped);
        if !dropped && !items[i].critical {
          dropped := true;
          eventsDropped := eventsDropped + 1;
        } else {
          outbound := outbound + [items[i]];
        }
        i := i + 1;
      }
      PutBackAll(items, outbound, dropped);
    }

    method Send(item: Item) returns (ok: bool)
      requires Holds()
      modifies this
      ensures Holds() && (run, ok) == Sent(old(run), item)
      ensures ok <==> old(connected) && (maxsize <= 0 || |old(outbound)| < maxsize
                                         || exists j :: 0 <= j < |old(outbound)| && !old(outbound)[j].critical)
      ensures connected <==> old(connected) && (ok || !item.critical)
    {
      hide Sent, Valid, Within, Items;
      SentKeeps(run, item);
      SentContents(run, item);
      SentWhen(run, item);
      ghost var before, i := run, Oldest(outbound);
      run := Sent(run, item).0;
      if !connected { return false; }
      if !Full(maxsize, |outbound|) {
        outbound := outbound + [item];
        return true;
      }
      if !item.critical {
        var evicted := EvictOldestNoncritical();
        if evicted {
          outbound := outbound + [item];
          return true;
        }
        eventsDropped := eventsDropped + 1;
        return false;
      }
      var evicted := true;
      while Full(maxsize, |outbound|) && evicted
        invariant run == Sent(before, item).0 && connected && criticalDisconnects == before.disconnects
        invariant eventsDropped == before.dropped + (if |outbound| < |before.queued| then 1 else 0)
        invariant outbound == Contents(before) || (i < |before.queued| && outbound == Cut(Contents(before), i))
        invariant !evicted ==> i == |before.queued|
        decreases |outbound|, evicted
      {
        evicted := EvictOldestNoncritical();
      }
      if !Full(maxsize, |outbound|) {
        outbound := outbound + [item];
        return true;
      }
      criticalDisconnects := criticalDisconnects + 1;
      connected := false;
      return false;
    }

    /** One turn of the writer loop: take the oldest message and write it. */
    method Get() returns (item: Option<Item>)
      requires Holds()
      modifies this
      ensures Holds() && run == Got(old(run)) && connected == old(connected)
      ensures outbound == if old(outbound) == [] then [] else old(outbound)[1..]
      ensures item == if old(outbound) == [] then None else Some(old(outbound)[0])
    {
      GotKeeps(run);
      QueuedWithin(Got(run));
      if outbound == [] { return None; }
      item := Some(outbound[0]);
      outbound := outbound[1..];
      run := Got(run);
    }
  }

  /** The queue put back after a drain. */
  function WithoutOldest(items: seq<Item>): seq<Item> {
    if items == [] then [] else if !items[0].critical then items[1..] else [items[0]] + WithoutOldest(items[1..])
  }

  lemma {:induction false} WithoutOldestCuts(items: seq<Item>)
    ensures WithoutOldest(items) == Cut(items, Oldest(items))
  {
    if items != [] && items[0].critical {
      WithoutOldestCuts(items[1..]);
      CutCons(items[0], items[1..], Oldest(items[1..]));
      assert items == [items[0]] + items[1..];
    } else if items != [] {
      assert items[..0] + items[1..] == items[1..];
    }
  }

  lemma CutCons(x: Item, rest: seq<Item>, i: nat)
    ensures Cut([x] + rest, i + 1) == [x] + Cut(rest, i)
  {
    var all := [x] + rest;
    if i < |rest| {
      assert all[..i + 1] == [x] + rest[..i] && all[i + 2..] == rest[i + 1..];
    }
  }

  /** `out` is what has been put back of the first `i` drained items. */
  predicate PutBack(items: seq<Item>, i: nat, out: seq<Item>, dropped: bool)
    requires i <= |items|
  {
    && dropped == (Oldest(items) < i)
    && out + (if dropped then items[i..] else WithoutOldest(items[i..])) == WithoutOldest(items)
  }

  lemma {:induction false} OldestAt(items: seq<Item>, i: nat)
    requires i < |items| && i <= Oldest(items)
    ensures Oldest(items) == i <==> !items[i].critical
  {
  }

  lemma PutBackOne(items: seq<Item>, i: nat, out: seq<Item>, dropped: bool)
    requires i < |items| && PutBack(items, i, out, dropped)
    ensures if !dropped && !items[i].critical then PutBack(items, i + 1, out, true)
            else PutBack(items, i + 1, out + [items[i]], dropped)
  {
    hide Oldest, WithoutOldest;
    if !dropped { OldestAt(items, i); }
    HeadOf(items, i);
    PutBackHead(items[i..]);
    Onto(out, items[i], items[i + 1..]);
    Onto(out, items[i], WithoutOldest(items[i + 1..]));
  }

  lemma HeadOf(items: seq<Item>, i: nat)
    requires i < |items|
    ensures items[i..] == [items[i]] + items[i + 1..] && items[i..][0] == items[i] && items[i..][1..] == items[i + 1..]
  {
  }

  lemma Onto(out: seq<Item>, x: Item, rest: seq<Item>)
    ensures out + ([x] + rest) == (out + [x]) + rest
  {
  }

  lemma PutBackHead(items: seq<Item>)
    requires items != []
    ensures WithoutOldest(items) == if !items[0].critical then items[1..] else [items[0]] + WithoutOldest(items[1..])
  {
  }

  lemma PutBackNone(items: seq<Item>)
    ensures PutBack(items, 0, [], false)
  {
    assert items[0..] == items && [] + WithoutOldest(items) == WithoutOldest(items);
  }

  lemma PutBackAll(items: seq<Item>, out: seq<Item>, dropped: bool)
    requires PutBack(items, |items|, out, dropped)
    ensures dropped == (Oldest(items) < |items|)
    ensures out == Cut(items, Oldest(items))
  {
    WithoutOldestCuts(items);
    assert out + [] == out;
  }

  lemma SentWhen(c: Client, item: Item)
    requires Valid(c) && Within(c.queued, |c.accepted|)
    ensures var (d, ok) := Sent(c, item);
            && (ok <==> c.connected && (c.maxsize <= 0 || |c.queued| < c.maxsize
                                        || exists j :: 0 <= j < |Contents(c)| && !Contents(c)[j].critical))
            && (d.connected <==> c.connected && (ok || !item.critical))
            && (ok ==> c.connected && (!Full(c.maxsize, |c.queued|) || Oldest(Contents(c)) < |c.queued|))
            && (!ok && c.connected ==> Full(c.maxsize, |c.queued|) && Oldest(Contents(c)) == |c.queued|)
            && d.maxsize == c.maxsize
            && d.disconnects == c.disconnects + (if c.connected && !ok && item.critical then 1 else 0)
            && var counts := c.connected && (if ok then Full(c.maxsize, |c.queued|) else !item.critical);
               d.dropped == c.dropped + if counts then 1 else 0
  {
    OldestIsThere(c);
    assert forall j :: 0 <= j < |c.queued| ==> Contents(c)[j] == c.accepted[c.queued[j]];
  }

  lemma CutContents(c: Client, i: nat)
    requires Within(c.queued, |c.accepted|) && i < |c.queued|
    ensures Within(Cut(c.queued, i), |c.accepted|)
    ensures Items(c.accepted, Cut(c.queued, i)) == Cut(Contents(c), i)
  {
    CutMembers(c.queued, i);
    CutMembers(Contents(c), i);
  }

  lemma AcceptContents(c: Client, item: Item)
    requires Within(c.queued, |c.accepted|)
    ensures Within(Accept(c, item).queued, |c.accepted| + 1) && Contents(Accept(c, item)) == Contents(c) + [item]
  {
  }

  /** What a send leaves queued, message by message. */
  lemma SentContents(c: Client, item: Item)
    requires Valid(c) && Within(c.queued, |c.accepted|)
    ensures var (d, ok) := Sent(c, item);
            && Within(d.queued, |d.accepted|)
            && Contents(d) == if !ok then Contents(c)
                              else (if Full(c.maxsize, |c.queued|) then Cut(Contents(c), Oldest(Contents(c)))
                                else Contents(c)) + [item]
  {
    hide Valid, Items, Within, Cut;
    var i := Oldest(Contents(c));
    if c.connected && !Full(c.maxsize, |c.queued|) {
      AcceptContents(c, item);
    } else if c.connected && i < |c.queued| {
      CutContents(c, i);
      AcceptContents(c.(queued := Cut(c.queued, i), dropped := c.dropped + 1), item);
    }
  }
}
