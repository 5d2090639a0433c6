/**
  The doubly linked list that threads a worker's connections through their own slots
  (simple-socks5.c: list_add_locked, list_remove_locked, the finalize test, the timeout scan and
  the batched exit drain).

  Slot numbers stand for connection pointers and -1 for NULL. `Order` is the sequence of
  connections from the head; the methods say what they do to it, and keep the links of every
  slot that is not on the list cleared.
 */
module IntrusiveList {
  import opened Seqs

  /** The elements of xs that satisfy p, in order. */
  function Select(xs: seq<nat>, p: seq<bool>, want: bool): seq<nat> {
    if xs == [] then []
    else if xs[0] < |p| && p[xs[0]] == want then [xs[0]] + Select(xs[1..], p, want)
    else Select(xs[1..], p, want)
  }

  /** Moving the first element of the rest over to what has been picked. */
  lemma SelectHead(done: seq<nat>, rest: seq<nat>, p: seq<bool>, want: bool)
    requires rest != [] && rest[0] < |p|
    ensures done + Select(rest, p, want) ==
            (if p[rest[0]] == want then done + [rest[0]] else done) + Select(rest[1..], p, want)
  {
  }

  /** Part of a scan: what stays and what goes, with what the unseen rest will add to each. */
  ghost predicate Midsweep(all: seq<nat>, bucket: seq<nat>, stay: seq<nat>, gone: seq<nat>, rest: seq<nat>, expired: seq<bool>) {
    && stay + Select(rest, expired, false) == Select(all, expired, false)
    && gone + Select(rest, expired, true) == bucket + Select(all, expired, true)
  }

  lemma SweepStep(all: seq<nat>, bucket: seq<nat>, stay: seq<nat>, gone: seq<nat>, rest: seq<nat>, expired: seq<bool>)
    requires Midsweep(all, bucket, stay, gone, rest, expired) && rest != [] && rest[0] < |expired|
    ensures if expired[rest[0]] then Midsweep(all, bucket, stay, gone + [rest[0]], rest[1..], expired)
            else Midsweep(all, bucket, stay + [rest[0]], gone, rest[1..], expired)
  {
    SelectHead(stay, rest, expired, false);
    SelectHead(gone, rest, expired, true);
  }

  lemma {:induction false} WithoutAt(xs: seq<nat>, k: nat)
    requires k < |xs| && NoDup(xs)
    ensures Without(xs, xs[k]) == xs[..k] + xs[k + 1..]
  {
    if k == 0 {
      assert xs[..0] + xs[1..] == xs[1..];
    } else {
      NoDupAt(xs, 0, k);
      WithoutAt(xs[1..], k - 1);
      assert xs[1..][..k - 1] == xs[1..k] && xs[1..][k..] == xs[k + 1..];
      assert xs[..k] + xs[k + 1..] == [xs[0]] + (xs[1..k] + xs[k + 1..]);
    }
  }

  // ----- what the two pointer arrays say about an order -----

  ghost predicate Within(order: seq<nat>, n: nat) { forall i :: 0 <= i < |order| ==> order[i] < n }

  function Succ(order: seq<nat>, i: nat): int { if i + 1 < |order| then order[i + 1] else -1 }
  function Pred(order: seq<nat>, i: nat): int requires i <= |order| { if i > 0 then order[i - 1] else -1 }

  ghost predicate Forward(order: seq<nat>, next: seq<int>)
    requires Within(order, |next|)
  {
    && (forall i {:trigger Succ(order, i)} :: 0 <= i < |order| ==> next[order[i]] == Succ(order, i))
    && (forall s: nat :: s < |next| && s !in order ==> next[s] == -1)
  }

  ghost predicate Backward(order: seq<nat>, prev: seq<int>)
    requires Within(order, |prev|)
  {
    && (forall i {:trigger Pred(order, i)} :: 0 <= i < |order| ==> prev[order[i]] == Pred(order, i))
    && (forall s: nat :: s < |prev| && s !in order ==> prev[s] == -1)
  }

  ghost predicate Apart(order: seq<nat>) { forall i, j :: 0 <= i < j < |order| ==> order[i] != order[j] }

  lemma NoDupApart(order: seq<nat>)
    requires NoDup(order)
    ensures Apart(order)
  {
    forall i, j | 0 <= i < j < |order| ensures order[i] != order[j] { NoDupAt(order, i, j); }
  }

  function Cut(order: seq<nat>, k: nat): seq<nat> requires k < |order| { order[..k] + order[k + 1..] }

  lemma CutAt(order: seq<nat>, k: nat, i: nat)
    requires k < |order| && i + 1 < |order|
    ensures Cut(order, k)[i] == order[if i < k then i else i + 1]
  {
  }

  lemma CutMember(order: seq<nat>, k: nat, s: nat)
    requires k < |order|
    ensures s in order <==> s in Cut(order, k) || s == order[k]
  {
    assert order == order[..k] + [order[k]] + order[k + 1..];
  }

  /** Unlinking rewrites one forward pointer and clears one. */
  lemma ForwardCut(order: seq<nat>, next: seq<int>, k: nat)
    requires Within(order, |next|) && Forward(order, next) && Apart(order) && k < |order|
    ensures var linked := if k > 0 then next[order[k - 1] := Succ(order, k)] else next;
            Within(Cut(order, k), |next|) && Forward(Cut(order, k), linked[order[k] := -1])
  {
    var cut := Cut(order, k);
    var linked := if k > 0 then next[order[k - 1] := Succ(order, k)] else next;
    var next' := linked[order[k] := -1];
    forall i | 0 <= i < |cut| ensures cut[i] < |next| && next'[cut[i]] == Succ(cut, i) {
      CutAt(order, k, i);
      if i + 1 < |cut| { CutAt(order, k, i + 1); }
      var j := if i < k then i else i + 1;
      assert j != k && next[order[j]] == Succ(order, j);
      assert order[j] != order[k];
    }
    forall s: nat | s < |next| && s !in cut ensures next'[s] == -1 {
      if s != order[k] {
        CutMember(order, k, s);
        if k > 0 { CutAt(order, k, k - 1); }
      }
    }
  }

  lemma BackwardCutAt(order: seq<nat>, prev: seq<int>, k: nat, i: nat, linked: seq<int>)
    requires Within(order, |prev|) && Backward(order, prev) && Apart(order) && k < |order| && i + 1 < |order|
    requires linked == if k + 1 < |order| then prev[order[k + 1] := Pred(order, k)] else prev
    ensures Cut(order, k)[i] < |prev| && linked[order[k] := -1][Cut(order, k)[i]] == Pred(Cut(order, k), i)
  {
    CutAt(order, k, i);
    if i > 0 { CutAt(order, k, i - 1); }
    var j := if i < k then i else i + 1;
    assert j != k && prev[order[j]] == Pred(order, j);
    assert order[j] != order[k];
  }

  lemma BackwardCut(order: seq<nat>, prev: seq<int>, k: nat)
    requires Within(order, |prev|) && Backward(order, prev) && Apart(order) && k < |order|
    ensures var linked := if k + 1 < |order| then prev[order[k + 1] := Pred(order, k)] else prev;
            Within(Cut(order, k), |prev|) && Backward(Cut(order, k), linked[order[k] := -1])
  {
    var cut := Cut(order, k);
    var linked := if k + 1 < |order| then prev[order[k + 1] := Pred(order, k)] else prev;
    var prev' := linked[order[k] := -1];
    forall i | 0 <= i < |cut| ensures cut[i] < |prev| && prev'[cut[i]] == Pred(cut, i) {
      BackwardCutAt(order, prev, k, i, linked);
    }
    forall s: nat | s < |prev| && s !in cut ensures prev'[s] == -1 {
      if s != order[k] {
        CutMember(order, k, s);
        if k + 1 < |order| { CutAt(order, k, k); }
      }
    }
  }

  lemma ForwardAdd(order: seq<nat>, next: seq<int>, s: nat)
    requires Within(order, |next|) && Forward(order, next) && s < |next| && s !in order
    ensures Within([s] + order, |next|)
    ensures Forward([s] + order, next[s := if order == [] then -1 else order[0]])
  {
    var next' := next[s := if order == [] then -1 else order[0]];
    var longer := [s] + order;
    forall i | 0 <= i < |longer| ensures longer[i] < |next| && next'[longer[i]] == Succ(longer, i) {
      if i > 0 { assert longer[i] == order[i - 1] && next[order[i - 1]] == Succ(order, i - 1); }
    }
  }

  lemma BackwardAdd(order: seq<nat>, prev: seq<int>, s: nat)
    requires Within(order, |prev|) && Backward(order, prev) && s < |prev| && s !in order && Apart(order)
    ensures Within([s] + order, |prev|)
    ensures Backward([s] + order, if order == [] then prev[s := -1] else prev[s := -1][order[0] := s])
  {
    var prev' := if order == [] then prev[s := -1] else prev[s := -1][order[0] := s];
    var longer := [s] + order;
    forall i | 0 <= i < |longer| ensures longer[i] < |prev| && prev'[longer[i]] == Pred(longer, i) {
      if i > 0 { assert longer[i] == order[i - 1] && prev[order[i - 1]] == Pred(order, i - 1); }
    }
    forall x: nat | x < |prev| && x !in longer ensures prev'[x] == -1 {
      assert x != s && x !in order;
    }
  }

  class ConnList {
    const next: array<int>
    const prev: array<int>
    var head: int
    ghost var Order: seq<nat>

    ghost predicate Valid()
      reads this, next, prev
    {
      && next != prev && next.Length == prev.Length
      && NoDup(Order) && Within(Order, next.Length)
      && head == (if Order == [] then -1 else Order[0])
      && Forward(Order, next[..]) && Backward(Order, prev[..])
    }

    constructor (slots: nat)
      ensures Valid() && Order == [] && next.Length == slots && fresh(next) && fresh(prev)
    {
      next := new int[slots](_ => -1);
      prev := new int[slots](_ => -1);
      head := -1;
      Order := [];
    }

    /** Append at the head. */
    method Add(s: nat)
      requires Valid() && s < next.Length && s !in Order
      modifies this, next, prev
      ensures Valid() && Order == [s] + old(Order)
    {
      NoDupApart(Order);
      ForwardAdd(Order, next[..], s);
      BackwardAdd(Order, prev[..], s);
      next[s] := head;
      prev[s] := -1;
      if head != -1 { prev[head] := s; }
      head := s;
      Order := [s] + Order;
      assert Order[1..] == old(Order);
    }

    /** The test conn_finalize makes: true exactly when the connection is on this list. */
    method IsLinked(s: nat) returns (linked: bool)
      requires Valid() && s < next.Length
      ensures linked <==> s in Order
    {
      linked := next[s] != -1 || prev[s] != -1 || head == s;
      assert next[s] == next[..][s] && prev[s] == prev[..][s];
      if s in Order {
        var i :| 0 <= i < |Order| && Order[i] == s;
        assert prev[s] == Pred(Order, i);
      }
    }

    method Remove(s: nat)
      requires Valid() && s < next.Length && s in Order
      modifies this, next, prev
      ensures Valid() && Order == Without(old(Order), s)
    {
      ghost var k: nat :| k < |Order| && Order[k] == s;
      NoDupApart(Order);
      ForwardCut(Order, next[..], k);
      BackwardCut(Order, prev[..], k);
      WithoutAt(Order, k);
      WithoutMembers(Order, s);
      var p, n := prev[..][s], next[..][s];
      assert p == Pred(Order, k) && n == Succ(Order, k);
      if p != -1 { next[p] := n; } else { head := n; }
      if n != -1 { prev[n] := p; }
      next[s] := -1;
      prev[s] := -1;
      Order := Cut(Order, k);
    }

    /** The `next` pointer of the k-th connection. */
    method After(s: nat, ghost k: nat) returns (follow: int)
      requires Valid() && k < |Order| && Order[k] == s
      ensures follow == Succ(Order, k)
    {
      follow := next[s];
      assert next[s] == next[..][s];
    }

    /** Look at the first connection of the unseen part, remove it or not, move on. */
    method Visit(cur: nat, gone: bool, ghost kept: seq<nat>, ghost rest: seq<nat>) returns (follow: int)
      requires Valid() && Order == kept + rest && rest != [] && rest[0] == cur
      modifies this, next, prev
      ensures Valid() && Order == (if gone then kept else kept + [cur]) + rest[1..]
      ensures follow == (if |rest| > 1 then rest[1] else -1)
    {
      assert Order[|kept|] == cur;
      follow := After(cur, |kept|);
      if gone {
        WithoutAt(Order, |kept|);
        Remove(cur);
      }
    }

    /**
      The timeout scan: walk from the head, remember each successor before touching the connection,
      unlink the expired ones into a bucket of `limit` places. When the bucket is full the lock is
      released to empty it; handshake threads may then link connections, `arrivals[i]` at the i-th
      unlock. What was on the list stays in order, and everything expired is either flushed or still
      in the bucket.
     */
    method Sweep(expired: seq<bool>, bucket: seq<nat>, limit: nat, arrivals: seq<seq<nat>>)
      returns (flushed: seq<nat>, kept: seq<nat>, joined: seq<nat>)
      requires Valid() && |expired| == next.Length && |bucket| <= limit && limit > 0
      modifies this, next, prev
      ensures Valid() && Order == joined + Select(old(Order), expired, false)
      ensures flushed + kept == bucket + Select(old(Order), expired, true) && |kept| <= limit
      ensures forall s :: s in joined ==> exists b :: b in arrivals && s in b
    {
      ghost var all: seq<nat>, stay: seq<nat>, rest: seq<nat> := Order, [], Order;
      flushed, kept, joined := [], bucket, [];
      assert flushed + kept == bucket && joined + stay + rest == rest;
      var cur: int, i: nat := head, 0;
      while cur != -1
        invariant Valid() && Within(rest, |expired|) && Order == joined + stay + rest && |kept| <= limit && i <= |arrivals|
        invariant Midsweep(all, bucket, stay, flushed + kept, rest, expired)
        invariant cur == (if rest == [] then -1 else rest[0]) && forall s :: s in joined ==> exists b :: b in arrivals && s in b
        decreases |rest|
      {
        SweepStep(all, bucket, stay, flushed + kept, rest, expired);
        var follow := Visit(cur, expired[cur], joined + stay, rest);
        if expired[cur] {
          Associate(joined, stay, rest[1..]);
          flushed, kept, joined, i := Collect(cur, flushed, kept, limit, arrivals, i, joined, stay + rest[1..]);
          Associate(joined, stay, rest[1..]);
        } else {
          Associate(joined, stay, [cur]);
          stay := stay + [cur];
        }
        rest := rest[1..];
        cur := follow;
      }
      assert joined + stay + rest == joined + stay;
    }

    /** An expired connection goes into the bucket, which is emptied first, outside the lock, if it is full. */
    method Collect(cur: nat, flushed: seq<nat>, kept: seq<nat>, limit: nat, arrivals: seq<seq<nat>>, i: nat, joined: seq<nat>, ghost others: seq<nat>)
      returns (flushed': seq<nat>, kept': seq<nat>, joined': seq<nat>, i': nat)
      requires Valid() && Order == joined + others && |kept| <= limit && limit > 0 && i <= |arrivals|
      modifies this, next, prev
      ensures Valid() && Order == joined' + others && |kept'| <= limit && i' <= |arrivals|
      ensures flushed' + kept' == flushed + kept + [cur]
      ensures forall s :: s in joined' ==> s in joined || exists b :: b in arrivals && s in b
    {
      flushed', kept', joined', i' := flushed, kept, joined, i;
      if |kept| == limit {
        flushed', kept' := flushed + kept, [];
        if i < |arrivals| {
          assert arrivals[i] in arrivals;
          joined' := ArriveAll(arrivals[i], cur, joined, others);
          i' := i + 1;
        }
        assert flushed' + kept' == flushed + kept;
      }
      Associate(flushed', kept', [cur]);
      kept' := kept' + [cur];
    }

    method ArriveAll(batch: seq<nat>, held: nat, joined: seq<nat>, ghost others: seq<nat>) returns (joined': seq<nat>)
      requires Valid() && Order == joined + others
      modifies this, next, prev
      ensures Valid() && Order == joined' + others && forall s :: s in joined' ==> s in joined || s in batch
    {
      joined' := joined;
      var i := 0;
      while i < |batch|
        invariant i <= |batch| && Valid() && Order == joined' + others && forall s :: s in joined' ==> s in joined || s in batch
      {
        joined' := Arrive(batch[i], held, joined', others);
        i := i + 1;
      }
    }

    /** While the lock is released a handshake thread links a connection, unless it is linked or the one being collected. */
    method Arrive(s: nat, held: nat, joined: seq<nat>, ghost others: seq<nat>) returns (joined': seq<nat>)
      requires Valid() && Order == joined + others
      modifies this, next, prev
      ensures Valid() && Order == joined' + others && (joined' == joined || joined' == [s] + joined)
    {
      if s >= next.Length || s == held { return joined; }
      var linked := IsLinked(s);
      if linked { return joined; }
      Add(s);
      joined' := [s] + joined;
    }

    /**
      The UDP idle scan with `room` places left in its bucket: the same list results, but what does
      not fit is unlinked without being collected. So nothing is lost exactly when all of it fits.
     */
    method UdpSweep(expired: seq<bool>, room: nat) returns (collected: seq<nat>)
      requires Valid() && |expired| == next.Length
      modifies this, next, prev
      ensures Valid() && Order == Select(old(Order), expired, false)
      ensures collected <= Select(old(Order), expired, true) && |collected| <= room
      ensures collected == Select(old(Order), expired, true) <==> |Select(old(Order), expired, true)| <= room
      ensures |Select(old(Order), expired, true)| > room ==> |collected| == room
    {
      ghost var all: seq<nat>, kept: seq<nat>, rest: seq<nat>, out: seq<nat> := Order, [], Order, [];
      collected := [];
      var cur := head;
      while cur != -1
        invariant Valid() && Within(rest, |expired|) && Order == kept + rest
        invariant kept + Select(rest, expired, false) == Select(all, expired, false)
        invariant out + Select(rest, expired, true) == Select(all, expired, true)
        invariant collected == (if |out| <= room then out else out[..room])
        invariant cur == (if rest == [] then -1 else rest[0])
        decreases |rest|
      {
        SelectHead(kept, rest, expired, false);
        SelectHead(out, rest, expired, true);
        var follow := Visit(cur, expired[cur], kept, rest);
        if expired[cur] {
          if |collected| < room { collected := collected + [cur]; }
          out := out + [cur];
        } else {
          kept := kept + [cur];
        }
        rest := rest[1..];
        cur := follow;
      }
      assert out == Select(all, expired, true);
    }

    /**
      One round of the exit drain: unlink from the head until `limit` connections are collected. One
      that is already being finalized is unlinked and left to its finalizer.
     */
    method Drain(limit: nat, poisoned: seq<bool>) returns (collected: seq<nat>, ghost taken: seq<nat>)
      requires Valid() && |poisoned| == next.Length
      modifies this, next, prev
      ensures Valid() && taken + Order == old(Order) && collected == Select(taken, poisoned, false)
      ensures |collected| <= limit && (|collected| < limit ==> Order == [])
    {
      ghost var all := Order;
      collected, taken := [], [];
      var cur := head;
      while cur != -1 && |collected| < limit
        invariant Valid() && cur == head && taken + Order == all && |collected| <= limit
        invariant collected == Select(taken, poisoned, false)
        decreases |Order|
      {
        ghost var before := Order;
        assert before == [] + before;
        var follow := Visit(cur, true, [], before);
        assert Order == before[1..];
        SelectSnoc(taken, cur, poisoned, false);
        MoveOver(taken, before);
        if !poisoned[cur] { collected := collected + [cur]; }
        taken := taken + [cur];
        cur := follow;
      }
      head := cur;
    }
  }

  lemma MoveOver(taken: seq<nat>, rest: seq<nat>)
    requires rest != []
    ensures (taken + [rest[0]]) + rest[1..] == taken + rest
  {
  }

  lemma {:induction false} SelectSnoc(xs: seq<nat>, x: nat, p: seq<bool>, want: bool)
    requires x < |p|
    ensures Select(xs + [x], p, want) == Select(xs, p, want) + (if p[x] == want then [x] else [])
  {
    if xs == [] {
      assert (xs + [x])[1..] == [];
    } else {
      assert (xs + [x])[1..] == xs[1..] + [x];
      SelectSnoc(xs[1..], x, p, want);
    }
  }

  lemma {:induction false} SelectAll(xs: seq<nat>, p: seq<bool>)
    requires forall i :: 0 <= i < |xs| ==> xs[i] < |p| && p[xs[i]]
    ensures Select(xs, p, true) == xs
  {
    if xs != [] { SelectAll(xs[1..], p); }
  }

  /** One session more than the bucket has room for, all idle: the scan unlinks one that it does not collect. */
  method UdpSweepLoses(room: nat) returns (list: ConnList, ghost before: seq<nat>, collected: seq<nat>)
    ensures list.Valid() && list.Order == [] && |before| == room + 1 && |collected| == room
    ensures exists s :: s in before && s !in collected
  {
    list := new ConnList(room + 1);
    var i := 0;
    while i <= room
      invariant i <= room + 1 && list.Valid() && |list.Order| == i && list.next.Length == room + 1 && fresh(list) && fresh(list.next) && fresh(list.prev)
      invariant forall s :: s in list.Order ==> s < i
    {
      list.Add(i);
      i := i + 1;
    }
    before := list.Order;
    var idle := seq(room + 1, _ => true);
    assert forall k :: 0 <= k < |before| ==> before[k] in before;
    SelectAll(before, idle);
    SelectNone(before, idle);
    NoDupApart(before);
    collected := list.UdpSweep(idle, room);
    assert before[room] in before;
    assert forall k :: 0 <= k < |collected| ==> collected[k] == before[k];
  }

  lemma {:induction false} SelectNone(xs: seq<nat>, p: seq<bool>)
    requires forall i :: 0 <= i < |xs| ==> xs[i] < |p| && p[xs[i]]
    ensures Select(xs, p, false) == []
  {
    if xs != [] { SelectNone(xs[1..], p); }
  }
}
