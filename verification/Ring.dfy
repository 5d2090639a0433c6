/**
  The bounded rings of simple-socks5.c (handshake jobs, name resolution requests). Each method is
  one critical section under the ring's lock, so a run of the threads is a sequence of calls.
 */
module Ring {

  /** Cell i places after `head`. */
  function Cell(head: nat, i: nat, cap: nat): (k: nat)
    requires head < cap && i <= cap
    ensures k < cap
  {
    if head + i < cap then head + i else head + i - cap
  }

  lemma NextCell(k: nat, cap: nat)
    requires k < cap
    ensures (k + 1) % cap == (if k + 1 == cap then 0 else k + 1)
  {
    if k + 1 < cap { assert (k + 1) % cap == k + 1; }
  }

  datatype Next<T> = Wait | Exit | Item(value: T)

  class Ring<T(0)> {
    const cells: array<T>
    const refusesWhenStopped: bool   // the job pool's ring does, the resolver's does not
    var head: nat
    var tail: nat
    var count: nat
    var stop: bool
    ghost var accepted: seq<T>
    ghost var taken: seq<T>

    /** What was taken, followed by what is in the ring, is what was accepted. */
    ghost predicate Valid()
      reads this, cells
    {
      && head < cells.Length && count <= cells.Length && tail == Cell(head, count, cells.Length)
      && taken <= accepted && |accepted| == |taken| + count
      && forall i :: 0 <= i < count ==> cells[Cell(head, i, cells.Length)] == accepted[|taken| + i]
    }

    constructor (cap: nat, refuses: bool)
      requires cap > 0
      ensures Valid() && fresh(cells) && cells.Length == cap && accepted == [] && !stop && refusesWhenStopped == refuses
    {
      cells := new T[cap];
      refusesWhenStopped := refuses;
      head, tail, count, stop, accepted, taken := 0, 0, 0, false, [], [];
    }

    /** Refused only when full, or when stopped where that matters; never blocks. */
    method Enqueue(x: T) returns (ok: bool)
      requires Valid()
      modifies this`tail, this`count, this`accepted, cells
      ensures Valid()
      ensures ok <==> !(refusesWhenStopped && stop) && |old(accepted)| - |taken| < cells.Length
      ensures accepted == if ok then old(accepted) + [x] else old(accepted)
    {
      if (refusesWhenStopped && stop) || count >= cells.Length { return false; }
      NextCell(tail, cells.Length);
      cells[tail] := x;
      tail := (tail + 1) % cells.Length;
      count := count + 1;
      accepted := accepted + [x];
      return true;
    }

    /** One round of a consumer: the oldest item, or wait, or leave; it leaves only with nothing left to take. */
    method Dequeue() returns (next: Next<T>)
      requires Valid()
      modifies this`head, this`count, this`taken
      ensures Valid()
      ensures next == Exit <==> stop && old(taken) == accepted
      ensures next == Wait <==> !stop && old(taken) == accepted
      ensures next.Item? ==> |old(taken)| < |accepted| && next.value == accepted[|old(taken)|] && taken == old(taken) + [next.value]
      ensures !next.Item? ==> taken == old(taken)
    {
      if count == 0 { return if stop then Exit else Wait; }
      NextCell(head, cells.Length);
      var x := cells[head];
      assert cells[Cell(head, 0, cells.Length)] == accepted[|taken| + 0];
      ghost var was := head;
      head := (head + 1) % cells.Length;
      count := count - 1;
      taken := taken + [x];
      forall i | 0 <= i < count ensures cells[Cell(head, i, cells.Length)] == accepted[|taken| + i] {
        assert Cell(head, i, cells.Length) == Cell(was, i + 1, cells.Length);
      }
      return Item(x);
    }

    method Stop()
      requires Valid()
      modifies this`stop
      ensures Valid() && stop
    {
      stop := true;
    }
  }
}
