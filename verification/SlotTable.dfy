/** The slot table's storage, updated in place (simple-socks5.c); Lifecycle has its use by several threads. */
module SlotTable {
  import opened Seqs
  import opened Lifecycle
  import LifecycleRuns

  /** A slot as memset leaves it. */
  function Zeroed(): Slot { Slot(0, 0, false, 0, false, false, 0, false) }

  class SlotTable {
    const slots: array<Slot>
    const freeSlots: array<nat>
    var top: nat

    ghost predicate Valid()
      reads this, freeSlots
    {
      && slots.Length == SLOT_COUNT && freeSlots.Length == SLOT_COUNT && top <= SLOT_COUNT
      && NoDup(Free()) && forall s :: s in Free() ==> s < SLOT_COUNT
    }

    /** The free stack, its top last. */
    ghost function Free(): seq<nat>
      requires top <= freeSlots.Length
      reads this, freeSlots
    {
      freeSlots[..top]
    }

    constructor ()
      ensures Valid() && Free() == [] && forall i :: 0 <= i < SLOT_COUNT ==> slots[i] == Zeroed()
      ensures fresh(slots) && fresh(freeSlots)
    {
      slots := new Slot[SLOT_COUNT](_ => Zeroed());
      freeSlots := new nat[SLOT_COUNT](_ => 0);
      top := 0;
    }

    /** slots_init: all slots free, and no generation ever falls or is zero. */
    method Init()
      requires Valid()
      modifies this, slots, freeSlots
      ensures Valid() && Free() == LifecycleRuns.Iota(SLOT_COUNT)
      ensures forall i :: 0 <= i < SLOT_COUNT ==>
                slots[i] == old(slots[i]).(gen := if old(slots[i]).gen == 0 then 1 else old(slots[i]).gen, active := false)
    {
      var i := 0;
      while i < SLOT_COUNT
        invariant i <= SLOT_COUNT
        invariant forall k :: 0 <= k < i ==> freeSlots[k] == k
        invariant forall k :: 0 <= k < i ==>
                    slots[k] == old(slots[k]).(gen := if old(slots[k]).gen == 0 then 1 else old(slots[k]).gen, active := false)
        invariant forall k :: i <= k < SLOT_COUNT ==> slots[k] == old(slots[k])
      {
        if slots[i].gen == 0 { slots[i] := slots[i].(gen := 1); }
        slots[i] := slots[i].(active := false);
        freeSlots[i] := i;
        i := i + 1;
      }
      top := SLOT_COUNT;
      assert Free() == LifecycleRuns.Iota(SLOT_COUNT)[0..];
      LifecycleRuns.IotaNoDup(0, SLOT_COUNT);
    }

    /** slot_acquire: the top of the stack, all zero but for a new generation and its mark, or -1 when there is none. */
    method Acquire() returns (idx: int)
      requires Valid()
      modifies this`top, slots
      ensures Valid() && (idx == -1 <==> old(Free()) == [])
      ensures idx == -1 ==> Free() == []
      ensures idx != -1 ==> 0 <= idx < SLOT_COUNT && old(Free()) == Free() + [idx] && idx !in Free()
      ensures idx != -1 ==> slots[idx] == Zeroed().(gen := old(slots[idx]).gen + 1, active := true)
      ensures forall i :: 0 <= i < SLOT_COUNT && i != idx ==> slots[i] == old(slots[i])
    {
      if top == 0 { return -1; }
      ghost var before := Free();
      top := top - 1;
      var s: nat := freeSlots[top];
      assert before == Free() + [s];
      NoDupAppend<nat>(Free(), s);
      assert s in before && forall x :: x in Free() ==> x in before;
      slots[s] := slots[s].(gen := slots[s].gen + 1);
      var g := slots[s].gen;
      slots[s] := Zeroed();
      slots[s] := slots[s].(gen := g);
      slots[s] := slots[s].(active := true);
      idx := s;
    }

    /** slot_release: a slot in use always finds room on the stack. */
    method Release(idx: nat)
      requires Valid() && idx < SLOT_COUNT && idx !in Free()
      modifies this`top, slots, freeSlots
      ensures Valid() && Free() == old(Free()) + [idx] && slots[idx] == old(slots[idx]).(active := false)
      ensures forall i :: 0 <= i < SLOT_COUNT && i != idx ==> slots[i] == old(slots[i])
    {
      ghost var before := Free();
      NoDupAppend<nat>(before, idx);
      Pigeonhole(before + [idx], SLOT_COUNT);
      slots[idx] := slots[idx].(active := false);
      freeSlots[top] := idx;
      top := top + 1;
      assert Free() == before + [idx];
    }
  }
}
