/** The loops of udp_dns.c and of flushing or dropping held frames, against the functions the model uses. */
module UdpDnsTables {
  import opened Seqs
  import opened UdpDns

  method JobFind(jobs: array<Job>, host: Host) returns (r: int)
    ensures r == FindJob(jobs[..], host, 0)
    ensures r >= 0 ==> r < jobs.Length && jobs[r].state != Free && jobs[r].host == host
    ensures r >= 0 ==> forall k :: 0 <= k < r ==> jobs[k].state == Free || jobs[k].host != host
    ensures r < 0 ==> host == [] || forall k :: 0 <= k < jobs.Length ==> jobs[k].state == Free || jobs[k].host != host
  {
    if host == [] { return -1; }
    var i := 0;
    while i < jobs.Length
      invariant 0 <= i <= jobs.Length
      invariant FindJob(jobs[..], host, 0) == FindJob(jobs[..], host, i)
      invariant forall k :: 0 <= k < i ==> jobs[k].state == Free || jobs[k].host != host
    {
      if jobs[i].state != Free && jobs[i].host == host { return i; }
      i := i + 1;
    }
    return -1;
  }

  method JobAlloc(jobs: array<Job>) returns (r: int)
    ensures r == AllocJob(jobs[..], 0)
    ensures r >= 0 ==> r < jobs.Length && jobs[r].state == Free
    ensures r < 0 <==> forall k :: 0 <= k < jobs.Length ==> jobs[k].state != Free
  {
    var i := 0;
    while i < jobs.Length
      invariant 0 <= i <= jobs.Length
      invariant AllocJob(jobs[..], 0) == AllocJob(jobs[..], i)
      invariant forall k :: 0 <= k < i ==> jobs[k].state != Free
    {
      if jobs[i].state == Free { return i; }
      i := i + 1;
    }
    return -1;
  }

  method PendFreeSlot(pend: array<Pend>) returns (r: int)
    ensures r == FreePend(pend[..], 0)
    ensures r < 0 <==> forall k :: 0 <= k < pend.Length ==> pend[k].Used?
  {
    var i := 0;
    while i < pend.Length
      invariant 0 <= i <= pend.Length
      invariant FreePend(pend[..], 0) == FreePend(pend[..], i)
      invariant forall k :: 0 <= k < i ==> pend[k].Used?
    {
      if pend[i] == Unused { return i; }
      i := i + 1;
    }
    return -1;
  }

  /** The count reaches the table's length exactly when no slot is free. */
  method PendCount(pend: array<Pend>) returns (c: nat)
    ensures c == Count(pend[..], (p: Pend) => p.Used?)
    ensures c == pend.Length <==> FreePend(pend[..], 0) < 0
  {
    var used := (p: Pend) => p.Used?;
    c := 0;
    var i := 0;
    while i < pend.Length
      invariant 0 <= i <= pend.Length
      invariant Count(pend[..], used) == c + Count(pend[i..], used)
    {
      assert pend[i..][1..] == pend[i + 1..] && pend[i..][0] == pend[i];
      if pend[i].Used? { c := c + 1; }
      i := i + 1;
    }
    assert pend[..] == pend[0..];
    FullIffNoneFree(pend[..], 0);
  }

  lemma {:induction false} FullIffNoneFree(pend: seq<Pend>, i: nat)
    requires i <= |pend|
    ensures Count(pend[i..], (p: Pend) => p.Used?) <= |pend| - i
    ensures Count(pend[i..], (p: Pend) => p.Used?) == |pend| - i <==> FreePend(pend, i) < 0
    decreases |pend| - i
  {
    if i < |pend| {
      assert pend[i..][1..] == pend[i + 1..];
      FullIffNoneFree(pend, i + 1);
    }
  }

  /** The inner loop of udp_dns_flush_pending and udp_dns_drop_pending, on one session. */
  method EmptySlots(pend: array<Pend>, host: Host) returns (n: nat)
    modifies pend
    ensures pend[..] == Clear(old(pend[..]), host)
    ensures n == Count(old(pend[..]), (p: Pend) => p.Used? && p.host == host)
  {
    var held := (p: Pend) => p.Used? && p.host == host;
    n := 0;
    var i := 0;
    while i < pend.Length
      invariant 0 <= i <= pend.Length
      invariant pend[..i] == Clear(old(pend[..]), host)[..i] && pend[i..] == old(pend[i..])
      invariant Count(old(pend[..]), held) == n + Count(pend[i..], held)
    {
      assert pend[i..][1..] == pend[i + 1..] && pend[i..][0] == pend[i];
      if pend[i].Used? && pend[i].host == host {
        pend[i] := Unused;
        n := n + 1;
      }
      i := i + 1;
    }
  }
}
