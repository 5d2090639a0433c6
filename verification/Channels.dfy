/** One direction of forwarding: a fixed buffer filled by recv and emptied by partial sends (try_send). */
module Channels {
  import opened Octets

  datatype Rc = AllSent | Stuck | Broken

  /** How many of `pending` bytes a series of send outcomes moves, and how it ends. */
  function Drain(script: seq<SendOutcome>, pending: nat): (r: (nat, Rc))
    ensures r.0 <= pending && (r.1 == AllSent <==> r.0 == pending)
  {
    if pending == 0 then (0, AllSent)
    else if script == [] || script[0] == SendBlocked then (0, Stuck)
    else if script[0] == SendFailed then (0, Broken)
    else
      var k := Clip(script[0].n, pending);
      var rest := Drain(script[1..], pending - k);
      (k + rest.0, rest.1)
  }

  /** Sending goes on until all is out: it stops early only at a call that blocks or fails. */
  lemma {:induction false} DrainGoesOn(script: seq<SendOutcome>, pending: nat)
    ensures (forall i :: 0 <= i < |script| ==> script[i].Sent?) && |script| >= pending ==> Drain(script, pending) == (pending, AllSent)
    ensures Drain(script, pending).1 == Broken ==> SendFailed in script
    ensures Drain(script, pending).1 == Stuck ==> SendBlocked in script || |script| < pending
  {
    if pending > 0 && script != [] && script[0].Sent? {
      DrainGoesOn(script[1..], pending - Clip(script[0].n, pending));
    }
  }

  /** A socket reported writable does not block the first send. */
  predicate Writable(script: seq<SendOutcome>) { script != [] && script[0] != SendBlocked }

  /** One direction: a buffer with its length and offset; `received` and `sent` are the two streams so far. */
  class Channel {
    const buf: array<byte>
    var len: nat
    var off: nat
    ghost var received: seq<byte>
    ghost var sent: seq<byte>

    ghost predicate Valid()
      reads this, buf
    {
      Sized() && (len > 0 ==> off < len) && Faithful(|received|)
    }

    ghost predicate Sized()
      reads this
    {
      buf.Length == BUFFER_SIZE && off <= len <= BUFFER_SIZE && |received| == |sent| + len - off
    }

    /** The first n bytes received are, in order, those sent and then those buffered. */
    ghost predicate Faithful(n: nat)
      requires off <= len <= buf.Length && n <= |received| == |sent| + len - off
      reads this, buf
      decreases n
    {
      n == 0 || (Faithful(n - 1) && received[n - 1] == (if n <= |sent| then sent[n - 1] else buf[off + n - 1 - |sent|]))
    }

    /** Said with sequences: the bytes sent followed by the bytes buffered are the bytes received. */
    lemma Streams()
      requires Sized()
      ensures Faithful(|received|) <==> sent + buf[off..len] == received
    {
      StreamsTo(|received|);
      assert received[..|received|] == received && (sent + buf[off..len])[..|received|] == sent + buf[off..len];
    }

    lemma AllOut()
      requires Valid() && len == 0
      ensures sent == received
    {
      Streams();
    }

    lemma {:induction false} StreamsTo(n: nat)
      requires off <= len <= buf.Length && n <= |received| == |sent| + len - off
      ensures Faithful(n) <==> (sent + buf[off..len])[..n] == received[..n]
      decreases n
    {
      if n > 0 {
        StreamsTo(n - 1);
        var all := sent + buf[off..len];
        assert all[..n] == all[..n - 1] + [all[n - 1]] && received[..n] == received[..n - 1] + [received[n - 1]];
      }
    }

    constructor ()
      ensures Valid() && fresh(buf) && received == [] && sent == [] && len == 0 && off == 0
    {
      buf := new byte[BUFFER_SIZE];
      len, off, received, sent := 0, 0, [], [];
    }

    /** One send of k bytes from the offset. */
    method Emit(k: nat)
      requires Sized() && Faithful(|received|) && k <= len - off
      modifies this`off, this`sent
      ensures Sized() && Faithful(|received|)
      ensures off == old(off) + k && sent == old(sent) + buf[old(off)..off]
    {
      Streams();
      assert buf[off..len] == buf[off..off + k] + buf[off + k..len];
      sent := sent + buf[off..off + k];
      off := off + k;
      assert sent + buf[off..len] == received;
      Streams();
    }

    method Reset()
      requires Sized() && Faithful(|received|) && off == len
      modifies this`off, this`len
      ensures Valid() && len == 0
    {
      Streams();
      off, len := 0, 0;
      Streams();
    }

    /** try_send: send from the offset until all is out, the socket blocks, or it fails. */
    method TrySend(script: seq<SendOutcome>) returns (rc: Rc, total: nat)
      requires Valid()
      modifies this`len, this`off, this`sent
      ensures Valid()
      ensures (total, rc) == Drain(script, old(|received| - |sent|))
      ensures |sent| == old(|sent|) + total
      ensures rc == AllSent <==> len == 0
    {
      total := 0;
      var i := 0;
      while off < len
        invariant Sized() && Faithful(|received|)
        invariant i <= |script| && len == old(len) && total == off - old(off)
        invariant |sent| == old(|sent|) + total
        invariant Drain(script, old(len - off)) ==
                  (total + Drain(script[i..], len - off).0, Drain(script[i..], len - off).1)
        decreases len - off
      {
        if i == |script| || script[i] == SendBlocked { return Stuck, total; }
        if script[i] == SendFailed { return Broken, total; }
        var k := Clip(script[i].n, len - off);
        assert script[i..][1..] == script[i + 1..];
        Emit(k);
        total := total + k;
        i := i + 1;
      }
      Reset();
      return AllSent, total;
    }

    /** recv into an empty buffer. */
    method Fill(data: seq<byte>)
      requires Valid() && len == 0 && 0 < |data| <= BUFFER_SIZE
      modifies this`len, this`off, this`received, buf
      ensures Valid() && len == |data| && off == 0 && received == old(received) + data
    {
      Streams();
      forall i | 0 <= i < |data| { buf[i] := data[i]; }
      len, off := |data|, 0;
      received := received + data;
      assert buf[0..len] == data;
      Streams();
    }

    /** Bytes already in an idle buffer at `from` become its content: memmove to the front. */
    method Adopt(from: nat, n: nat)
      requires Sized() && len == 0 && sent == received && 0 < n && from + n <= BUFFER_SIZE
      modifies this`len, this`off, this`received, buf
      ensures Valid() && len == n && received == old(received) + old(buf[from..from + n])
    {
      ghost var data := buf[from..from + n];
      assert forall i :: 0 <= i < n ==> buf[from + i] == data[i];
      if from != 0 {
        forall i | 0 <= i < n { buf[i] := buf[from + i]; }
      }
      len, off := n, 0;
      assert buf[0..n] == data;
      received := received + data;
      Streams();
    }

    /** Bytes just read go out at once, as far as the other side takes them. */
    method Pass(data: seq<byte>, script: seq<SendOutcome>) returns (rc: Rc, total: nat)
      requires Valid() && len == 0 && 0 < |data| <= BUFFER_SIZE
      modifies this`len, this`off, this`received, this`sent, buf
      ensures Valid() && received == old(received) + data
      ensures (total, rc) == Drain(script, |data|) && |sent| == old(|sent|) + total
    {
      Fill(data);
      rc, total := TrySend(script);
    }
  }
}
