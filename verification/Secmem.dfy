/**
 Locked, wipeable buffers and the panic handler that zeroizes them (secmem.py). A signal
 handler runs between statements of whatever the main thread is doing, so every operation
 here calls `Interrupt` between its statements: it may run `ZeroizeAll` there or not.
 Touching memory that is no longer mapped would crash the process, so every memory access
 requires a live mapping.
 */
module Secmem {
  import opened Bytes

  /** No panic is on its way. */
  predicate Quiet(pending: seq<bool>) {
    forall i :: 0 <= i < |pending| ==> !pending[i]
  }

  class SecureBuffer {
    const size: nat
    /** The bytes behind the mapping. */
    var data: seq<byte>
    var mapped: bool
    var locked: bool
    var closed: bool
    var used: nat

    /** A fresh anonymous mapping reads as zeros. */
    constructor (size: nat)
      ensures this.size == size && data == Zeros(size)
      ensures mapped && !locked && !closed && used == 0
    {
      this.size := size;
      locked, closed, used, mapped := false, false, 0, true;
      data := Zeros(size);
    }
  }

  datatype Outcome = Ok | SizeError | ClosedError | TooLong

  class Memory {
    /** Buffers a panic wipes. */
    var live: seq<SecureBuffer>
    /** Every buffer ever mapped. */
    ghost var all: set<SecureBuffer>
    /** Whether a panic signal is delivered at the interruption points to come. */
    var pending: seq<bool>

    /**
     What a panic relies on: memory with anything in it belongs to a registered, open buffer,
     and an open buffer is still mapped.
     */
    ghost predicate Safe()
      reads this, all
    {
      && (forall b :: b in all ==> |b.data| == b.size)
      && (forall b :: b in live ==> b in all)
      && (forall i, j :: 0 <= i < j < |live| ==> live[i] != live[j])
      && (forall b :: b in all && !b.closed ==> b.mapped)
      && (forall b :: b in all && b.mapped && !IsZero(b.data) ==> b in live && !b.closed)
    }

    /** Between operations: the registered buffers are exactly the open ones. */
    ghost predicate Settled()
      reads this, all
    {
      Safe() && forall b :: b in all ==> (b.closed <==> b !in live)
    }

    constructor (pending: seq<bool>)
      ensures Settled() && live == [] && all == {} && this.pending == pending
    {
      live, all, this.pending := [], {}, pending;
    }

    /** Sets bytes of a mapping; the mapping must be there. */
    method Fill(b: SecureBuffer, at: nat, bytes: seq<byte>)
      requires b.mapped && at + |bytes| <= |b.data|
      modifies b`data
      ensures b.data == old(b.data)[..at] + bytes + old(b.data)[at + |bytes|..]
    {
      b.data := b.data[..at] + bytes + b.data[at + |bytes|..];
    }

    /** One buffer's wipe; a closed buffer is left alone. */
    method Wipe(b: SecureBuffer)
      requires Safe() && b in all
      modifies b`data, b`used
      ensures Safe()
      ensures b.closed ==> b.data == old(b.data)
      ensures !b.closed ==> IsZero(b.data)
    {
      if b.closed {
        return;
      }
      Fill(b, 0, Zeros(b.size));
      b.used := 0;
      assert b.data == Zeros(b.size);
    }

    /** The panic path: every registered buffer is wiped. */
    method ZeroizeAll() returns (wiped: nat)
      requires Safe()
      modifies all`data, all`used
      ensures Safe()
      ensures wiped == |live|
      ensures forall b :: b in all && b.mapped ==> IsZero(b.data)
      ensures forall b, k :: b in all && b.mapped && 0 <= k < |b.data| ==> b.data[k] == 0
      ensures forall b :: b in all ==> b.data == old(b.data) || IsZero(b.data)
    {
      wiped := 0;
      ghost var was := live;
      for i := 0 to |live|
        invariant wiped == i
        invariant Safe() && live == was
        invariant forall b :: b in all ==> b.data == old(b.data) || IsZero(b.data)
        invariant forall j :: 0 <= j < i && !live[j].closed ==> IsZero(live[j].data)
      {
        Wipe(live[i]);
        wiped := wiped + 1;
      }
    }

    /** A point between two statements: the panic handler runs here, or not. */
    method Interrupt()
      requires Safe()
      modifies this`pending, all`data, all`used
      ensures Safe()
      ensures pending == if old(pending) == [] then [] else old(pending)[1..]
      ensures old(pending) != [] && old(pending)[0] ==> forall b :: b in all && b.mapped ==> IsZero(b.data)
      ensures forall b :: b in all ==> b.data == old(b.data) || IsZero(b.data)
      ensures Quiet(old(pending)) ==> Quiet(pending) && forall b :: b in all ==> b.data == old(b.data) && b.used == old(b.used)
    {
      if pending != [] {
        var fire := pending[0];
        pending := pending[1..];
        if fire {
          var _ := ZeroizeAll();
        }
      }
    }

    method Map(size: nat) returns (b: SecureBuffer)
      requires Safe()
      modifies this`all
      ensures Safe() && fresh(b) && all == old(all) + {b}
      ensures b.size == size && b.mapped && !b.closed && IsZero(b.data)
    {
      b := new SecureBuffer(size);
      all := all + {b};
    }

    method SetLocked(b: SecureBuffer, locked: bool)
      requires Safe() && b in all
      modifies b`locked
      ensures Safe() && b.locked == locked
    {
      b.locked := locked;
    }

    method MapLocked(size: nat, lockOk: bool) returns (b: SecureBuffer)
      requires Safe()
      modifies this`all, this`pending, all`data, all`used
      ensures Safe() && fresh(b) && all == old(all) + {b}
      ensures b.size == size && b.mapped && !b.closed && b.locked == lockOk && IsZero(b.data)
      ensures forall c :: c in old(all) ==> c.data == old(c.data) || IsZero(c.data)
      ensures Quiet(old(pending)) ==> Quiet(pending) && forall c :: c in old(all) ==> c.data == old(c.data) && c.used == old(c.used)
    {
      b := Map(size);
      Interrupt();
      SetLocked(b, lockOk);
      Interrupt();
    }

    method Register(b: SecureBuffer)
      requires Safe() && b in all && b !in live
      modifies this`live, this`pending, all`data, all`used
      ensures Safe() && live == old(live) + [b]
      ensures forall c :: c in all ==> c.data == old(c.data) || IsZero(c.data)
      ensures Quiet(old(pending)) ==> Quiet(pending) && forall c :: c in all ==> c.data == old(c.data) && c.used == old(c.used)
    {
      live := live + [b];
      Interrupt();
    }

    /** Maps, locks and registers a buffer. */
    method Create(size: int, lockOk: bool) returns (outcome: Outcome, b: SecureBuffer?)
      requires Settled()
      modifies this, all`data, all`used
      ensures Settled()
      ensures outcome == if size <= 0 then SizeError else Ok
      ensures outcome.SizeError? ==> b == null && live == old(live) && all == old(all)
      ensures outcome.Ok? ==>
        && b != null && fresh(b) && b.size == size && !b.closed && b.locked == lockOk
        && IsZero(b.data) && live == old(live) + [b] && all == old(all) + {b}
      ensures forall c :: c in old(all) ==> c.data == old(c.data) || IsZero(c.data)
      ensures Quiet(old(pending)) ==> Quiet(pending) && forall c :: c in old(all) ==> c.data == old(c.data) && c.used == old(c.used)
    {
      if size <= 0 {
        return SizeError, null;
      }
      var buf := MapLocked(size, lockOk);
      Register(buf);
      outcome, b := Ok, buf;
    }

    /** Copies bytes into a registered, open buffer, then meets an interruption point. */
    method Poke(b: SecureBuffer, at: nat, bytes: seq<byte>)
      requires Safe() && b in live && !b.closed && at + |bytes| <= b.size
      modifies this`pending, all`data, all`used
      ensures Safe()
      ensures var poked := old(b.data)[..at] + bytes + old(b.data)[at + |bytes|..];
        (b.data == poked || IsZero(b.data)) && (Quiet(old(pending)) ==> b.data == poked && b.used == old(b.used))
      ensures forall c :: c in all && c != b ==> c.data == old(c.data) || IsZero(c.data)
      ensures Quiet(old(pending)) ==> Quiet(pending) && forall c :: c in all && c != b ==> c.data == old(c.data) && c.used == old(c.used)
    {
      Fill(b, at, bytes);
      Interrupt();
    }

    /** The two copies and the length. */
    method CopyIn(b: SecureBuffer, data: seq<byte>)
      requires Safe() && b in live && !b.closed && |data| <= b.size
      modifies this`pending, all`data, all`used
      ensures Safe()
      ensures b.data == data + Zeros(b.size - |data|) || IsZero(b.data)
      ensures Quiet(old(pending)) ==> b.data == data + Zeros(b.size - |data|) && b.used == |data|
      ensures forall c :: c in all && c != b ==> c.data == old(c.data) || IsZero(c.data)
      ensures Quiet(old(pending)) ==> Quiet(pending) && forall c :: c in all && c != b ==> c.data == old(c.data) && c.used == old(c.used)
    {
      Poke(b, 0, data);
      if |data| < b.size {
        Poke(b, |data|, Zeros(b.size - |data|));
      }
      b.used := |data|;
    }

    /** Copies data in and zeroes the slack after it. */
    method Write(b: SecureBuffer, data: seq<byte>) returns (outcome: Outcome)
      requires Settled() && b in all
      modifies this`pending, all`data, all`used
      ensures Settled()
      ensures outcome == if b.closed then ClosedError else if |data| > b.size then TooLong else Ok
      ensures outcome.Ok? ==> b.data == data + Zeros(b.size - |data|) || IsZero(b.data)
      ensures outcome.Ok? && Quiet(old(pending)) ==> b.data == data + Zeros(b.size - |data|) && b.used == |data|
      ensures !outcome.Ok? ==> b.data == old(b.data) || IsZero(b.data)
      ensures !outcome.Ok? && Quiet(old(pending)) ==> b.data == old(b.data) && b.used == old(b.used)
      ensures forall c :: c in all && c != b ==> c.data == old(c.data) || IsZero(c.data)
      ensures Quiet(old(pending)) ==> Quiet(pending) && forall c :: c in all && c != b ==> c.data == old(c.data) && c.used == old(c.used)
    {
      if b.closed {
        return ClosedError;
      }
      Interrupt();
      if |data| > b.size {
        return TooLong;
      }
      Interrupt();
      CopyIn(b, data);
      outcome := Ok;
    }

    /** One buffer's wipe, as the program itself calls it. */
    method Zeroize(b: SecureBuffer)
      requires Safe() && b in all
      modifies this`pending, all`data, all`used
      ensures Safe()
      ensures if b.closed then b.data == old(b.data) else IsZero(b.data)
      ensures !b.closed ==> forall k :: 0 <= k < |b.data| ==> b.data[k] == 0
      ensures forall c :: c in all && c != b ==> c.data == old(c.data) || IsZero(c.data)
      ensures Quiet(old(pending)) ==> Quiet(pending) && forall c :: c in all && c != b ==> c.data == old(c.data) && c.used == old(c.used)
    {
      if b.closed {
        return;
      }
      Interrupt();
      Fill(b, 0, Zeros(b.size));
      assert b.data == Zeros(b.size);
      Interrupt();
      b.used := 0;
      Interrupt();
    }

    /** The final wipe and the unlock, the mapping still there. */
    method WipeAndUnlock(b: SecureBuffer)
      requires Safe() && b in all && !b.closed
      modifies this`pending, all`data, all`used, b`locked
      ensures Safe() && IsZero(b.data)
      ensures forall c :: c in all && c != b ==> c.data == old(c.data) || IsZero(c.data)
      ensures Quiet(old(pending)) ==> Quiet(pending) && forall c :: c in all && c != b ==> c.data == old(c.data) && c.used == old(c.used)
    {
      Zeroize(b);
      if b.locked {
        Interrupt();
        b.locked := false;
      }
      Interrupt();
    }

    /** From here on a panic skips this buffer: closed first, then out of the registry. */
    method Retire(b: SecureBuffer)
      requires Safe() && b in all && IsZero(b.data)
      modifies this`live, this`pending, all`data, all`used, b`closed
      ensures Safe() && b.closed && IsZero(b.data)
      ensures live == Without(old(live), b) && b !in live
      ensures forall c :: c in all ==> c.data == old(c.data) || IsZero(c.data)
      ensures Quiet(old(pending)) ==> Quiet(pending) && forall c :: c in all ==> c.data == old(c.data) && c.used == old(c.used)
    {
      b.closed := true;
      Interrupt();
      WithoutDrops(live, b);
      live := Without(live, b);
      Interrupt();
    }

    method Unmap(b: SecureBuffer, exported: bool)
      requires Safe() && b in all && b.closed && IsZero(b.data)
      modifies this`pending, all`data, all`used, b`mapped
      ensures Safe() && b.mapped == exported && IsZero(b.data)
      ensures forall c :: c in all ==> c.data == old(c.data) || IsZero(c.data)
      ensures Quiet(old(pending)) ==> Quiet(pending) && forall c :: c in all ==> c.data == old(c.data) && c.used == old(c.used)
    {
      b.mapped := exported;
      Interrupt();
    }

    /** Wipes, unlocks, retires and only then unmaps; an outstanding export keeps the empty mapping. */
    method Free(b: SecureBuffer, exported: bool)
      requires Settled() && b in all
      modifies this`live, this`pending, all`data, all`used, b`mapped, b`locked, b`closed
      ensures Settled() && b.closed
      ensures old(b.closed) ==> live == old(live) && b.mapped == old(b.mapped) && b.data == old(b.data)
      ensures !old(b.closed) ==> live == Without(old(live), b) && b.mapped == exported && IsZero(b.data)
      ensures !old(b.closed) ==> forall k :: 0 <= k < |b.data| ==> b.data[k] == 0
      ensures forall c :: c in all && c != b ==> c.data == old(c.data) || IsZero(c.data)
      ensures Quiet(old(pending)) ==> Quiet(pending) && forall c :: c in all && c != b ==> c.data == old(c.data) && c.used == old(c.used)
    {
      if b.closed {
        return;
      }
      Interrupt();
      WipeAndUnlock(b);
      WithoutKeeps(live, b);
      Retire(b);
      Unmap(b, exported);
    }
  }

  /** The list without the first occurrence of b. */
  function Without(s: seq<SecureBuffer>, b: SecureBuffer): seq<SecureBuffer> {
    if s == [] then []
    else if s[0] == b then s[1..]
    else [s[0]] + Without(s[1..], b)
  }

  lemma {:induction false} WithoutKeeps(s: seq<SecureBuffer>, b: SecureBuffer)
    ensures forall c :: c != b ==> (c in Without(s, b) <==> c in s)
    ensures forall c :: c in Without(s, b) ==> c in s
  {
    if s != [] {
      WithoutKeeps(s[1..], b);
      assert s == [s[0]] + s[1..];
    }
  }

  lemma {:induction false} WithoutDrops(s: seq<SecureBuffer>, b: SecureBuffer)
    requires forall i, j :: 0 <= i < j < |s| ==> s[i] != s[j]
    ensures b !in Without(s, b)
    ensures forall i, j :: 0 <= i < j < |Without(s, b)| ==> Without(s, b)[i] != Without(s, b)[j]
    ensures forall c :: c in Without(s, b) ==> c in s
    ensures forall c :: c != b && c in s ==> c in Without(s, b)
  {
    WithoutKeeps(s, b);
    if s != [] && s[0] != b {
      WithoutDrops(s[1..], b);
      WithoutKeeps(s[1..], b);
      assert s[0] !in s[1..];
    }
  }

  // ----- Any sequence of operations ---------------------------------------------------------

  datatype Op =
    | DoCreate(size: int, lockOk: bool)
    | DoWrite(i: nat, data: seq<byte>)
    | DoZeroize(i: nat)
    | DoFree(i: nat, exported: bool)

  /** A buffer as its owner sees it when no panic falls. */
  datatype Held = Held(bytes: seq<byte>, closed: bool)

  function Play(hs: seq<Held>, op: Op): seq<Held> {
    match op
    case DoCreate(size, _) => if size <= 0 then hs else hs + [Held(Zeros(size), false)]
    case DoWrite(i, data) =>
      if i >= |hs| || hs[i].closed || |data| > |hs[i].bytes| then hs
      else hs[i := Held(data + Zeros(|hs[i].bytes| - |data|), false)]
    case DoZeroize(i) =>
      if i >= |hs| || hs[i].closed then hs else hs[i := Held(Zeros(|hs[i].bytes|), false)]
    case DoFree(i, _) =>
      if i >= |hs| || hs[i].closed then hs else hs[i := Held(Zeros(|hs[i].bytes|), true)]
  }

  function PlayAll(ops: seq<Op>): seq<Held> {
    if ops == [] then [] else Play(PlayAll(ops[..|ops| - 1]), ops[|ops| - 1])
  }

  /** What one more operation leaves in each buffer when no panic falls. */
  lemma PlayMeans(ops: seq<Op>, op: Op)
    ensures var hs, now := PlayAll(ops), PlayAll(ops + [op]);
      match op
      case DoCreate(size, _) =>
        && (size <= 0 ==> now == hs)
        && (size > 0 ==>
              && |now| == |hs| + 1 && now[..|hs|] == hs && !now[|hs|].closed
              && |now[|hs|].bytes| == size && forall k :: 0 <= k < size ==> now[|hs|].bytes[k] == 0)
      case DoWrite(i, data) =>
        && |now| == |hs| && (forall j :: 0 <= j < |hs| && j != i ==> now[j] == hs[j])
        && (i < |hs| ==> now[i].closed == hs[i].closed && |now[i].bytes| == |hs[i].bytes|)
        && (i < |hs| && (hs[i].closed || |data| > |hs[i].bytes|) ==> now[i] == hs[i])
        && (i < |hs| && !hs[i].closed && |data| <= |hs[i].bytes| ==>
              && now[i].bytes[..|data|] == data
              && forall k :: |data| <= k < |now[i].bytes| ==> now[i].bytes[k] == 0)
      case DoZeroize(i) =>
        && |now| == |hs| && (forall j :: 0 <= j < |hs| && j != i ==> now[j] == hs[j])
        && (i < |hs| && hs[i].closed ==> now[i] == hs[i])
        && (i < |hs| && !hs[i].closed ==> !now[i].closed && forall k :: 0 <= k < |now[i].bytes| ==> now[i].bytes[k] == 0)
      case DoFree(i, _) =>
        && |now| == |hs| && (forall j :: 0 <= j < |hs| && j != i ==> now[j] == hs[j])
        && (i < |hs| ==> now[i].closed)
        && (i < |hs| && hs[i].closed ==> now[i] == hs[i])
        && (i < |hs| && !hs[i].closed ==> forall k :: 0 <= k < |now[i].bytes| ==> now[i].bytes[k] == 0)
  {
    assert (ops + [op])[..|ops|] == ops;
  }

  /** Buffers that hold what was last put there, or nothing; and just that when no panic falls. */
  ghost predicate Holds(memory: Memory, buffers: seq<SecureBuffer>, hs: seq<Held>, quiet: bool)
    reads memory, memory.all, buffers
  {
    && |buffers| == |hs|
    && (forall i :: 0 <= i < |buffers| ==> buffers[i] in memory.all)
    && (forall i, j :: 0 <= i < j < |buffers| ==> buffers[i] != buffers[j])
    && (forall i :: 0 <= i < |hs| ==> HoldsOne(buffers[i], hs[i], quiet))
    && (quiet ==> Quiet(memory.pending))
  }

  ghost predicate HoldsOne(b: SecureBuffer, h: Held, quiet: bool)
    reads b
  {
    && b.size == |h.bytes| && b.closed == h.closed
    && (b.data == h.bytes || (!quiet && IsZero(b.data)))
  }

  /** A whole session, panics falling anywhere in it. */
  method Session(ops: seq<Op>, pending: seq<bool>) returns (memory: Memory, buffers: seq<SecureBuffer>)
    ensures fresh(memory) && memory.Settled()
    ensures Holds(memory, buffers, PlayAll(ops), Quiet(pending))
    ensures var hs := PlayAll(ops);
      && |buffers| == |hs|
      && forall i :: 0 <= i < |hs| ==>
           && buffers[i].closed == hs[i].closed && (buffers[i].closed <==> buffers[i] !in memory.live)
           && (buffers[i].data == hs[i].bytes
               || (true in pending && forall k :: 0 <= k < |buffers[i].data| ==> buffers[i].data[k] == 0))
  {
    memory := new Memory(pending);
    buffers := [];
    for n := 0 to |ops|
      invariant fresh(memory) && fresh(memory.all) && memory.Settled()
      invariant Holds(memory, buffers, PlayAll(ops[..n]), Quiet(pending))
    {
      buffers := RunOp(memory, buffers, ops[n], PlayAll(ops[..n]), Quiet(pending));
      assert ops[..n + 1][..n] == ops[..n];
    }
    assert ops[..|ops|] == ops;
  }

  method RunCreate(memory: Memory, buffers: seq<SecureBuffer>, size: int, lockOk: bool, ghost hs: seq<Held>, ghost quiet: bool)
    returns (after: seq<SecureBuffer>)
    requires memory.Settled() && Holds(memory, buffers, hs, quiet)
    modifies memory, memory.all
    ensures memory.Settled() && Holds(memory, after, Play(hs, DoCreate(size, lockOk)), quiet)
    ensures forall b :: b in memory.all ==> b in old(memory.all) || fresh(b)
  {
    var outcome, b := memory.Create(size, lockOk);
    after := if outcome.Ok? then buffers + [b] else buffers;
  }

  method RunOp(memory: Memory, buffers: seq<SecureBuffer>, op: Op, ghost hs: seq<Held>, ghost quiet: bool)
    returns (after: seq<SecureBuffer>)
    requires memory.Settled() && Holds(memory, buffers, hs, quiet)
    modifies memory, memory.all
    ensures memory.Settled() && Holds(memory, after, Play(hs, op), quiet)
    ensures forall b :: b in memory.all ==> b in old(memory.all) || fresh(b)
  {
    after := buffers;
    match op {
      case DoCreate(size, lockOk) =>
        after := RunCreate(memory, buffers, size, lockOk, hs, quiet);
      case DoWrite(i, data) =>
        if i < |buffers| {
          var _ := memory.Write(buffers[i], data);
        }
      case DoZeroize(i) =>
        if i < |buffers| {
          memory.Zeroize(buffers[i]);
        }
      case DoFree(i, exported) =>
        if i < |buffers| {
          RunFree(memory, buffers, i, exported, hs, quiet);
        }
    }
  }

  method RunFree(memory: Memory, buffers: seq<SecureBuffer>, i: nat, exported: bool, ghost hs: seq<Held>, ghost quiet: bool)
    requires i < |buffers| && memory.Settled() && Holds(memory, buffers, hs, quiet)
    modifies memory, memory.all
    ensures memory.Settled() && Holds(memory, buffers, Play(hs, DoFree(i, exported)), quiet)
    ensures memory.all == old(memory.all)
  {
    memory.Free(buffers[i], exported);
  }
}
