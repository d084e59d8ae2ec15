/** The pool of registered send buffers (io_uring_backend/send_buffer_pool.rs). */
module BufferPool {
  import opened Bytes

  /** `data` is the registered memory; `inKernel` while a zero-copy send may still read it. */
  datatype Slot = Slot(id: nat, data: Octets, inKernel: bool)

  datatype Pool = Pool(slots: seq<Slot>, free: seq<nat>)

  const ID_LIMIT := 0x1_0000

  /** Slot numbers are cut to sixteen bits to make identifiers. */
  function NewPool(count: nat, capacity: nat): Pool {
    if count == 0 || capacity == 0 then Pool([], [])
    else Pool(seq(count, i => Slot(i % ID_LIMIT, seq(capacity, _ => 0), false)), seq(count, i => i % ID_LIMIT))
  }

  predicate Distinct(s: seq<nat>) {
    forall i, j :: 0 <= i < j < |s| ==> s[i] != s[j]
  }

  /** Identifiers name slots, and the free ones are exactly those not in kernel use, each once. */
  predicate PoolOk(p: Pool) {
    && (forall i :: 0 <= i < |p.slots| ==> p.slots[i].id == i)
    && (forall i :: 0 <= i < |p.free| ==> p.free[i] < |p.slots|)
    && Distinct(p.free)
    && (forall i :: 0 <= i < |p.slots| ==> (i in p.free <==> !p.slots[i].inKernel))
  }

  /** Sixteen-bit identifiers name the slots of a new pool exactly up to 65536 of them. */
  lemma NewPoolOkIff(count: nat, capacity: nat)
    ensures PoolOk(NewPool(count, capacity)) <==> capacity == 0 || count <= ID_LIMIT
  {
    var p := NewPool(count, capacity);
    if count > 0 && capacity > 0 {
      if count <= ID_LIMIT {
        forall i | 0 <= i < |p.slots| ensures p.slots[i].id == i && i in p.free {
          assert p.free[i] == i;
        }
      } else {
        assert p.slots[ID_LIMIT].id == 0;
      }
    }
  }

  datatype Acquired = Acquired(pool: Pool, id: Option<nat>)

  /** `acquire_and_prep_buffer`: the first free slot, if the octets fit it. */
  function Acquire(p: Pool, data: Octets): Acquired
    requires PoolOk(p)
  {
    if data == [] || p.slots == [] || p.free == [] then Acquired(p, None)
    else
      var id := p.free[0];
      var slot := p.slots[id];
      if |data| > |slot.data| then Acquired(p, None)
      else
        Acquired(Pool(p.slots[id := Slot(slot.id, data + slot.data[|data|..], true)], p.free[1..]), Some(id))
  }

  function FindSlot(slots: seq<Slot>, id: nat, from: nat): (r: Option<nat>)
    requires from <= |slots|
    ensures r.Some? ==> from <= r.value < |slots| && slots[r.value].id == id
    ensures r.None? ==> forall i :: from <= i < |slots| ==> slots[i].id != id
    decreases |slots| - from
  {
    if from == |slots| then None
    else if slots[from].id == id then Some(from)
    else FindSlot(slots, id, from + 1)
  }

  /** `release_buffer`, with its guards against releasing what is not in use or already free. */
  function Release(p: Pool, id: nat): Pool {
    match FindSlot(p.slots, id, 0)
    case None => p
    case Some(k) =>
      Pool(p.slots[k := p.slots[k].(inKernel := false)], if id in p.free then p.free else p.free + [id])
  }

  /** The slots a kernel operation may still read. */
  function InKernel(p: Pool): set<nat> {
    set i | 0 <= i < |p.slots| && p.slots[i].inKernel
  }

  lemma Tail(s: seq<nat>)
    requires s != [] && Distinct(s)
    ensures Distinct(s[1..]) && s[0] !in s[1..]
    ensures forall x :: x in s <==> x == s[0] || x in s[1..]
  {
  }

  /** Acquiring takes one free slot, fills it with the octets and touches no other. */
  lemma AcquireOk(p: Pool, data: Octets)
    requires PoolOk(p)
    ensures var a := Acquire(p, data);
            && PoolOk(a.pool) && |a.pool.slots| == |p.slots|
            && (a.id.None? ==> a.pool == p)
            && (a.id.Some? ==>
                  var id := a.id.value;
                  && id < |p.slots| && id !in InKernel(p) && InKernel(a.pool) == InKernel(p) + {id}
                  && data <= a.pool.slots[id].data
                  && (forall i :: 0 <= i < |p.slots| && i != id ==> a.pool.slots[i] == p.slots[i]))
  {
  }

  /** Releasing a slot in kernel use frees it once; no octet changes. */
  lemma ReleaseOk(p: Pool, id: nat)
    requires PoolOk(p) && id in InKernel(p)
    ensures var q := Release(p, id);
            && PoolOk(q) && |q.slots| == |p.slots|
            && InKernel(q) == InKernel(p) - {id}
            && (forall i :: 0 <= i < |p.slots| ==> q.slots[i].data == p.slots[i].data)
            && (forall i :: 0 <= i < |p.slots| && i != id ==> q.slots[i] == p.slots[i])
  {
  }

  /** A slot just released can be acquired again, and acquiring it leaves the pool as it was but
      for the octets and the order of the free slots. */
  lemma AcquireThenRelease(p: Pool, data: Octets)
    requires PoolOk(p) && Acquire(p, data).id.Some?
    ensures var a := Acquire(p, data);
            var q := Release(a.pool, a.id.value);
            q.free == p.free[1..] + [p.free[0]] && InKernel(q) == InKernel(p)
  {
    AcquireOk(p, data);
    var a := Acquire(p, data);
    ReleaseOk(a.pool, a.id.value);
    Tail(p.free);
  }

  /** The pool as the source keeps it, behind its lock. */
  class SendBufferPool {
    var slots: seq<Slot>
    var free: seq<nat>

    ghost function Value(): Pool
      reads this
    {
      Pool(slots, free)
    }

    constructor (count: nat, capacity: nat)
      ensures Value() == NewPool(count, capacity)
    {
      slots, free := [], [];
      if count != 0 && capacity != 0 {
        slots := seq(count, i => Slot(i % ID_LIMIT, seq(capacity, _ => 0), false));
        free := seq(count, i => i % ID_LIMIT);
      }
    }

    method AcquireAndPrepBuffer(data: Octets) returns (id: Option<nat>)
      requires PoolOk(Value())
      modifies this
      ensures Acquired(Value(), id) == Acquire(old(Value()), data) && PoolOk(Value())
    {
      AcquireOk(Value(), data);
      id := None;
      if data == [] || slots == [] || free == [] {
        return;
      }
      var first := free[0];
      free := free[1..];
      var slot := slots[first];
      if |data| > |slot.data| {
        free := [first] + free;
        return;
      }
      slots := slots[first := Slot(slot.id, data + slot.data[|data|..], true)];
      id := Some(first);
    }

    method ReleaseBuffer(id: nat)
      modifies this
      ensures Value() == Release(old(Value()), id)
    {
      var k := 0;
      while k < |slots| && slots[k].id != id
        invariant k <= |slots|
        invariant FindSlot(slots, id, 0) == FindSlot(slots, id, k)
      {
        k := k + 1;
      }
      if k < |slots| {
        slots := slots[k := slots[k].(inKernel := false)];
        if id !in free {
          free := free + [id];
        }
      }
    }
  }
}
