/**
 The list of DMA buffers that `axidma_chrdev.c` keeps: mapping and closing a buffer, and the
 translation of user addresses to bus addresses.
 */
module DmaAllocations {
  /** Addresses and sizes are 32 bits wide, and so is their arithmetic. */
  const SPACE: nat := 0x1_0000_0000
  type Address = a: int | 0 <= a < SPACE

  const ENOMEM: int := 12

  /** One buffer: its user range, and the bus address it starts at. */
  datatype Allocation = Allocation(size: nat, userAddr: nat, dmaAddr: nat)

  /** Neither range reaches the end of the address space, and no buffer is at bus address 0. */
  predicate InSpace(a: Allocation) {
    a.size > 0 && a.userAddr + a.size < SPACE && 0 < a.dmaAddr && a.dmaAddr + a.size <= SPACE
  }

  predicate Apart(a: nat, n: nat, b: nat, m: nat) {
    a + n <= b || b + m <= a
  }

  /** The user ranges of two buffers have no byte in common, and neither have their bus ranges. */
  predicate Separate(a: Allocation, b: Allocation) {
    Apart(a.userAddr, a.size, b.userAddr, b.size) && Apart(a.dmaAddr, a.size, b.dmaAddr, b.size)
  }

  predicate Good(list: seq<Allocation>) {
    && (forall i :: 0 <= i < |list| ==> InSpace(list[i]))
    && (forall i, j :: 0 <= i < j < |list| ==> Separate(list[i], list[j]))
  }

  function Plus(a: nat, n: nat): Address {
    (a + n) % SPACE
  }

  /** `valid_dma_request`: both ends are computed modulo the address space. */
  predicate ValidDmaRequest(dmaStart: nat, dmaSize: nat, userAddr: nat, userSize: nat) {
    dmaStart <= userAddr && Plus(userAddr, userSize) <= Plus(dmaStart, dmaSize)
  }

  predicate Accepts(a: Allocation, user: nat, n: nat) {
    ValidDmaRequest(a.userAddr, a.size, user, n)
  }

  /** What the lookup finds: the first buffer of the list that accepts the request; 0 for none. */
  function Translated(list: seq<Allocation>, user: Address, n: Address): Address {
    if list == [] then 0
    else if Accepts(list[0], user, n) then Plus(list[0].dmaAddr, user - list[0].userAddr)
    else Translated(list[1..], user, n)
  }

  /** The request lies within the buffer. */
  predicate Within(a: Allocation, user: nat, n: nat) {
    a.userAddr <= user && user + n <= a.userAddr + a.size
  }

  /** A request that stays in the address space is accepted by the buffers it lies within. */
  lemma AcceptsWithin(a: Allocation, user: Address, n: Address)
    requires InSpace(a) && user + n < SPACE
    ensures Accepts(a, user, n) <==> Within(a, user, n)
  {
  }

  lemma SeparateAt(list: seq<Allocation>, i: nat, j: nat)
    requires Good(list) && i < |list| && j < |list| && i != j
    ensures Separate(list[i], list[j])
  {
    assert if i < j then Separate(list[i], list[j]) else Separate(list[j], list[i]);
  }

  /** A request of at least one byte lies within one buffer at most. */
  lemma WithinOneOnly(list: seq<Allocation>, user: nat, n: nat, i: nat, j: nat)
    requires Good(list) && n > 0 && i < |list| && j < |list|
    requires Within(list[i], user, n) && Within(list[j], user, n)
    ensures i == j
  {
    if i != j {
      SeparateAt(list, i, j);
    }
  }

  /** The lookup finds nothing when no buffer holds the request, and otherwise the bus address at
      the same offset in the buffer that does. */
  lemma {:induction false} TranslatesWithin(list: seq<Allocation>, user: Address, n: Address)
    requires Good(list) && n > 0 && user + n < SPACE
    ensures Translated(list, user, n) != 0 <==> exists i :: 0 <= i < |list| && Within(list[i], user, n)
    ensures forall i :: 0 <= i < |list| && Within(list[i], user, n) ==>
      Translated(list, user, n) == list[i].dmaAddr + (user - list[i].userAddr)
  {
    if list != [] {
      AcceptsWithin(list[0], user, n);
      TranslatesWithin(list[1..], user, n);
      if Within(list[0], user, n) {
        forall i | 0 <= i < |list| && Within(list[i], user, n)
          ensures i == 0
        {
          WithinOneOnly(list, user, n, 0, i);
        }
      } else {
        assert forall i :: 0 < i < |list| ==> list[i] == list[1..][i - 1];
      }
    }
  }

  /** Requests without a byte in common get bus ranges without a byte in common. */
  lemma TranslatesApart(list: seq<Allocation>, user: Address, n: Address, user': Address, n': Address)
    requires Good(list) && n > 0 && n' > 0 && user + n < SPACE && user' + n' < SPACE
    requires Apart(user, n, user', n')
    requires Translated(list, user, n) != 0 && Translated(list, user', n') != 0
    ensures Apart(Translated(list, user, n), n, Translated(list, user', n'), n')
  {
    TranslatesWithin(list, user, n);
    TranslatesWithin(list, user', n');
    var i :| 0 <= i < |list| && Within(list[i], user, n);
    var j :| 0 <= j < |list| && Within(list[j], user', n');
    if i != j {
      SeparateAt(list, i, j);
    }
  }

  /** What a caller wants of the lookup. */
  predicate TranslatesExactly(list: seq<Allocation>, user: Address, n: Address) {
    Translated(list, user, n) != 0 <==> exists i :: 0 <= i < |list| && Within(list[i], user, n)
  }

  /** A request that runs past the end of the address space is taken for one that ends before the
      buffer does. */
  lemma WrappedRequestIsAccepted(user: Address, n: Address)
    requires user + n >= SPACE
    ensures exists list :: Good(list) && !TranslatesExactly(list, user, n)
  {
    var start := if user == SPACE - 1 then user - 1 else user;
    var list := [Allocation(1, start, 1)];
    assert Accepts(list[0], user, n);
    assert Good(list);
    assert !Within(list[0], user, n);
    assert !TranslatesExactly(list, user, n);
  }

  /** The lookup is exact on every list of buffers if and only if the request does not wrap. */
  lemma ExactIffNotWrapped(user: Address, n: Address)
    requires n > 0
    ensures (forall list :: Good(list) ==> TranslatesExactly(list, user, n)) <==> user + n < SPACE
  {
    if user + n < SPACE {
      forall list | Good(list)
        ensures TranslatesExactly(list, user, n)
      {
        TranslatesWithin(list, user, n);
      }
    } else {
      WrappedRequestIsAccepted(user, n);
    }
  }

  // ----- the list over mappings and closings

  /** A mapping puts its buffer at the head of the list. */
  lemma MappingKeeps(list: seq<Allocation>, a: Allocation)
    requires Good(list) && InSpace(a) && forall b :: b in list ==> Separate(a, b)
    ensures Good([a] + list)
  {
  }

  function Without(list: seq<Allocation>, k: nat): seq<Allocation>
    requires k < |list|
  {
    list[..k] + list[k + 1..]
  }

  lemma ClosingKeeps(list: seq<Allocation>, k: nat)
    requires Good(list) && k < |list|
    ensures Good(Without(list, k))
    ensures list[k] !in Without(list, k)
  {
    forall j | 0 <= j < |list| && j != k
      ensures list[j] != list[k]
    {
      SeparateAt(list, j, k);
    }
  }

  /** What the environment answers to a mapping: whether there is memory for the record, the bus
      address of the buffer if there is one, and what mapping it into user space returns. */
  datatype MmapReply = MmapReply(record: bool, buffer: Option, remap: int)
  datatype Option = None | Some(dmaAddr: nat)

  /** The device, and the memory that the driver holds for it. */
  class Device {
    var dmabufs: seq<Allocation>
    ghost var coherent: set<Allocation> // buffers allocated and not freed
    ghost var records: nat // list records allocated and not freed

    constructor ()
      ensures Valid() && dmabufs == []
    {
      dmabufs, coherent, records := [], {}, 0;
    }

    /** The list is exactly what the driver holds. */
    ghost predicate Valid()
      reads this
    {
      Good(dmabufs) && coherent == (set a | a in dmabufs) && records == |dmabufs|
    }

    /** `axidma_mmap` of the user range of `size` bytes at `start`. */
    method Mmap(start: nat, size: nat, reply: MmapReply) returns (rc: int)
      requires Valid()
      requires size > 0 && start + size < SPACE
      requires forall b :: b in dmabufs ==> Apart(start, size, b.userAddr, b.size)
      requires reply.buffer.Some? ==> 0 < reply.buffer.dmaAddr && reply.buffer.dmaAddr + size <= SPACE
      requires reply.buffer.Some? ==>
        forall b :: b in coherent ==> Apart(reply.buffer.dmaAddr, size, b.dmaAddr, b.size)
      modifies this
      ensures Valid()
      ensures reply.record && reply.buffer.Some? && reply.remap >= 0 ==>
        rc == 0 && dmabufs == [Allocation(size, start, reply.buffer.dmaAddr)] + old(dmabufs)
      ensures !(reply.record && reply.buffer.Some? && reply.remap >= 0) ==>
        rc == (if reply.record && reply.buffer.Some? then reply.remap else -ENOMEM) && unchanged(this)
    {
      if !reply.record {
        return -ENOMEM;
      }
      records := records + 1;
      if reply.buffer.None? {
        records := records - 1;
        return -ENOMEM;
      }
      var a := Allocation(size, start, reply.buffer.dmaAddr);
      ghost var before := coherent;
      coherent := coherent + {a};
      rc := reply.remap;
      if rc < 0 {
        coherent := coherent - {a};
        records := records - 1;
        assert coherent == before;
        return;
      }
      MappingKeeps(dmabufs, a);
      dmabufs := [a] + dmabufs;
      return 0;
    }

    /** `axidma_vma_close` of the mapping with record k of the list: its buffer and its record are
        freed, once, and nothing else is. */
    method VmaClose(k: nat)
      requires Valid() && k < |dmabufs|
      modifies this
      ensures Valid()
      ensures dmabufs == Without(old(dmabufs), k)
      ensures coherent == old(coherent) - {old(dmabufs)[k]} && old(dmabufs)[k] in old(coherent)
    {
      var a := dmabufs[k];
      coherent := coherent - {a};
      ClosingKeeps(dmabufs, k);
      dmabufs := Without(dmabufs, k);
      records := records - 1;
    }

    /** `axidma_uservirt_to_dma`. */
    method UservirtToDma(user: Address, n: Address) returns (bus: Address)
      requires Valid()
      ensures bus == Translated(dmabufs, user, n)
    {
      for i := 0 to |dmabufs|
        invariant Translated(dmabufs, user, n) == Translated(dmabufs[i..], user, n)
      {
        if Accepts(dmabufs[i], user, n) {
          return Plus(dmabufs[i].dmaAddr, user - dmabufs[i].userAddr);
        }
      }
      return 0;
    }
  }
}
