/**
 The transfers of `aes.cpp`: which DMA buffers are live, who frees them, and what the transmit
 buffer holds when the engine is started.
 */
module AesTransfers {
  import opened AesFiles
  import opened Alignment

  /** The memory of the board. */
  const MEMORY: nat := 0x2000_0000

  /** A mapping of no bytes fails, and so does one of more than there is. */
  predicate Mappable(size: nat) {
    0 < size <= MEMORY
  }

  /** DMA memory as the library hands it out: buffers by address, address 0 being no buffer. */
  class DmaMemory {
    var live: map<nat, Bytes>

    constructor ()
      ensures live == map[]
    {
      live := map[];
    }

    /** `axidma_malloc`: `address` is what the mapping returns, 0 if it fails. */
    method Malloc(size: nat, address: nat) returns (p: nat)
      requires address !in live && (address != 0 ==> Mappable(size))
      modifies this
      ensures p == address
      ensures p == 0 ==> live == old(live)
      ensures p != 0 ==> p in live && |live[p]| == size && live == old(live)[p := live[p]]
    {
      if address != 0 {
        live := live[address := Zeros(size)];
      }
      return address;
    }

    /** `axidma_free`: only a live buffer, and only with its own size. */
    method Free(p: nat, size: nat)
      requires p in live && |live[p]| == size
      modifies this
      ensures live == old(live) - {p}
    {
      live := live - {p};
    }

    /** Overwrites bytes of a buffer in place. */
    method Put(p: nat, offset: nat, bytes: Bytes)
      requires p in live && offset + |bytes| <= |live[p]|
      modifies this
      ensures live == old(live)[p := old(live)[p][..offset] + bytes + old(live)[p][offset + |bytes|..]]
    {
      live := live[p := live[p][..offset] + bytes + live[p][offset + |bytes|..]];
    }
  }

  datatype Entry = Entry(size: nat, buffer: nat)

  datatype Option<T> = None | Some(value: T)

  /** The output of a transfer: a file, a buffer of the caller of which `size` bytes are offered, or
      neither. */
  datatype Output = File | Buffer(size: Size) | Nowhere

  /** A size as `std::streamsize`. */
  function Signed(n: Size): int {
    if n < SIZES / 2 then n else n - SIZES
  }

  /** Below half the address space, an output buffer is large enough if and only if it holds the whole
      blocks of the file; a buffer of exactly the file's size is, for a file of whole blocks. */
  lemma OutputHoldsIff(fileSize: Size, outputSize: Size)
    requires fileSize <= SIZES / 2 - 16 && outputSize < SIZES / 2
    ensures Signed(TextSize(fileSize)) <= Signed(outputSize) <==> 16 * ((fileSize + 15) / 16) <= outputSize
    ensures fileSize % 16 == 0 ==> Signed(TextSize(fileSize)) <= Signed(fileSize)
  {
    RoundsUpTo(fileSize, TextSize(fileSize));
  }

  /** An output buffer of half the address space or more is refused: its size counts as negative. */
  lemma HugeOutputIsRefused(fileSize: Size, outputSize: Size)
    requires fileSize <= SIZES / 2 - 16 && outputSize >= SIZES / 2
    ensures !(Signed(TextSize(fileSize)) <= Signed(outputSize))
  {
    RoundsUpTo(fileSize, TextSize(fileSize));
  }

  lemma RoundsUpTo(size: nat, a: nat)
    requires a % 16 == 0 && size <= a < size + 16
    ensures a == 16 * ((size + 15) / 16) && (size % 16 == 0 ==> a == size)
  {
  }

  /** The size of the transmit buffer. */
  function TxSize(size: Size): Size {
    (AES_KEY_WIDTH + TextSize(size)) % SIZES
  }

  /** What the two allocations for a file of this size can return. */
  predicate CanReturn(fileSize: Option<Size>, tx: nat, rx: nat) {
    && (rx == 0 || rx != tx)
    && (fileSize.Some? ==>
          && (tx != 0 ==> Mappable(TxSize(fileSize.value)))
          && (rx != 0 ==> Mappable(TextSize(fileSize.value))))
  }

  lemma TextSizeWraps(size: Size)
    requires size > SIZES - AES_TEXT_WIDTH
    ensures TextSize(size) == 0
  {
    assert Pow2(4) == 16;
    AlignedDropsRemainder(size, 4);
  }

  lemma RoundedFitsIff(size: nat, a: Size, tx: Size)
    requires size <= a < size + AES_TEXT_WIDTH && a % AES_TEXT_WIDTH == 0
    requires a < SIZES - AES_KEY_WIDTH ==> tx == AES_KEY_WIDTH + a
    ensures Mappable(tx) && Mappable(a) <==> 0 < size <= MEMORY - AES_KEY_WIDTH
  {
  }

  lemma TxSizeAddsKey(size: Size)
    ensures TextSize(size) < SIZES - AES_KEY_WIDTH ==> TxSize(size) == AES_KEY_WIDTH + TextSize(size)
  {
    hide TextSize;
  }

  lemma SizesFitIff(size: Size)
    ensures Mappable(TxSize(size)) && Mappable(TextSize(size)) <==> 0 < size <= MEMORY - AES_KEY_WIDTH
  {
    hide TextSize, TxSize;
    if size > SIZES - AES_TEXT_WIDTH {
      TextSizeWraps(size);
    } else {
      TxSizeAddsKey(size);
      RoundedFitsIff(size, TextSize(size), TxSize(size));
    }
  }

  /** Both buffers can be had if and only if the file is not empty and fits the memory with its key. */
  lemma BuffersExistIff(size: Size)
    ensures (exists tx, rx :: CanReturn(Some(size), tx, rx) && tx != 0 && rx != 0)
       <==> 0 < size <= MEMORY - AES_KEY_WIDTH
  {
    hide TextSize, TxSize, Mappable;
    SizesFitIff(size);
    if 0 < size <= MEMORY - AES_KEY_WIDTH {
      assert CanReturn(Some(size), 1, 2);
    }
  }

  function Without(entries: seq<Entry>, p: nat, q: nat): seq<Entry> {
    if entries == [] then []
    else
      Without(entries[..|entries| - 1], p, q)
      + if entries[|entries| - 1].buffer in {p, q} then [] else [entries[|entries| - 1]]
  }

  lemma {:induction false} WithoutKeeps(entries: seq<Entry>, p: nat, q: nat, e: Entry)
    ensures e in Without(entries, p, q) <==> e in entries && e.buffer != p && e.buffer != q
  {
    if entries != [] {
      var n := |entries| - 1;
      WithoutKeeps(entries[..n], p, q, e);
      assert entries == entries[..n] + [entries[n]];
    }
  }

  lemma NoneLeft(entries: seq<Entry>, p: nat, q: nat)
    requires forall e :: e in entries ==> e.buffer in {p, q}
    ensures Without(entries, p, q) == []
  {
    if Without(entries, p, q) != [] {
      WithoutKeeps(entries, p, q, Without(entries, p, q)[0]);
    }
  }

  /** The state the library keeps for one DMA device. */
  class DmaState {
    const memory: DmaMemory
    var isBusy: bool
    var dmaMemories: seq<Entry>
    var txBuffer: nat
    var rxBuffer: nat
    var output: Output
    var configReg: nat

    constructor (memory: DmaMemory)
      requires memory.live == map[]
      ensures this.memory == memory && Valid() && !isBusy
    {
      this.memory := memory;
      isBusy, dmaMemories := false, [];
    }

    /** `dma_memories` lists exactly the live buffers, each once and with its own size. */
    ghost predicate Listed()
      reads this, memory
    {
      && (forall e :: e in dmaMemories ==> e.buffer in memory.live && |memory.live[e.buffer]| == e.size)
      && (forall p :: p in memory.live ==> exists e :: e in dmaMemories && e.buffer == p)
      && (forall i, j :: 0 <= i < j < |dmaMemories| ==> dmaMemories[i].buffer != dmaMemories[j].buffer)
    }

    /** Nothing is live between transfers; during one, its transmit and its receive buffer are,
        listed in this order. */
    ghost predicate Valid()
      reads this, memory
    {
      && Listed()
      && (!isBusy ==> dmaMemories == [])
      && (isBusy ==>
        && |dmaMemories| == 2
        && dmaMemories[0].buffer == txBuffer && dmaMemories[1].buffer == rxBuffer
        && txBuffer != 0 && rxBuffer != 0
        && (output.Buffer? ==> dmaMemories[1].size <= output.size))
    }

    /** Allocates one buffer and lists it. */
    method Allocate(size: nat, address: nat) returns (p: nat)
      requires Listed()
      requires address !in memory.live && (address != 0 ==> Mappable(size))
      modifies memory, this`dmaMemories
      ensures Listed() && p == address
      ensures p == 0 ==> dmaMemories == old(dmaMemories) && memory.live == old(memory.live)
      ensures p != 0 ==> dmaMemories == old(dmaMemories) + [Entry(size, p)]
      ensures p != 0 ==> p in memory.live && memory.live == old(memory.live)[p := memory.live[p]]
    {
      ghost var before := dmaMemories;
      p := memory.Malloc(size, address);
      if p != 0 {
        dmaMemories := dmaMemories + [Entry(size, p)];
        assert dmaMemories[|before|].buffer == p;
        forall q | q in memory.live
          ensures exists e :: e in dmaMemories && e.buffer == q
        {
          if q != p {
            var e :| e in before && e.buffer == q;
            assert e in dmaMemories;
          }
        }
      }
    }

    /** Puts key, file and padding into the transmit buffer; the key-loading bit is set before the
        file is opened. */
    method FillTx(key: Bytes, content: Option<Bytes>, aligned: nat) returns (ok: bool)
      requires |key| == AES_KEY_WIDTH
      requires txBuffer in memory.live && |memory.live[txBuffer]| == AES_KEY_WIDTH + aligned
      modifies memory, this`configReg
      ensures ok == content.Some?
      ensures txBuffer in memory.live && memory.live == old(memory.live)[txBuffer := memory.live[txBuffer]]
      ensures |memory.live[txBuffer]| == AES_KEY_WIDTH + aligned
      ensures ok ==> memory.live[txBuffer] == TxContent(key, content.value, aligned)
      ensures configReg == 0xFFFF_FFFF
      ensures old(Listed()) ==> Listed()
    {
      memory.Put(txBuffer, 0, key);
      configReg := 0xFFFF_FFFF;
      if content.None? {
        return false;
      }
      var taken := if |content.value| <= aligned then content.value else content.value[..aligned];
      memory.Put(txBuffer, AES_KEY_WIDTH, taken);
      memory.Put(txBuffer, AES_KEY_WIDTH + |taken|, Zeros(aligned - |taken|));
      assert memory.live[txBuffer] == TxContent(key, content.value, aligned);
      return true;
    }

    lemma NothingLive()
      requires Listed() && dmaMemories == []
      ensures memory.live == map[]
    {
    }

    /** Allocates the transmit buffer and then the receive buffer; stops at the first failure. */
    method AllocateTwo(txSize: nat, rxSize: nat, txAddress: nat, rxAddress: nat)
        returns (tx: Option<Entry>, rx: Option<Entry>)
      requires Listed() && dmaMemories == []
      requires (rxAddress == 0 || rxAddress != txAddress)
      requires (txAddress != 0 ==> Mappable(txSize)) && (rxAddress != 0 ==> Mappable(rxSize))
      modifies memory, this`dmaMemories, this`txBuffer, this`rxBuffer
      ensures Listed()
      ensures dmaMemories == (if tx.Some? then [tx.value] else []) + (if rx.Some? then [rx.value] else [])
      ensures rx.Some? <==> txAddress != 0 && rxAddress != 0
      ensures rx.Some? ==> tx == Some(Entry(txSize, txBuffer)) && rx == Some(Entry(rxSize, rxBuffer))
      ensures rx.Some? ==> txBuffer == txAddress && rxBuffer == rxAddress
    {
      NothingLive();
      hide Listed, Mappable;
      tx, rx := None, None;
      var p := Allocate(txSize, txAddress);
      if p != 0 {
        txBuffer, tx := p, Some(Entry(txSize, p));
        var q := Allocate(rxSize, rxAddress);
        if q != 0 {
          rxBuffer, rx := q, Some(Entry(rxSize, q));
        }
      }
    }

    /** The two buffers for a file of this size. */
    method AllocateBoth(size: Size, txAddress: nat, rxAddress: nat) returns (tx: Option<Entry>, rx: Option<Entry>)
      requires Listed() && dmaMemories == []
      requires CanReturn(Some(size), txAddress, rxAddress)
      modifies memory, this`dmaMemories, this`txBuffer, this`rxBuffer
      ensures Listed()
      ensures dmaMemories == (if tx.Some? then [tx.value] else []) + (if rx.Some? then [rx.value] else [])
      ensures rx.Some? <==> txAddress != 0 && rxAddress != 0
      ensures rx.Some? ==> tx == Some(Entry(TxSize(size), txBuffer)) && rx == Some(Entry(TextSize(size), rxBuffer))
      ensures rx.Some? ==> txBuffer == txAddress && rxBuffer == rxAddress
    {
      hide Listed, TextSize, TxSize, Mappable;
      tx, rx := AllocateTwo(TxSize(size), TextSize(size), txAddress, rxAddress);
    }

    /** Fills the transmit buffer and starts the engine. */
    method Launch(key: Bytes, size: Size, out: Output, content: Option<Bytes>, started: bool) returns (ok: bool)
      requires Listed() && txBuffer != 0 && rxBuffer != 0
      requires dmaMemories == [Entry(TxSize(size), txBuffer), Entry(TextSize(size), rxBuffer)]
      requires Mappable(TextSize(size)) && (out.Buffer? ==> Signed(TextSize(size)) <= Signed(out.size))
      requires |key| == AES_KEY_WIDTH
      modifies memory, this`configReg, this`isBusy, this`output
      ensures ok == (content.Some? && started)
      ensures Listed()
      ensures ok ==> isBusy && Valid() && Started(key, size, content.value) && output == out
    {
      hide TextSize, TxContent;
      BothLive(dmaMemories[0], dmaMemories[1]);
      ok := FillTx(key, content, TextSize(size));
      hide Listed;
      if ok {
        isBusy := true;
        output := out;
        configReg := 0;
        ok := started;
      }
    }

    /** The body of the transfer up to the start of the engine. On failure the buffers that have
        been allocated are returned, and listed. */
    method Prepare(key: Bytes, fileSize: Option<Size>, out: Output, txAddress: nat, rxAddress: nat,
                   content: Option<Bytes>, started: bool)
      returns (ok: bool, tx: Option<Entry>, rx: Option<Entry>)
      requires Valid() && !isBusy
      requires |key| == AES_KEY_WIDTH && CanReturn(fileSize, txAddress, rxAddress)
      modifies this, memory
      ensures ok <==>
        && fileSize.Some? && txAddress != 0 && rxAddress != 0 && content.Some? && started
        && (out.Buffer? ==> Signed(TextSize(fileSize.value)) <= Signed(out.size))
      ensures Listed()
      ensures dmaMemories == (if tx.Some? then [tx.value] else []) + (if rx.Some? then [rx.value] else [])
      ensures ok ==> isBusy && Valid() && Started(key, fileSize.value, content.value) && output == out
    {
      hide TxContent;
      tx, rx := None, None;
      if fileSize.None? {
        return false, tx, rx;
      }
      var aligned := TextSize(fileSize.value);
      if out.Buffer? && Signed(out.size) < Signed(aligned) {
        return false, tx, rx;
      }
      hide TextSize, TxSize;
      tx, rx := AllocateBoth(fileSize.value, txAddress, rxAddress);
      if rx.None? {
        return false, tx, rx;
      }
      ok := Launch(key, fileSize.value, out, content, started);
    }

    lemma BothLive(tx: Entry, rx: Entry)
      requires Listed() && dmaMemories == [tx, rx]
      ensures tx.buffer != rx.buffer && memory.live.Keys == {tx.buffer, rx.buffer}
      ensures |memory.live[tx.buffer]| == tx.size && |memory.live[rx.buffer]| == rx.size
    {
      assert dmaMemories[0] == tx && dmaMemories[1] == rx;
      forall p | p in memory.live
        ensures p in {tx.buffer, rx.buffer}
      {
        var e :| e in dmaMemories && e.buffer == p;
      }
    }

    /** A transfer of a file under way: the transmit buffer holds key, file and padding, the
        receive buffer has room for as many bytes less the key, and nothing else is live. */
    ghost predicate Started(key: Bytes, size: nat, content: Bytes)
      reads this, memory
    {
      && txBuffer != rxBuffer && memory.live.Keys == {txBuffer, rxBuffer}
      && size < SIZES
      && memory.live[txBuffer] == TxContent(key, content, TextSize(size))
      && |memory.live[rxBuffer]| == TextSize(size)
      && configReg == 0
    }

    /** Frees what a failed transfer has allocated and takes it off the list. */
    method CleanUp(tx: Option<Entry>, rx: Option<Entry>)
      requires Listed()
      requires dmaMemories == (if tx.Some? then [tx.value] else []) + (if rx.Some? then [rx.value] else [])
      modifies memory, this`dmaMemories, this`isBusy
      ensures Listed() && dmaMemories == [] && memory.live == map[] && !isBusy
    {
      if tx.Some? {
        assert tx.value in dmaMemories && dmaMemories[0] == tx.value;
      }
      if rx.Some? {
        assert rx.value in dmaMemories && dmaMemories[|dmaMemories| - 1] == rx.value;
      }
      forall p | p in memory.live
        ensures (tx.Some? && tx.value.buffer == p) || (rx.Some? && rx.value.buffer == p)
      {
        var e :| e in dmaMemories && e.buffer == p;
      }
      if tx.Some? {
        memory.Free(tx.value.buffer, tx.value.size);
      }
      if rx.Some? {
        memory.Free(rx.value.buffer, rx.value.size);
      }
      var p := if tx.Some? then tx.value.buffer else 0;
      var q := if rx.Some? then rx.value.buffer else 0;
      if tx.Some? || rx.Some? {
        NoneLeft(dmaMemories, p, q);
        dmaMemories := Without(dmaMemories, p, q);
      }
      isBusy := false;
    }

    /** `_do_transfer`. A request made while another is under way is refused, but clears the busy
        flag; any other either fails and leaves nothing live, or starts the engine. */
    method DoTransfer(key: Bytes, fileSize: Option<Size>, out: Output, txAddress: nat, rxAddress: nat,
                      content: Option<Bytes>, started: bool) returns (ok: bool)
      requires Valid()
      requires |key| == AES_KEY_WIDTH && CanReturn(fileSize, txAddress, rxAddress)
      modifies this, memory
      ensures old(isBusy) ==>
        !ok && !isBusy && dmaMemories == old(dmaMemories) && memory.live == old(memory.live) && Listed()
      ensures !old(isBusy) ==> Valid()
      ensures !old(isBusy) ==> (ok <==>
        && fileSize.Some? && txAddress != 0 && rxAddress != 0 && content.Some? && started
        && (out.Buffer? ==> Signed(TextSize(fileSize.value)) <= Signed(out.size)))
      ensures (!old(isBusy) && fileSize.Some? && content.Some? && txAddress != 0 && rxAddress != 0 && started
               && fileSize.value <= SIZES / 2 - 16 && (out.Buffer? ==> out.size < SIZES / 2))
              ==> (ok <==> out.Buffer? ==> TextSize(fileSize.value) <= out.size)
      ensures ok ==> isBusy && Started(key, fileSize.value, content.value) && output == out
      ensures !old(isBusy) && !ok ==> !isBusy && dmaMemories == [] && memory.live == map[]
    {
      hide TextSize, TxSize, TxContent;
      if isBusy {
        isBusy := false;
        return false;
      }
      var tx, rx;
      ok, tx, rx := Prepare(key, fileSize, out, txAddress, rxAddress, content, started);
      if !ok {
        CleanUp(tx, rx);
      }
    }

    /** `std::find_if` by buffer; the length of the list for none. */
    method Find(p: nat) returns (k: nat)
      ensures k <= |dmaMemories|
      ensures k < |dmaMemories| ==> dmaMemories[k].buffer == p
      ensures k == |dmaMemories| ==> forall i :: 0 <= i < |dmaMemories| ==> dmaMemories[i].buffer != p
    {
      k := 0;
      while k < |dmaMemories| && dmaMemories[k].buffer != p
        invariant k <= |dmaMemories|
        invariant forall i :: 0 <= i < k ==> dmaMemories[i].buffer != p
      {
        k := k + 1;
      }
    }

    method Erase(k: nat)
      requires k < |dmaMemories|
      modifies this`dmaMemories
      ensures dmaMemories == old(dmaMemories[..k] + dmaMemories[k + 1..])
    {
      dmaMemories := dmaMemories[..k] + dmaMemories[k + 1..];
    }

    /** Frees and erases the receive entry and then the transmit entry. */
    method FreeBoth(txIt: nat, rxIt: nat)
      requires Listed() && |dmaMemories| == 2 && txIt == 0 && rxIt == 1
      modifies memory, this`dmaMemories
      ensures Listed() && dmaMemories == [] && memory.live == map[]
    {
      var rx, tx := dmaMemories[rxIt], dmaMemories[txIt];
      assert rx in dmaMemories && tx in dmaMemories;
      forall p | p in memory.live
        ensures p in {tx.buffer, rx.buffer}
      {
        var e :| e in dmaMemories && e.buffer == p;
      }
      memory.Free(rx.buffer, rx.size);
      Erase(rxIt);
      memory.Free(tx.buffer, tx.size);
      Erase(txIt);
    }

    /** `_dma_callback`, after the engine has filled the receive buffer: hands its content over,
        unless there is nowhere to put it or writing the file throws; either way frees both buffers
        and leaves nothing live. `success` is what the user's callback is told. The iterator to the
        transmit entry is still good when the receive entry has been erased, because it comes
        before it. */
    method DmaCallback(throws: bool) returns (success: bool, written: Bytes)
      requires Valid() && isBusy
      modifies this, memory
      ensures Valid() && !isBusy && memory.live == map[]
      ensures success <==> !(output.File? && throws)
      ensures written == if success && !output.Nowhere? then old(memory.live[rxBuffer]) else []
      ensures output.Buffer? ==> |written| <= output.size
      ensures output == old(output)
    {
      assert dmaMemories[0] in dmaMemories && dmaMemories[1] in dmaMemories;
      var rxIt := Find(rxBuffer);
      var txIt := Find(txBuffer);
      assert txIt < rxIt;
      var rx, tx := dmaMemories[rxIt], dmaMemories[txIt];
      success, written := true, [];
      match output {
        case File =>
          if throws {
            success := false;
          } else {
            written := memory.live[rx.buffer];
          }
        case Buffer(_) =>
          written := memory.live[rx.buffer];
        case Nowhere =>
      }
      FreeBoth(txIt, rxIt);
      isBusy := false;
    }

    /** The entries from k on, and nothing else, are live. */
    ghost predicate ListedFrom(k: nat)
      reads this, memory
    {
      && (forall i :: k <= i < |dmaMemories| ==>
            dmaMemories[i].buffer in memory.live && |memory.live[dmaMemories[i].buffer]| == dmaMemories[i].size)
      && (forall p :: p in memory.live ==> exists i :: k <= i < |dmaMemories| && dmaMemories[i].buffer == p)
    }

    /** `destroy`: every buffer that is still live is freed, whether a transfer is under way or not. */
    method Destroy()
      requires Listed()
      modifies memory
      ensures memory.live == map[]
    {
      forall p | p in memory.live
        ensures exists i :: 0 <= i < |dmaMemories| && dmaMemories[i].buffer == p
      {
        var e :| e in dmaMemories && e.buffer == p;
        var i :| 0 <= i < |dmaMemories| && dmaMemories[i] == e;
        assert dmaMemories[i].buffer == p;
      }
      for k := 0 to |dmaMemories|
        invariant ListedFrom(k)
      {
        ghost var before := memory.live;
        memory.Free(dmaMemories[k].buffer, dmaMemories[k].size);
        forall p | p in memory.live
          ensures exists i :: k + 1 <= i < |dmaMemories| && dmaMemories[i].buffer == p
        {
          assert p in before;
          var i :| k <= i < |dmaMemories| && dmaMemories[i].buffer == p;
          assert i != k;
        }
      }
    }
  }
}
