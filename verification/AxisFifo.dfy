/** The AXI-Stream FIFO core as its driver sees it: data words, packet lengths and reset. */
module FifoCore {
  type Byte = b: int | 0 <= b < 256

  /** A data register value, as its four bytes in memory order. */
  datatype Word = Word(b0: Byte, b1: Byte, b2: Byte, b3: Byte)

  function ByteOf(w: Word, k: nat): Byte
    requires k < 4
  {
    if k == 0 then w.b0 else if k == 1 then w.b1 else if k == 2 then w.b2 else w.b3
  }

  function Bytes(ws: seq<Word>): (bs: seq<Byte>)
    ensures |bs| == 4 * |ws|
  {
    seq(4 * |ws|, k requires 0 <= k < 4 * |ws| => ByteOf(ws[k / 4], k % 4))
  }

  /** Every word contributes its four bytes in memory order. */
  lemma BytesAt(ws: seq<Word>, i: nat)
    requires i < |ws|
    ensures Bytes(ws)[4 * i..4 * i + 4] == [ws[i].b0, ws[i].b1, ws[i].b2, ws[i].b3]
  {
  }

  function WordsFor(len: nat): nat {
    (len + 3) / 4
  }

  /** A packet: its length in bytes, and as many words as hold them. The bytes of the last word
      past the length carry no TKEEP and may be anything. */
  datatype Packet = Packet(len: nat, words: seq<Word>) {
    ghost predicate Fits() {
      |words| == WordsFor(len)
    }

    function Payload(): (bs: seq<Byte>)
      requires Fits()
      ensures |bs| == len
    {
      Bytes(words)[..len]
    }
  }

  /** What the registers of the core do. */
  class Core {
    var txWords: seq<Word> // written, no length yet
    var inFlight: seq<Packet> // given a length, not yet received
    var rx: seq<Packet> // received, length not yet read
    var rxWords: seq<Word> // what is left of the packet whose length was read
    var lengthError: bool // a length that does not match the words written
    var readError: bool // a data read without words, or a length read with words left

    constructor ()
      ensures IsReset()
    {
      txWords, inFlight, rx, rxWords, lengthError, readError := [], [], [], [], false, false;
    }

    ghost predicate IsReset()
      reads this
    {
      txWords == [] && inFlight == [] && rx == [] && rxWords == [] && !lengthError && !readError
    }

    ghost predicate Valid()
      reads this
    {
      (forall p :: p in rx ==> p.Fits()) && (forall p :: p in inFlight ==> p.Fits())
    }

    function NextLength(): nat
      reads this
    {
      if rx == [] then 0 else rx[0].len
    }

    /** Receive occupancy is not zero. */
    predicate Occupied()
      reads this
    {
      rxWords != [] || exists p :: p in rx && p.words != []
    }

    method Reset()
      modifies this
      ensures IsReset()
    {
      txWords, inFlight, rx, rxWords, lengthError, readError := [], [], [], [], false, false;
    }

    method WriteData(w: Word)
      modifies this`txWords
      ensures txWords == old(txWords) + [w]
    {
      txWords := txWords + [w];
    }

    method WriteLength(len: nat)
      modifies this`txWords, this`inFlight, this`lengthError
      ensures txWords == []
      ensures |old(txWords)| == WordsFor(len) ==>
        inFlight == old(inFlight) + [Packet(len, old(txWords))] && lengthError == old(lengthError)
      ensures |old(txWords)| != WordsFor(len) ==> inFlight == old(inFlight) && lengthError
    {
      if |txWords| == WordsFor(len) {
        inFlight := inFlight + [Packet(len, txWords)];
      } else {
        lengthError := true;
      }
      txWords := [];
    }

    method ReadLength() returns (len: nat)
      modifies this`rx, this`rxWords, this`readError
      ensures len == old(NextLength()) == if old(rx) == [] then 0 else old(rx)[0].len
      ensures readError == (old(readError) || old(rxWords) != [])
      ensures old(rx) == [] ==> rx == [] && rxWords == old(rxWords)
      ensures old(rx) != [] ==> rx == old(rx)[1..] && rxWords == old(rx)[0].words
    {
      readError := readError || rxWords != [];
      len := NextLength();
      if rx != [] {
        rx, rxWords := rx[1..], rx[0].words;
      }
    }

    method ReadData() returns (w: Word)
      modifies this`rxWords, this`readError
      ensures old(rxWords) != [] ==> w == old(rxWords)[0] && rxWords == old(rxWords)[1..] && readError == old(readError)
      ensures old(rxWords) == [] ==> rxWords == [] && readError
    {
      if rxWords != [] {
        w, rxWords := rxWords[0], rxWords[1..];
      } else {
        w, readError := Word(0, 0, 0, 0), true;
      }
    }
  }
}

/** `axis_fifo_write` and `axis_fifo_read`: packets cut into chunks of an on-stack buffer. */
module AxisFifoDriver {
  import opened FifoCore

  const READ_BUF_SIZE: nat := 128
  const WRITE_BUF_SIZE: nat := 128

  const EINTR: int := 4
  const EIO: int := 5
  const EAGAIN: int := 11
  const EFAULT: int := 14
  const EINVAL: int := 22
  const ERESTARTSYS: int := 512

  const TWO_TO_THE_32: nat := 0x1_0000_0000

  /** Whether a call goes on after checking, or waiting for, the FIFO. */
  datatype Gate = Go | Refuse(code: int)

  /** `waited` is what the interruptible wait returned. */
  function WaitGate(nonblock: bool, ready: bool, waited: int): Gate {
    if nonblock then if ready then Go else Refuse(-EAGAIN)
    else if waited == 0 then Refuse(-EAGAIN)
    else if waited == -ERESTARTSYS then Refuse(-EINTR)
    else if waited < 0 then Refuse(waited)
    else Go
  }

  /** The bytes a write of `len` bytes puts into its packet: the word count is kept in 32 bits. */
  function Taken(len: nat): nat {
    4 * (len / 4 % TWO_TO_THE_32) + len % 4
  }

  /** A write takes a prefix of the buffer, all of it exactly when the word count fits. */
  lemma TakesAllIff(len: nat)
    ensures Taken(len) <= len && (Taken(len) == len <==> len / 4 < TWO_TO_THE_32)
  {
    var q := len / 4;
    assert q == q / TWO_TO_THE_32 * TWO_TO_THE_32 + q % TWO_TO_THE_32;
  }

  /** Word i of a buffer. */
  function WordAt(tmp: array<Byte>, i: nat): Word
    requires 4 * i + 4 <= tmp.Length
    reads tmp
  {
    Word(tmp[4 * i], tmp[4 * i + 1], tmp[4 * i + 2], tmp[4 * i + 3])
  }

  /** Copies n bytes from user memory at `offset`; faults past the `user` bytes that can be read,
      and then has zeroed what it could not copy. */
  method CopyFromUser(tmp: array<Byte>, user: seq<Byte>, offset: nat, n: nat) returns (fault: bool)
    requires n <= tmp.Length
    modifies tmp
    ensures fault <==> n > 0 && offset + n > |user|
    ensures forall k :: 0 <= k < n ==> tmp[k] == if offset + k < |user| then user[offset + k] else 0
    ensures forall k :: n <= k < tmp.Length ==> tmp[k] == old(tmp[k])
  {
    fault := false;
    for k := 0 to n
      invariant fault <==> k > 0 && offset + k > |user|
      invariant forall j :: 0 <= j < k ==> tmp[j] == if offset + j < |user| then user[offset + j] else 0
      invariant forall j :: n <= j < tmp.Length ==> tmp[j] == old(tmp[j])
    {
      if offset + k < |user| {
        tmp[k] := user[offset + k];
      } else {
        tmp[k] := 0;
        fault := true;
      }
    }
  }

  /** Copies n bytes to user memory at `offset`; faults past the end of what can be written, with
      every byte before it copied. */
  method CopyToUser(user: array<Byte>, offset: nat, tmp: array<Byte>, n: nat) returns (fault: bool)
    requires n <= tmp.Length && user != tmp
    modifies user
    ensures fault <==> n > 0 && offset + n > user.Length
    ensures forall k :: 0 <= k < n && offset + k < user.Length ==> user[offset + k] == tmp[k]
    ensures forall k :: 0 <= k < user.Length && (k < offset || offset + n <= k) ==> user[k] == old(user[k])
  {
    fault := false;
    for k := 0 to n
      invariant fault <==> k > 0 && offset + k > user.Length
      invariant forall j :: 0 <= j < k && offset + j < user.Length ==> user[offset + j] == tmp[j]
      invariant forall j :: 0 <= j < user.Length && (j < offset || offset + k <= j) ==> user[j] == old(user[j])
    {
      if offset + k < user.Length {
        user[offset + k] := tmp[k];
      } else {
        fault := true;
      }
    }
  }

  /** Words that spell the first bytes of a buffer. */
  ghost predicate Spells(ws: seq<Word>, user: seq<Byte>)
  {
    4 * |ws| <= |user| && forall k :: 0 <= k < 4 * |ws| ==> ByteOf(ws[k / 4], k % 4) == user[k]
  }

  /** One more word spells four more bytes. */
  lemma SpellsMore(ws: seq<Word>, w: Word, user: seq<Byte>)
    requires Spells(ws, user) && 4 * |ws| + 4 <= |user|
    requires forall j :: 0 <= j < 4 ==> ByteOf(w, j) == user[4 * |ws| + j]
    ensures Spells(ws + [w], user)
  {
    var vs := ws + [w];
    forall k | 0 <= k < 4 * |vs|
      ensures ByteOf(vs[k / 4], k % 4) == user[k]
    {
      if k >= 4 * |ws| {
        assert k / 4 == |ws| && k == 4 * |ws| + k % 4;
      }
    }
  }

  class AxisFifo {
    const core: Core
    const hasTkeep: bool
    const txDepth: nat
    var txPkts: nat
    var rxPkts: nat
    var txBytes: nat
    var rxBytes: nat

    constructor (core: Core, hasTkeep: bool, txDepth: nat)
      ensures this.core == core && this.hasTkeep == hasTkeep && this.txDepth == txDepth
      ensures txPkts == 0 && rxPkts == 0 && txBytes == 0 && rxBytes == 0
    {
      this.core, this.hasTkeep, this.txDepth := core, hasTkeep, txDepth;
      txPkts, rxPkts, txBytes, rxBytes := 0, 0, 0, 0;
    }

    /** No packet is half written or half read; byte counts of a full FIFO fit in 32 bits. */
    ghost predicate Valid()
      reads this, core
    {
      core.Valid() && core.txWords == [] && core.rxWords == [] && 4 * txDepth + 3 < TWO_TO_THE_32
    }

    /** Sends the whole words of a buffer, a chunk of `tmp` at a time. */
    method SendWords(tmp: array<Byte>, user: seq<Byte>, words: nat) returns (fault: bool)
      requires tmp.Length == 4 * WRITE_BUF_SIZE
      requires core.txWords == []
      modifies tmp, core`txWords
      ensures fault <==> 4 * words > |user|
      ensures !fault ==> |core.txWords| == words && Spells(core.txWords, user)
    {
      var wordsToWrite, copied := words, 0;
      while wordsToWrite > 0
        invariant wordsToWrite >= 0 && copied + wordsToWrite == words
        invariant |core.txWords| == copied && Spells(core.txWords, user)
      {
        var copy := if wordsToWrite < WRITE_BUF_SIZE then wordsToWrite else WRITE_BUF_SIZE;
        fault := CopyFromUser(tmp, user, copied * 4, copy * 4);
        if fault {
          return;
        }
        ghost var chunk := tmp[..];
        for i := 0 to copy
          invariant tmp[..] == chunk
          invariant |core.txWords| == copied + i && Spells(core.txWords, user)
        {
          var w := WordAt(tmp, i);
          assert forall j :: 0 <= j < 4 ==> ByteOf(w, j) == chunk[4 * i + j];
          SpellsMore(core.txWords, w, user);
          core.WriteData(w);
        }
        copied := copied + copy;
        wordsToWrite := wordsToWrite - copy;
      }
      fault := false;
    }

    /** Sends the bytes left over after the whole words, in a word whose other bytes are stale. */
    method SendLeftover(tmp: array<Byte>, user: seq<Byte>, words: nat, leftover: nat) returns (fault: bool)
      requires tmp.Length == 4 * WRITE_BUF_SIZE && 0 < leftover < 4
      requires |core.txWords| == words && Spells(core.txWords, user)
      modifies tmp, core`txWords
      ensures fault <==> 4 * words + leftover > |user|
      ensures !fault ==> |core.txWords| == words + 1 && Bytes(core.txWords)[..4 * words + leftover]
                           == user[..4 * words + leftover]
    {
      ghost var before := core.txWords;
      fault := CopyFromUser(tmp, user, words * 4, leftover);
      if !fault {
        core.WriteData(WordAt(tmp, 0));
        forall k | 0 <= k < 4 * words + leftover
          ensures Bytes(core.txWords)[k] == user[k]
        {
          if k < 4 * words {
            assert core.txWords[k / 4] == before[k / 4];
          } else {
            assert k / 4 == words && tmp[k - 4 * words] == user[k];
          }
        }
      }
    }

    /** What a write does before it touches the FIFO. */
    function WriteGate(len: nat, nonblock: bool, vacancy: nat, waited: int): Gate {
      var slots := len / 4 % TWO_TO_THE_32 + if len % 4 != 0 then 1 else 0;
      if !hasTkeep && len % 4 != 0 then Refuse(-EINVAL)
      else if (!hasTkeep && len / 4 % TWO_TO_THE_32 == 0) || (hasTkeep && len == 0) then Refuse(-EINVAL)
      else if slots > txDepth then Refuse(-EINVAL)
      else WaitGate(nonblock, slots <= vacancy, waited)
    }

    /** A write goes ahead exactly when its length can be sent at all, fits the FIFO, and has room now
        or after the wait; and this is the code it is refused with otherwise. */
    lemma WritesIff(len: nat, nonblock: bool, vacancy: nat, waited: int)
      requires len < 4 * TWO_TO_THE_32
      ensures var gate := WriteGate(len, nonblock, vacancy, waited);
        var sound := len > 0 && (hasTkeep || len % 4 == 0) && WordsFor(len) <= txDepth;
        && (gate.Go? <==> sound && if nonblock then WordsFor(len) <= vacancy else waited > 0)
        && (!sound ==> gate == Refuse(-EINVAL))
        && (sound && nonblock && WordsFor(len) > vacancy ==> gate == Refuse(-EAGAIN))
        && (sound && !nonblock && waited <= 0 ==>
              gate == Refuse(if waited == 0 then -EAGAIN else if waited == -ERESTARTSYS then -EINTR else waited))
    {
    }

    /** Writes one packet. `user` is what can be read at the buffer address, which need not be
        `len` bytes; `vacancy` is what the core reports. */
    method Write(user: seq<Byte>, len: nat, nonblock: bool, vacancy: nat, waited: int) returns (ret: int)
      requires Valid()
      modifies this`txPkts, this`txBytes, core
      ensures var gate := WriteGate(len, nonblock, vacancy, waited);
        && (gate.Refuse? ==> ret == gate.code && unchanged(this) && unchanged(core))
        && (gate.Go? && Taken(len) > |user| ==> ret == -EFAULT && unchanged(this) && core.IsReset())
        && (gate.Go? && Taken(len) <= |user| ==>
              && ret == Taken(len)
              && |core.inFlight| == |old(core.inFlight)| + 1
              && core.inFlight[..|old(core.inFlight)|] == old(core.inFlight)
              && core.inFlight[|old(core.inFlight)|].Fits()
              && core.inFlight[|old(core.inFlight)|].Payload() == user[..Taken(len)]
              && core.txWords == [] && core.lengthError == old(core.lengthError)
              && core.rx == old(core.rx) && core.rxWords == old(core.rxWords) && core.readError == old(core.readError)
              && txPkts == (old(txPkts) + 1) % TWO_TO_THE_32
              && txBytes == (old(txBytes) + Taken(len)) % TWO_TO_THE_32)
      ensures Valid()
    {
      if !hasTkeep && len % 4 != 0 {
        return -EINVAL;
      }
      var words, leftover := len / 4 % TWO_TO_THE_32, len % 4;
      if (!hasTkeep && words == 0) || (hasTkeep && len == 0) {
        return -EINVAL;
      }
      var slots := if leftover != 0 then words + 1 else words;
      if slots > txDepth {
        return -EINVAL;
      }
      if nonblock {
        if slots > vacancy {
          return -EAGAIN;
        }
      } else if waited == 0 {
        return -EAGAIN;
      } else if waited == -ERESTARTSYS {
        return -EINTR;
      } else if waited < 0 {
        return waited;
      }
      var tmp := new Byte[4 * WRITE_BUF_SIZE];
      var fault := SendWords(tmp, user, words);
      if fault {
        core.Reset();
        return -EFAULT;
      }
      if hasTkeep && leftover != 0 {
        fault := SendLeftover(tmp, user, words, leftover);
        if fault {
          core.Reset();
          return -EFAULT;
        }
      }
      var copiedBytes := if hasTkeep && leftover != 0 then words * 4 + leftover else words * 4;
      assert Bytes(core.txWords)[..copiedBytes] == user[..copiedBytes];
      core.WriteLength(copiedBytes);
      txPkts := (txPkts + 1) % TWO_TO_THE_32;
      txBytes := (txBytes + copiedBytes) % TWO_TO_THE_32;
      return copiedBytes;
    }

    /** Fills the first words of `tmp`. */
    method ReadChunk(tmp: array<Byte>, copy: nat)
      requires tmp.Length == 4 * READ_BUF_SIZE && copy <= READ_BUF_SIZE && copy <= |core.rxWords|
      modifies tmp, core`rxWords, core`readError
      ensures core.rxWords == old(core.rxWords)[copy..] && core.readError == old(core.readError)
      ensures forall k :: 0 <= k < 4 * copy ==> tmp[k] == ByteOf(old(core.rxWords)[k / 4], k % 4)
    {
      ghost var all := core.rxWords;
      for i := 0 to copy
        invariant core.rxWords == all[i..] && core.readError == old(core.readError)
        invariant forall k :: 0 <= k < 4 * i ==> tmp[k] == ByteOf(all[k / 4], k % 4)
      {
        var w := core.ReadData();
        PutWord(tmp, i, w);
      }
    }

    /** Receives whole words into user memory, a chunk of `tmp` at a time. */
    method ReceiveWords(tmp: array<Byte>, user: array<Byte>, words: nat) returns (fault: bool)
      requires tmp.Length == 4 * READ_BUF_SIZE && user != tmp
      requires words <= |core.rxWords|
      modifies tmp, user, core`rxWords, core`readError
      ensures fault <==> 4 * words > user.Length
      ensures core.readError == old(core.readError)
      ensures !fault ==> core.rxWords == old(core.rxWords)[words..]
      ensures !fault ==> user[..4 * words] == Bytes(old(core.rxWords))[..4 * words]
      ensures !fault ==> user[4 * words..] == old(user[4 * words..])
      ensures fault ==> user[..] == Bytes(old(core.rxWords))[..user.Length]
    {
      ghost var all := core.rxWords;
      ghost var before := user[..];
      var wordsAvailable, copied := words, 0;
      while wordsAvailable > 0
        invariant wordsAvailable >= 0 && copied + wordsAvailable == words && 4 * copied <= user.Length
        invariant core.rxWords == all[copied..] && core.readError == old(core.readError)
        invariant forall k :: 0 <= k < 4 * copied ==> user[k] == ByteOf(all[k / 4], k % 4)
        invariant forall k :: 4 * copied <= k < user.Length ==> user[k] == before[k]
      {
        var copy := if wordsAvailable < READ_BUF_SIZE then wordsAvailable else READ_BUF_SIZE;
        ReadChunk(tmp, copy);
        ghost var chunk := tmp[..];
        fault := CopyToUser(user, copied * 4, tmp, copy * 4);
        forall k | 0 <= k < 4 * (copied + copy) && k < user.Length
          ensures user[k] == ByteOf(all[k / 4], k % 4)
        {
          if k >= 4 * copied {
            var j := k - 4 * copied;
            assert user[4 * copied + j] == chunk[j];
            assert copied + j / 4 == k / 4 && j % 4 == k % 4;
          }
        }
        if fault {
          return;
        }
        copied := copied + copy;
        wordsAvailable := wordsAvailable - copy;
      }
      fault := false;
    }

    method PutWord(tmp: array<Byte>, i: nat, w: Word)
      requires 4 * i + 4 <= tmp.Length
      modifies tmp
      ensures forall k :: 0 <= k < tmp.Length ==>
        tmp[k] == if k / 4 == i then ByteOf(w, k % 4) else old(tmp[k])
    {
      tmp[4 * i], tmp[4 * i + 1], tmp[4 * i + 2], tmp[4 * i + 3] := w.b0, w.b1, w.b2, w.b3;
    }

    /** Receives the bytes left over after the whole words, and nothing else of their word. */
    method ReceiveLeftover(tmp: array<Byte>, user: array<Byte>, words: nat, leftover: nat) returns (fault: bool)
      requires tmp.Length == 4 * READ_BUF_SIZE && user != tmp && 0 < leftover < 4
      requires core.rxWords != []
      modifies tmp, user, core`rxWords, core`readError
      ensures fault <==> 4 * words + leftover > user.Length
      ensures core.readError == old(core.readError) && core.rxWords == old(core.rxWords)[1..]
      ensures forall k :: 0 <= k < leftover && 4 * words + k < user.Length ==>
        user[4 * words + k] == ByteOf(old(core.rxWords[0]), k)
      ensures forall k :: 0 <= k < user.Length && (k < 4 * words || 4 * words + leftover <= k) ==>
        user[k] == old(user[k])
    {
      var w := core.ReadData();
      PutWord(tmp, 0, w);
      assert forall k :: 0 <= k < 4 ==> tmp[k] == ByteOf(w, k);
      fault := CopyToUser(user, words * 4, tmp, leftover);
      forall k | 0 <= k < leftover && 4 * words + k < user.Length
        ensures user[4 * words + k] == ByteOf(w, k)
      {
        assert user[words * 4 + k] == tmp[k];
      }
    }

    /** The whole words and the bytes left over make up the packet. */
    lemma Joins(before: seq<Byte>, whole: seq<Byte>, after: seq<Byte>, all: seq<Word>, n: nat)
      requires |before| == |whole| == |after| && |all| == WordsFor(n) && n % 4 != 0 && n - n % 4 <= |whole|
      requires whole[..n - n % 4] == Bytes(all)[..n - n % 4] && whole[n - n % 4..] == before[n - n % 4..]
      requires forall k :: 0 <= k < n % 4 && n - n % 4 + k < |after| ==> after[n - n % 4 + k] == ByteOf(all[n / 4], k)
      requires forall k :: 0 <= k < |after| && (k < n - n % 4 || n <= k) ==> after[k] == whole[k]
      ensures n <= |after| ==> after[..n] == Bytes(all)[..n] && after[n..] == before[n..]
      ensures n > |after| ==> after == Bytes(all)[..|after|]
    {
      var m := n - n % 4;
      forall k | 0 <= k < n && k < |after|
        ensures after[k] == Bytes(all)[k]
      {
        if k < m {
          assert whole[..m][k] == Bytes(all)[..m][k];
        } else {
          assert k / 4 == n / 4 && after[m + (k - m)] == ByteOf(all[n / 4], k - m);
        }
      }
      forall k | n <= k < |after|
        ensures after[k] == before[k]
      {
        assert whole[m..][k - m] == before[m..][k - m];
      }
    }

    /** Receives the n bytes of a packet whose length has just been read. */
    method ReceivePacket(user: array<Byte>, n: nat) returns (fault: bool)
      requires |core.rxWords| == WordsFor(n) && (n % 4 != 0 ==> hasTkeep)
      modifies user, core`rxWords, core`readError
      ensures fault <==> n > user.Length
      ensures core.readError == old(core.readError)
      ensures !fault ==> core.rxWords == []
      ensures !fault ==> user[..n] == Bytes(old(core.rxWords))[..n] && user[n..] == old(user[n..])
      ensures fault ==> user[..] == Bytes(old(core.rxWords))[..user.Length]
    {
      var words, leftover := n / 4, n % 4;
      ghost var all, before := core.rxWords, user[..];
      var tmp := new Byte[4 * READ_BUF_SIZE];
      fault := ReceiveWords(tmp, user, words);
      if !fault && hasTkeep && leftover != 0 {
        ghost var whole := user[..];
        fault := ReceiveLeftover(tmp, user, words, leftover);
        Joins(before, whole, user[..], all, n);
      }
    }

    /** Reads one packet into a buffer of which `len` bytes are offered and `user.Length` can be
        written. */
    method Read(user: array<Byte>, len: nat, nonblock: bool, waited: int) returns (ret: int)
      requires Valid()
      requires !nonblock && waited > 0 ==> core.Occupied()
      modifies this`rxPkts, this`rxBytes, core, user
      ensures var open := if nonblock then old(core.Occupied()) else waited > 0;
        var n := old(core.NextLength());
        var sound := 0 < n <= len && (hasTkeep || n % 4 == 0);
        && (!open ==>
              && ret == (if nonblock || waited == 0 then -EAGAIN else if waited == -ERESTARTSYS then -EINTR else waited)
              && unchanged(this) && unchanged(core) && unchanged(user))
        && (open && !sound ==>
              && ret == (if n > len then -EINVAL else -EIO)
              && unchanged(this) && unchanged(user) && core.IsReset())
        && (open && sound && n > user.Length ==>
              && ret == -EFAULT && unchanged(this) && core.IsReset()
              && old(core.rx) != [] && user[..] == old(core.rx)[0].Payload()[..user.Length])
        && (open && sound && n <= user.Length ==>
              && ret == n
              && old(core.rx) != []
              && user[..n] == old(core.rx)[0].Payload()
              && user[n..] == old(user[n..])
              && core.rx == old(core.rx)[1..] && core.rxWords == [] && core.readError == old(core.readError)
              && core.inFlight == old(core.inFlight) && core.txWords == [] && core.lengthError == old(core.lengthError)
              && rxPkts == (old(rxPkts) + 1) % TWO_TO_THE_32
              && rxBytes == (old(rxBytes) + n) % TWO_TO_THE_32)
        && (ret >= 0 <==> open && sound && n <= user.Length)
      ensures ret <= len && (len <= user.Length ==> user[len..] == old(user[len..]))
      ensures Valid()
    {
      if nonblock {
        if !core.Occupied() {
          return -EAGAIN;
        }
      } else if waited == 0 {
        return -EAGAIN;
      } else if waited == -ERESTARTSYS {
        return -EINTR;
      } else if waited < 0 {
        return waited;
      }
      assert core.rx != [] ==> core.rx[0].Fits();
      var bytesAvailable := core.ReadLength();
      if bytesAvailable == 0 {
        core.Reset();
        return -EIO;
      }
      if bytesAvailable > len {
        core.Reset();
        return -EINVAL;
      }
      if !hasTkeep && bytesAvailable % 4 != 0 {
        core.Reset();
        return -EIO;
      }
      var fault := ReceivePacket(user, bytesAvailable);
      if fault {
        core.Reset();
        return -EFAULT;
      }
      rxPkts := (rxPkts + 1) % TWO_TO_THE_32;
      rxBytes := (rxBytes + bytesAvailable) % TWO_TO_THE_32;
      return bytesAvailable;
    }
  }
}

/** A FIFO core whose transmit stream is tied to its receive stream, used through the driver. */
module AxisFifoLoopback {
  import opened FifoCore
  import opened AxisFifoDriver

  function Payloads(ps: seq<Packet>): (bs: seq<seq<Byte>>)
    requires forall p :: p in ps ==> p.Fits()
    ensures |bs| == |ps|
  {
    seq(|ps|, k requires 0 <= k < |ps| => ps[k].Payload())
  }

  lemma PayloadsAppend(ps: seq<Packet>, p: Packet)
    requires p.Fits() && forall q :: q in ps ==> q.Fits()
    ensures Payloads(ps + [p]) == Payloads(ps) + [p.Payload()]
  {
  }

  lemma PayloadsHead(ps: seq<Packet>)
    requires ps != [] && forall q :: q in ps ==> q.Fits()
    ensures Payloads(ps) == [ps[0].Payload()] + Payloads(ps[1..])
  {
  }

  /** The loop carries the bytes that have TKEEP; the others arrive as anything. */
  ghost predicate Carries(sent: Packet, received: Packet) {
    sent.Fits() && received.Fits() && received.len == sent.len && received.Payload() == sent.Payload()
  }

  /** The longest buffer the kernel passes to a driver is below this. */
  const RW_LIMIT: nat := 0x8000_0000

  class Looped {
    const fifo: AxisFifo
    ghost var written: seq<seq<Byte>>
    ghost var returned: seq<seq<Byte>>

    constructor (fifo: AxisFifo)
      requires fifo.Valid() && fifo.core.IsReset()
      ensures this.fifo == fifo && Valid() && written == [] && returned == []
    {
      this.fifo := fifo;
      written, returned := [], [];
    }

    /** A packet a driver could have sent: not empty, and whole words unless there is TKEEP. */
    ghost predicate Sendable(p: Packet) {
      p.len > 0 && (!fifo.hasTkeep ==> p.len % 4 == 0)
    }

    /** What was returned, followed by what is under way, is what was written. */
    ghost predicate Valid()
      reads this, fifo, fifo.core
    {
      && fifo.Valid()
      && (forall p :: p in fifo.core.inFlight ==> Sendable(p))
      && (forall p :: p in fifo.core.rx ==> Sendable(p))
      && returned + Payloads(fifo.core.rx) + Payloads(fifo.core.inFlight) == written
    }

    /** A write is refused, or its whole buffer becomes the next packet. */
    method Send(user: seq<Byte>, nonblock: bool, vacancy: nat, waited: int) returns (ret: int)
      requires Valid() && |user| < RW_LIMIT
      modifies this`written, fifo`txPkts, fifo`txBytes, fifo.core
      ensures Valid()
      ensures ret >= 0 ==> ret == |user| && written == old(written) + [user]
      ensures ret < 0 ==> written == old(written)
      ensures ret >= 0 <==>
        && |user| > 0 && (fifo.hasTkeep || |user| % 4 == 0) && WordsFor(|user|) <= fifo.txDepth
        && if nonblock then WordsFor(|user|) <= vacancy else waited > 0
    {
      ghost var before := fifo.core.inFlight;
      ret := fifo.Write(user, |user|, nonblock, vacancy, waited);
      if ret >= 0 {
        written := written + [user];
        var p := fifo.core.inFlight[|before|];
        assert Taken(|user|) == |user| && p.Payload() == user[..|user|] == user;
        assert fifo.core.inFlight == before + [p];
        PayloadsAppend(before, p);
      }
    }

    /** The oldest packet under way arrives. */
    method Arrive(received: Packet)
      requires Valid() && fifo.core.inFlight != [] && Carries(fifo.core.inFlight[0], received)
      modifies fifo.core`inFlight, fifo.core`rx
      ensures Valid()
    {
      var core := fifo.core;
      PayloadsAppend(core.rx, received);
      PayloadsHead(core.inFlight);
      assert Sendable(core.inFlight[0]);
      core.rx, core.inFlight := core.rx + [received], core.inFlight[1..];
    }

    /** A read into a large enough buffer is refused, or returns the oldest packet that no read
        has returned, byte for byte. */
    method Receive(user: array<Byte>, nonblock: bool, waited: int) returns (ret: int)
      requires Valid() && fifo.core.NextLength() <= user.Length
      requires !nonblock && waited > 0 ==> fifo.core.Occupied()
      modifies this`returned, fifo`rxPkts, fifo`rxBytes, fifo.core, user
      ensures Valid() && written == old(written)
      ensures ret >= 0 ==>
        && |old(returned)| < |written|
        && ret <= user.Length && user[..ret] == written[|old(returned)|]
        && returned == old(returned) + [user[..ret]]
      ensures ret < 0 ==> returned == old(returned)
      ensures ret >= 0 <==> if nonblock then old(fifo.core.rx) != [] else waited > 0
    {
      ghost var rx := fifo.core.rx;
      if rx != [] {
        assert Sendable(rx[0]) && rx[0] in rx && rx[0].words != [];
        PayloadsHead(rx);
      }
      ret := fifo.Read(user, user.Length, nonblock, waited);
      if ret >= 0 {
        returned := returned + [user[..ret]];
      }
    }
  }
}
