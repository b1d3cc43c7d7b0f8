# AES music player: a model of its engine and its drivers

The repository is an audio player for a Zynq-7000 board that keeps its files encrypted. An AES-128
engine in programmable logic sits behind AXI-Streams; DMA drivers and a user-space library move
files through it; the decrypted samples go to a codec over FIFOs and SPI. This project models the
parts whose correctness is not visible from any one place, and proves what they promise.

## What is modelled

**The engine as clocked hardware.** Every `always @(posedge clk)` is one simultaneous step of a
register record, and a class whose `Edge` method updates the registers in place and is proved to be
that step. All blocks share one clock and one reset. `Gf256`, `SBoxTables`, `AesRounds` and
`KeySchedule` are the combinational logic; `Fips197` is an independent transcription of sections
4.2, 5.1, 5.2 and 5.3 of FIPS 197 with state arrays and field multiplication, and the two are
proved equal. `KeyExpander`, `CipherCore` and `InvCipherCore` are the clocked cores. What a read past
the key buffer returns is an input of the step, different at every edge.

**The stream shell.** `AxisSource`, `CipherSink` and `DecipherSink` are the AXI-Stream machines.
`CipherPath` and `DecipherPath` wire sink, pulse generators, core and source together with a FIFO of
any depth behind them, record what was captured and what entered the FIFO and when, and prove an
invariant over runs of any length. A run may offer beats and drain the FIFO at any edge. It keeps
reset released, requests no key while a block is in the sink (on the cipher side: requests keys only
in S0), and resets the FIFO only with no result pending. The theorems are about captured beats,
because the sinks capture without looking at TREADY; `CipherSink` and `DecipherSink` say when captures
and acknowledgements agree. `CipherFeed` and `DecipherFeed` add the source in front: they keep books of
what the stream acknowledges and what the sink takes, and say exactly, in terms of the offers and of the
room behind the sink, when a file arrives. `CipherDelivery` and `DecipherDelivery` prove progress: a block
held on offer is captured after a bounded number of edges. `EndToEnd` composes the two paths. `Runs` holds
what is true of the runs of any machine.

**The SPI master**, for any WIDTH and any divisor, seen by a slave that records `mosi` at the rising
edges of `sclk` and opens a frame whenever `ss` falls.

**The software.** `AxisFifo` is the chunked packet write and read of the FIFO driver over a model of
the FIFO core's registers, with a looped-back core on top; `AxisFifoIrq` is its interrupt loop;
`DmaAllocations` the list of DMA buffers and the address translation; `ChannelTable` the channel
counters, the uniqueness check and the sorted id arrays; `AesFiles` and `AesTransfers` what
`aes.cpp` sends for a file and who owns which buffer, and `Alignment` the size it rounds up to.

## Where the code and its promises differ

- With TREADY high in S0 the cipher sink acknowledges a beat that it does not store
  (`CipherSink.EarlyReadyLosesABeat`), so a source that goes on offering after the key loses the second
  block of a file (`SecondBlockIsLost`). `CipherSink.KeyThenBlocksIff` says when it loses none.
- After a key the decipher sink waits for the key buffer with TREADY still high for one edge, so a source
  that goes on offering loses the first block (`DecipherSink.FirstBlockIsLost`, `KeyThenBlocksIff`).
  The software sends key and file in one DMA transfer, and the block design (`audio_player.tcl:1134` and
  `1138`) connects that stream directly. `CipherFeed.EncryptsFileIff` and `DecipherFeed.DecryptsFileIff`
  say for any pace when a file survives: a beat offered right after the key, or right after a pause in S0
  with room, has to find room itself and to be followed by a pause. `EncryptsPacedFileIff` and
  `DecryptsPacedFileIff` say it for a source that could pause only once.
- A key request is dropped while the decipher sink waits for its key buffer
  (`DecipherSink.RequestActsIff`): the next beat, meant as a key, is then taken as a block.
- `done` is not cleared by reset in either core, so one edge in reset is not always enough
  (`CipherCore.OneResetEdgeIdlesIff`, `InvCipherCore.OneResetEdgeSettlesIff`); two are.
- CLOCK_DIVISOR is compared with a counter that is never reset, so a tick comes once per wrap of the
  counter (`SpiMaster.TicksAWrapApart`), which is CLOCK_DIVISOR + 1 clocks only for the value 1, and 8
  clocks for the value 4 (`SpiMaster.DividesByDivisorIff`).
- The SPI master ends a frame in the middle of a packet when it runs out of words, and goes on in a new
  one: `SpiMaster.FramesArePacketsIff`.
- Reset of the SPI master leaves `spi_ready` and `tx_buffer` alone: a word that was waiting or half sent is
  sent from the register as it is (`SpiMaster.SilentAfterResetIff`). It leaves `rx_full` alone as well: a
  word of zeros may be delivered (`SpiMaster.ZeroWordAfterReset`, `LoopbackIff`).
- With byte k of memory on bits 8k+7 to 8k of the stream, the blocks of a file are in reverse byte order for
  FIPS 197 (`AesFiles.ToBlockReverses`): files are encrypted and decrypted consistently, but not as other
  programs would.
- `AxisFifoIrq.EndsIffKnown`: an enabled and pending bit outside the known ones is never cleared.
- `DmaAllocations.ExactIffNotWrapped`: the end of a request is computed modulo the address space.
- `ChannelTable.CountsFitIffNamed`: a node without `compatible` is reported but accepted, and counted
  nowhere.
- A mapping of no bytes fails, so `AesTransfers.DmaState.DoTransfer` fails for every empty file
  (`AesTransfers.BuffersExistIff`).

## Model

| member | source | states |
|---|---|---|
| Gf256.MatrixConstants | rtl/AXI_aes_core_1_0/src/aes_cipher_top.v:205-218 | `xtime` and `xtime(b)^b` are multiplication by 2 and 3 in GF(2^8), section 4.2.1 of FIPS 197 |
| Gf256.InverseMatrixConstants | rtl/AXI_aes_core_1_0/src/aes_inv_cipher_top.v:236-258 | `pmul_9` and `pmul_b` are multiplication by 0x09 and 0x0b |
| Gf256.InverseMatrixConstants' | rtl/AXI_aes_core_1_0/src/aes_inv_cipher_top.v:228-250 | `pmul_d` and `pmul_e` are multiplication by 0x0d and 0x0e |
| Gf256.XTimeLinear | rtl/AXI_aes_core_1_0/src/aes_inv_cipher_top.v:260-262 | `xtime` of an exclusive or is the exclusive or of the `xtime`s |
| Gf256.PMulLinear | rtl/AXI_aes_core_1_0/src/aes_inv_cipher_top.v:227-258 | the four `pmul` functions are linear over exclusive or |
| Gf256.TimesLinear | rtl/AXI_aes_core_1_0/src/aes_inv_cipher_top.v:227-262 | multiplication in GF(2^8) is linear in the multiplied byte |
| Gf256.TimesCancels | rtl/AXI_aes_core_1_0/src/aes_sbox.v:64-322 | a nonzero byte can be cancelled from a product, so inverses in the field are unique |
| Gf256.InvMixRowOfMixRow | rtl/AXI_aes_core_1_0/src/aes_inv_cipher_top.v:217-225 | one byte of `inv_mix_col` applied to `mix_col` gives the byte back |
| Gf256.MixRowOfInvMixRow | rtl/AXI_aes_core_1_0/src/aes_cipher_top.v:205-214 | one byte of `mix_col` applied to `inv_mix_col` gives the byte back |
| SBoxTables.InvSBoxOfSBox | rtl/AXI_aes_core_1_0/src/aes_inv_sbox.v:64-322 | the inverse table undoes the table, on all 256 bytes |
| SBoxTables.SBoxOfInvSBox | rtl/AXI_aes_core_1_0/src/aes_sbox.v:64-322 | the table undoes the inverse table |
| SBoxTables.TableHoldsAnInverse | rtl/AXI_aes_core_1_0/src/aes_sbox.v:64-322 | every entry is the affine image of an inverse in GF(2^8), section 5.1.1 of FIPS 197 |
| SBoxTables.SBoxIsAffineOfInverse | rtl/AXI_aes_core_1_0/src/aes_sbox.v:64-322 | an entry is the affine image of y if and only if y is the inverse of the index |
| AesRounds.InvMixColOfMixCol | rtl/AXI_aes_core_1_0/src/aes_inv_cipher_top.v:217-225 | `inv_mix_col(mix_col(c)) == c` and `mix_col(inv_mix_col(c)) == c` for every column |
| AesRounds.InvShiftRowsOfShiftRows | rtl/AXI_aes_core_1_0/src/aes_inv_cipher_top.v:153-168 | the permutation of the inverse core undoes the permutation of the forward core, and the other way round |
| AesRounds.InvRoundUndoesRound | rtl/AXI_aes_core_1_0/src/aes_inv_cipher_top.v:153-188 | one inverse round undoes one forward round |
| AesRounds.DecStateMeetsEncState | rtl/AXI_aes_core_1_0/src/aes_inv_cipher_top.v:131-188 | for any list of at least two round keys, the state of the decryption after j rounds is the state of the encryption that many rounds before its end |
| AesRounds.DecryptUndoesEncrypt | rtl/AXI_aes_core_1_0/src/aes_inv_cipher_top.v:131-210 | for any list of at least two round keys, the inverse rounds undo the forward rounds with their different last round |
| AesRounds.EncryptUndoesDecrypt | rtl/AXI_aes_core_1_0/src/aes_cipher_top.v:119-198 | and the other way round |
| KeySchedule.InvCipherUndoesCipher | rtl/AXI_aes_core_1_0/src/aes_inv_cipher_top.v:131-290 | InvCipher(k, Cipher(k, x)) = x and Cipher(k, InvCipher(k, x)) = x for every key and block |
| Fips197.RoundsMatch | rtl/AXI_aes_core_1_0/src/aes_cipher_top.v:141-176 | the round datapath computes the states of section 5.1 of FIPS 197, for any number of rounds |
| Fips197.EncryptMatches | rtl/AXI_aes_core_1_0/src/aes_cipher_top.v:119-198 | the core's rounds are the Cipher of section 5.1 of FIPS 197 for any key expansion with the same words |
| Fips197.DecryptMatches | rtl/AXI_aes_core_1_0/src/aes_inv_cipher_top.v:131-210 | the core's inverse rounds are the InvCipher of section 5.3 of FIPS 197 |
| Fips197.MixColumnsMatches | rtl/AXI_aes_core_1_0/src/aes_cipher_top.v:157-160 | the four `mix_col` columns are MixColumns by field multiplication, section 5.1.3 of FIPS 197 |
| Fips197.InvMixColumnsMatches | rtl/AXI_aes_core_1_0/src/aes_inv_cipher_top.v:185-188 | the four `inv_mix_col` columns are InvMixColumns, section 5.3.3 of FIPS 197 |
| Fips197.ShiftRowsMatches | rtl/AXI_aes_core_1_0/src/aes_cipher_top.v:141-156 | the sixteen assigns are ShiftRows, section 5.1.2 of FIPS 197 |
| Fips197.InvShiftRowsMatches | rtl/AXI_aes_core_1_0/src/aes_inv_cipher_top.v:153-168 | the sixteen assigns are InvShiftRows, section 5.3.1 of FIPS 197 |
| Fips197.FrconIsRcon | rtl/AXI_aes_core_1_0/src/aes_rcon.v:76-91 | `frcon(i)` is `xtime` iterated i times on 1, for the ten constants that are used, and these are the Rcon words of section 5.2 of FIPS 197 |
| Fips197.NextKeyChains | rtl/AXI_aes_core_1_0/src/aes_key_expand_128.v:73-76 | the unrolled update is the word-by-word recursion: each new word is the word before it xor the word four back |
| Fips197.RoundKeyIsKeyWords | rtl/AXI_aes_core_1_0/src/aes_key_expand_128.v:73-82 | round key r of the register is words 4r to 4r+3 of the expansion of section 5.2 of FIPS 197, for every key and r up to 10 |
| Fips197.CipherIsAes128 | rtl/AXI_aes_core_1_0/src/aes_cipher_top.v:103-198 | the function the cores compute is AES-128 of FIPS 197, with its key expansion, and so is its inverse |
| KeyExpander.LoadStarts | rtl/AXI_aes_core_1_0/src/aes_key_expand_128.v:73-76 | a load edge puts the key and the first constant into the registers |
| KeyExpander.EdgeAdvances | rtl/AXI_aes_core_1_0/src/aes_key_expand_128.v:73-82 | an edge without a load takes round key k to round key k + 1, and the constant with it |
| KeyExpander.Rcon.Edge | rtl/AXI_aes_core_1_0/src/aes_rcon.v:67-74 | the registers `rcnt` and `out` after one edge |
| KeyExpander.KeyExpand128.Edge | rtl/AXI_aes_core_1_0/src/aes_key_expand_128.v:73-82 | the register array after one edge, each word from its old values |
| CipherCore.LoadStarts | rtl/AXI_aes_core_1_0/src/aes_cipher_top.v:103-134 | from any registers, an `ld` edge loads counter, text and key |
| CipherCore.EdgeAdvances | rtl/AXI_aes_core_1_0/src/aes_cipher_top.v:103-198 | loop invariant: k edges after the load the key register holds round key k and the state k - 1 rounds are done |
| CipherCore.DoneRisesInReset | rtl/AXI_aes_core_1_0/src/aes_cipher_top.v:103-110 | an edge in reset that finds the last count raises `done` |
| CipherCore.OneResetEdgeIdlesIff | rtl/AXI_aes_core_1_0/src/aes_cipher_top.v:103-110 | one edge in reset leaves the core idle if and only if it does not find that count |
| CipherCore.DoneThenIdle | rtl/AXI_aes_core_1_0/src/aes_cipher_top.v:103-112 | a core that is idle or done goes idle and raises nothing |
| CipherCore.TwelveEdgesEncrypt | rtl/AXI_aes_core_1_0/src/aes_cipher_top.v:103-198 | from any registers, one `ld` edge and eleven edges without leave Cipher(key, text) on `text_out`; `done` is true exactly after the twelfth |
| CipherCore.AesCipherTop.Edge | rtl/AXI_aes_core_1_0/src/aes_cipher_top.v:103-198 | all registers of the core after one edge, each from the old values |
| InvCipherCore.DoneRisesInReset | rtl/AXI_aes_core_1_0/src/aes_inv_cipher_top.v:104-113 | an edge in reset that finds the eleventh count raises `done` |
| InvCipherCore.OneResetEdgeSettlesIff | rtl/AXI_aes_core_1_0/src/aes_inv_cipher_top.v:104-120 | one edge in reset settles the control if and only if it does not find that count |
| InvCipherCore.ResetSettles | rtl/AXI_aes_core_1_0/src/aes_inv_cipher_top.v:104-120 | two edges in reset establish the control invariant from any registers |
| InvCipherCore.ControlKept | rtl/AXI_aes_core_1_0/src/aes_inv_cipher_top.v:104-120 | `dcnt` at most 12, `done` iff `dcnt` is 12, counting implies `go`, filling implies `kcnt` at most 10, under any `ld` and `kld`; so every `kb` write is in range |
| InvCipherCore.ControlKeptByRuns | rtl/AXI_aes_core_1_0/src/aes_inv_cipher_top.v:274-289 | the control invariant over runs of any length |
| InvCipherCore.FillAdvances | rtl/AXI_aes_core_1_0/src/aes_inv_cipher_top.v:274-289 | k edges after the key load the last k entries of the buffer hold the first k round keys |
| InvCipherCore.KeyBufferHoldsSchedule | rtl/AXI_aes_core_1_0/src/aes_inv_cipher_top.v:269-290 | after a `kld` edge and eleven more `kb[i]` holds round key 10 - i until the next `kld`; `kdone` pulses for one cycle |
| InvCipherCore.LoadedStays | rtl/AXI_aes_core_1_0/src/aes_inv_cipher_top.v:274-289 | without `kld` a full buffer is not changed and `kdone` stays low |
| InvCipherCore.EdgeAdvances | rtl/AXI_aes_core_1_0/src/aes_inv_cipher_top.v:104-146 | loop invariant of the replay: the key register lags the round counter by one clock |
| InvCipherCore.TwelveEdgesDecrypt | rtl/AXI_aes_core_1_0/src/aes_inv_cipher_top.v:104-210 | with the schedule in the buffer and the counter at rest, one `ld` edge and eleven without leave InvCipher(key, text) on `text_out`, whatever reads past the buffer return; `done` is true exactly after the twelfth |
| InvCipherCore.AesInvCipherTop.CounterEdge | rtl/AXI_aes_core_1_0/src/aes_inv_cipher_top.v:104-120 | `dcnt`, `done`, `go` after one edge |
| InvCipherCore.AesInvCipherTop.StateEdge | rtl/AXI_aes_core_1_0/src/aes_inv_cipher_top.v:131-210 | the state register and `text_out` after one edge |
| InvCipherCore.AesInvCipherTop.TextEdge | rtl/AXI_aes_core_1_0/src/aes_inv_cipher_top.v:122-289 | `text_in_r`, `ld_r` and the key read out of the buffer after one edge |
| InvCipherCore.AesInvCipherTop.DataEdge | rtl/AXI_aes_core_1_0/src/aes_inv_cipher_top.v:122-289 | text, state, key and output registers after one edge |
| InvCipherCore.AesInvCipherTop.FillCounterEdge | rtl/AXI_aes_core_1_0/src/aes_inv_cipher_top.v:274-287 | `kcnt`, `kb_ld` and `kdone` after one edge |
| InvCipherCore.AesInvCipherTop.KeyEdge | rtl/AXI_aes_core_1_0/src/aes_inv_cipher_top.v:269-289 | `kb` updated in place, `kcnt`, `kb_ld`, `kdone` and the expander after one edge |
| InvCipherCore.AesInvCipherTop.Edge | rtl/AXI_aes_core_1_0/src/aes_inv_cipher_top.v:104-290 | all registers of the core after one edge |
| AxisSource.HeldIsAQueue | rtl/AXI_aes_core_1_0/hdl/AXI_aes_core_v1_0_M_AXIS_cipher.v:57-92 | the word in the source leaves exactly when it has been on offer, and a result taken in S0 takes its place |
| AxisSource.OffersOnlyAfterRoom | rtl/AXI_aes_core_1_0/hdl/AXI_aes_core_v1_0_M_AXIS_cipher.v:59-92 | TVALID rises only at the edge after TREADY was seen |
| AxisSource.MAxis.Edge | rtl/AXI_aes_core_1_0/hdl/AXI_aes_core_v1_0_M_AXIS_cipher.v:47-103 | the registers of the source after one edge |
| AxisStream.BalancedIffNoSlip | rtl/AXI_aes_core_1_0/hdl/AXI_aes_core_v1_0_S_AXIS_cipher.v:68-127 | what is taken stays what is acknowledged at exactly the edges where TREADY does not acknowledge a fresh beat that is not taken, or one taken before |
| CipherSink.ReadyFollowsTaking | rtl/AXI_aes_core_1_0/hdl/AXI_aes_core_v1_0_S_AXIS_cipher.v:70-127 | for a beat it was not ready for, the sink raises TREADY exactly when it takes it |
| CipherSink.TakingStores | rtl/AXI_aes_core_1_0/hdl/AXI_aes_core_v1_0_S_AXIS_cipher.v:70-127 | a taken beat is stored in the register it is meant for and nothing else is; a request is remembered until its key has come; the sink works on a block until the core has finished, in the abort path as well |
| CipherSink.InBalanceAlongIff | rtl/AXI_aes_core_1_0/hdl/AXI_aes_core_v1_0_S_AXIS_cipher.v:70-127 | under any pausing, key requests and back-pressure, what is taken is what is acknowledged all along a run if and only if no edge of it slips |
| CipherSink.InStepKept | rtl/AXI_aes_core_1_0/hdl/AXI_aes_core_v1_0_S_AXIS_cipher.v:68-127 | facing a source that always offers, TREADY is high only for a beat that has been taken |
| CipherSink.EarlyReadyLosesABeat | rtl/AXI_aes_core_1_0/hdl/AXI_aes_core_v1_0_S_AXIS_cipher.v:70-92 | with TREADY already high in S0 a beat is acknowledged and never captured |
| CipherSink.MatchesIffNotReady | rtl/AXI_aes_core_1_0/hdl/AXI_aes_core_v1_0_S_AXIS_cipher.v:70-127 | facing a source that always offers and holds its beat, under any back-pressure, what is taken matches what is acknowledged if and only if TREADY is low at the start |
| CipherSink.RequestAwaitsKey | rtl/AXI_aes_core_1_0/hdl/AXI_aes_core_v1_0_S_AXIS_cipher.v:79-85 | a key request in S0 leaves the sink awaiting the key, with TREADY high, until one is offered |
| CipherSink.SecondBlockIsLost | rtl/AXI_aes_core_1_0/hdl/AXI_aes_core_v1_0_S_AXIS_cipher.v:70-95 | a source that goes on offering after the key: the second block is acknowledged and never captured |
| CipherSink.KeyThenBlocksIff | rtl/AXI_aes_core_1_0/hdl/AXI_aes_core_v1_0_S_AXIS_cipher.v:70-127 | a source that offers a key and then blocks loses none, under any later back-pressure, if and only if there is room for the first block and it pauses right after that was acknowledged |
| CipherSink.SAxisCipher.Edge | rtl/AXI_aes_core_1_0/hdl/AXI_aes_core_v1_0_S_AXIS_cipher.v:56-140 | the registers of the cipher sink after one edge |
| DecipherSink.StepsAsCipherSink | rtl/AXI_aes_core_1_0/hdl/AXI_aes_core_v1_0_S_AXIS_decipher.v:70-136 | outside key loading the decipher sink steps and captures as the cipher sink does |
| DecipherSink.ReadyFollowsTaking | rtl/AXI_aes_core_1_0/hdl/AXI_aes_core_v1_0_S_AXIS_decipher.v:70-149 | for a beat it was not ready for, the sink raises TREADY exactly when it takes it |
| DecipherSink.TakingStores | rtl/AXI_aes_core_1_0/hdl/AXI_aes_core_v1_0_S_AXIS_decipher.v:70-149 | the same, with S2 from a key to the full key buffer |
| DecipherSink.KeyInvalidIff | rtl/AXI_aes_core_1_0/hdl/AXI_aes_core_v1_0_S_AXIS_decipher.v:70-149 | `key_valid` is low exactly from the edge that takes a key until the key buffer is full |
| DecipherSink.InBalanceAlongIff | rtl/AXI_aes_core_1_0/hdl/AXI_aes_core_v1_0_S_AXIS_decipher.v:70-149 | under any pausing, key requests and back-pressure, what is taken is what is acknowledged all along a run if and only if no edge of it slips |
| DecipherSink.RequestActsIff | rtl/AXI_aes_core_1_0/hdl/AXI_aes_core_v1_0_S_AXIS_decipher.v:54-147 | a key request takes the key or leads to waiting for it if and only if it does not come in S2 with the previous key in place, where it leaves no trace |
| DecipherSink.FirstBlockIsLost | rtl/AXI_aes_core_1_0/hdl/AXI_aes_core_v1_0_S_AXIS_decipher.v:82-149 | a source that goes on offering after the key: the first block is acknowledged while the sink waits for the key buffer, and never captured |
| DecipherSink.KeyThenBlocksIff | rtl/AXI_aes_core_1_0/hdl/AXI_aes_core_v1_0_S_AXIS_decipher.v:70-149 | a source that offers a key and then blocks loses none, under any later back-pressure, if and only if it pauses right after the key was acknowledged |
| DecipherSink.SAxisDecipher.Edge | rtl/AXI_aes_core_1_0/hdl/AXI_aes_core_v1_0_S_AXIS_decipher.v:58-161 | the registers of the decipher sink after one edge |
| CipherPath.CoreKept | rtl/AXI_aes_core_1_0/hdl/AXI_aes_core_v1_0.v:243-265 | each captured block raises one start pulse, and data and key stay put until `done` |
| CipherPath.DoneMeansCiphered | rtl/AXI_aes_core_1_0/hdl/AXI_aes_core_v1_0.v:235-265 | the core raises `done` for the captured block only, with its cipher on `text_out` |
| CipherPath.StreamKept | rtl/AXI_aes_core_1_0/hdl/AXI_aes_core_v1_0.v:235-265 | pushed words, the word in the source and the word in the core are the ciphers of the captures, in order |
| CipherPath.ResetStarts | rtl/AXI_aes_core_1_0/hdl/AXI_aes_core_v1_0.v:244-254 | two edges in reset establish the invariant from any registers |
| CipherPath.CipherStream | rtl/AXI_aes_core_1_0/hdl/AXI_aes_core_v1_0_S_AXIS_cipher.v:68-139 | over every run from reset the words that enter the FIFO are Cipher(latest captured key) of the captured blocks, in order, once each, with their own TLAST |
| CipherPath.NoOverrun | rtl/AXI_aes_core_1_0/hdl/AXI_aes_core_v1_0_M_AXIS_cipher.v:57-103 | in every reachable state `done` finds the source in S0, a word on offer finds room, and captures are at least 16 edges apart |
| CipherPath.EntersSeventeenEdgesLater | rtl/AXI_aes_core_1_0/hdl/AXI_aes_core_v1_0_S_AXIS_cipher.v:70-127 | a block captured at edge c enters the FIFO at edge c + 17 when there is room at edge c + 15 |
| CipherPath.EntersTwoEdgesAfterRoom | rtl/AXI_aes_core_1_0/hdl/AXI_aes_core_v1_0_M_AXIS_cipher.v:57-92 | a block captured at edge c enters the FIFO at edge e + 2, where e is the first edge not before c + 15 that sees room |
| CipherPath.WaitingEnters | rtl/AXI_aes_core_1_0/hdl/AXI_aes_core_v1_0_M_AXIS_cipher.v:84-92 | a result that found no room enters the FIFO at the second edge after the one that sees room |
| CipherPath.HeldFifoLosesNothing | rtl/AXI_aes_core_1_0/hdl/AXI_aes_core_v1_0.v:237-237 | holding the FIFO in reset by the configuration bit discards only words that had entered: every result has, and the edge takes and pushes nothing |
| CipherPath.CipherWiring.Edge | rtl/AXI_aes_core_1_0/hdl/AXI_aes_core_v1_0.v:155-265 | one edge of sink, pulse registers, core and source wired together is one step of the path |
| DecipherPath.KeyKept | rtl/AXI_aes_core_1_0/hdl/AXI_aes_core_v1_0.v:291-301 | each captured key raises one key-load pulse and stays put until `kdone` |
| DecipherPath.BlockKept | rtl/AXI_aes_core_1_0/hdl/AXI_aes_core_v1_0.v:275-287 | each captured block raises one start pulse, and data and key buffer stay put until `done` |
| DecipherPath.DoneMeansDeciphered | rtl/AXI_aes_core_1_0/hdl/AXI_aes_core_v1_0.v:268-313 | the core raises `done` for the captured block only, with its decryption on `text_out` |
| DecipherPath.StreamKept | rtl/AXI_aes_core_1_0/hdl/AXI_aes_core_v1_0.v:268-313 | pushed words, the word in the source and the word in the core are the decryptions of the captures, in order |
| DecipherPath.ResetStarts | rtl/AXI_aes_core_1_0/hdl/AXI_aes_core_v1_0.v:278-299 | two edges in reset establish the invariant from any registers |
| DecipherPath.DecipherStream | rtl/AXI_aes_core_1_0/hdl/AXI_aes_core_v1_0_S_AXIS_decipher.v:70-160 | over every run from reset the words that enter the FIFO are InvCipher(latest captured key) of the captured blocks, in order, once each, with their own TLAST |
| DecipherPath.NoOverrun | rtl/AXI_aes_core_1_0/hdl/AXI_aes_core_v1_0_M_AXIS_decipher.v:57-103 | the same bounds as on the cipher side |
| DecipherPath.EntersSeventeenEdgesLater | rtl/AXI_aes_core_1_0/hdl/AXI_aes_core_v1_0_S_AXIS_decipher.v:70-136 | the same latency as on the cipher side |
| DecipherPath.EntersTwoEdgesAfterRoom | rtl/AXI_aes_core_1_0/hdl/AXI_aes_core_v1_0_M_AXIS_decipher.v:57-92 | the same on the decipher side |
| DecipherPath.WaitingEnters | rtl/AXI_aes_core_1_0/hdl/AXI_aes_core_v1_0_M_AXIS_decipher.v:84-92 | the same for a result that found no room |
| DecipherPath.HeldFifoLosesNothing | rtl/AXI_aes_core_1_0/hdl/AXI_aes_core_v1_0.v:269-269 | the same on the decipher side |
| DecipherPath.DecipherWiring.PulseEdge | rtl/AXI_aes_core_1_0/hdl/AXI_aes_core_v1_0.v:275-301 | the four pulse registers after one edge |
| DecipherPath.DecipherWiring.Edge | rtl/AXI_aes_core_1_0/hdl/AXI_aes_core_v1_0.v:178-313 | one edge of the wired instances is one step of the path |
| EndToEnd.HardwareRoundTrip | rtl/AXI_aes_core_1_0/hdl/AXI_aes_core_v1_0.v:232-316 | blocks that pass the cipher path and then the decipher path under one key come out unchanged, TLAST included, for any two runs |
| CipherDelivery.CapturedInTwoEdges | rtl/AXI_aes_core_1_0/hdl/AXI_aes_core_v1_0_M_AXIS_cipher.v:59-77 | with the sink free, the source at rest and room in the FIFO, the block on offer, and nothing else, is captured within two edges |
| CipherDelivery.HeldBlockIsCaptured | rtl/AXI_aes_core_1_0/hdl/AXI_aes_core_v1_0_M_AXIS_cipher.v:59-97 | from any reachable state, a block held on offer is captured, and nothing before it, by the time twenty edges have found the FIFO with room or drained it |
| CipherDelivery.CapturedWithinTwenty | rtl/AXI_aes_core_1_0/hdl/AXI_aes_core_v1_0_M_AXIS_cipher.v:59-97 | with the FIFO drained at every edge that is within twenty edges |
| CipherDelivery.FifoIsAQueue | rtl/AXI_aes_core_1_0/hdl/AXI_aes_core_v1_0.v:235-237 | what left the FIFO followed by what it holds is what it held followed by what entered it |
| DecipherDelivery.CapturedInTwoEdges | rtl/AXI_aes_core_1_0/hdl/AXI_aes_core_v1_0_M_AXIS_decipher.v:59-77 | the same for the decipher path |
| DecipherDelivery.HeldBlockIsCaptured | rtl/AXI_aes_core_1_0/hdl/AXI_aes_core_v1_0_M_AXIS_decipher.v:59-97 | the same for the decipher path, also from states in which the key buffer is still filling |
| DecipherDelivery.CapturedWithinTwenty | rtl/AXI_aes_core_1_0/hdl/AXI_aes_core_v1_0_M_AXIS_decipher.v:59-97 | the same for the decipher path |
| DecipherDelivery.FifoIsAQueue | rtl/AXI_aes_core_1_0/hdl/AXI_aes_core_v1_0.v:267-269 | the same for the decipher path |
| CipherFeed.FeedingAlong | rtl/AXI_aes_core_1_0/hdl/AXI_aes_core_v1_0_S_AXIS_cipher.v:70-127 | along a run that awaits a key, the first beat taken is the key and the others are the blocks captured under it; beats are missing if and only if an edge slipped |
| CipherFeed.ContinuousSourceSlips | rtl/AXI_aes_core_1_0/hdl/AXI_aes_core_v1_0_S_AXIS_cipher.v:70-95 | a source that offers at the three edges of key, first and second block always slips |
| CipherFeed.NeverSlipsIffSpaced | rtl/AXI_aes_core_1_0/hdl/AXI_aes_core_v1_0_S_AXIS_cipher.v:70-127 | for a source that offers and pauses as it likes, under any back-pressure: no acknowledged beat is missed if and only if each beat offered right after the key, or right after a pause in S0 with room, finds room and is followed by a pause |
| CipherFeed.SpacedIffPauses | rtl/AXI_aes_core_1_0/hdl/AXI_aes_core_v1_0_S_AXIS_cipher.v:70-127 | for a source that offers at every edge except, perhaps, the one after the first block this comes down to room for the first block and that one pause |
| CipherFeed.EncryptsFileIff | app/aes.cpp:198-243 | with the stream of a file offered at any pace and all of it acknowledged, what enters the FIFO is the encrypted file if and only if each beat offered right after a gap finds room and is followed by a pause |
| CipherFeed.EncryptsPacedFileIff | app/aes.cpp:198-243 | with offers at every edge except, perhaps, the one after the first block: the encrypted file enters the FIFO if and only if the first block finds room and the source pauses right after it |
| DecipherFeed.FeedingAlong | rtl/AXI_aes_core_1_0/hdl/AXI_aes_core_v1_0_S_AXIS_decipher.v:70-149 | the same for the decipher path |
| DecipherFeed.ContinuousSourceSlips | rtl/AXI_aes_core_1_0/hdl/AXI_aes_core_v1_0_S_AXIS_decipher.v:82-149 | a source that offers at the two edges of key and first block always slips |
| DecipherFeed.NeverSlipsIffSpaced | rtl/AXI_aes_core_1_0/hdl/AXI_aes_core_v1_0_S_AXIS_decipher.v:70-149 | the same for the decipher path, where there is no room until the key buffer has filled |
| DecipherFeed.SpacedIffPauses | rtl/AXI_aes_core_1_0/hdl/AXI_aes_core_v1_0_S_AXIS_decipher.v:70-149 | for a source that offers at every edge except, perhaps, the one after the key this comes down to that one pause |
| DecipherFeed.DecryptsFileIff | app/aes.cpp:198-243 | with the stream of a file offered at any pace and all of it acknowledged, what enters the FIFO is the decrypted file if and only if each beat offered right after a gap finds room and is followed by a pause |
| DecipherFeed.DecryptsPacedFileIff | app/aes.cpp:198-243 | with offers at every edge except, perhaps, the one after the key: the decrypted file enters the FIFO if and only if the source pauses right after the key |
| EndToEnd.FileThroughHardware | app/aes.cpp:160-243 | a file through the cipher path and its result through the decipher path, at any pace, comes back, followed by zeros, if each beat offered right after a gap finds room and is followed by a pause |
| EndToEnd.PacedFileThroughHardware | app/aes.cpp:160-243 | it does so for sources that pause just once: the first after its first block, for which there is room, the second after the key |
| SpiMaster.FitsItsCounter | rtl/SPI_master_1.0/hdl/SPI_master_v1_0.v:61-62 | a register `[$clog2(n) : 0]` can hold n |
| SpiMaster.HeldMoves | rtl/SPI_master_1.0/hdl/SPI_master_v1_0.v:86-90 | no accepted word is lost: it begins or stays held, and none is accepted on top of it |
| SpiMaster.FramesKept | rtl/SPI_master_1.0/hdl/SPI_master_v1_0.v:97-141 | the recorded bits and the bits still to come spell the words begun |
| SpiMaster.SampledKept | rtl/SPI_master_1.0/hdl/SPI_master_v1_0.v:110-127 | delivered words, the word in the pipe and the partial word are the sampled bits |
| SpiMaster.SendsKept | rtl/SPI_master_1.0/hdl/SPI_master_v1_0.v:85-147 | the invariant of the sending side over one edge, for any WIDTH and divisor |
| SpiMaster.ReceivesKept | rtl/SPI_master_1.0/hdl/SPI_master_v1_0.v:92-127 | the invariant of the receiving side over one edge |
| SpiMaster.ResetStartsSending | rtl/SPI_master_1.0/hdl/SPI_master_v1_0.v:78-84 | one edge in reset starts the sending side from any registers |
| SpiMaster.ResetStartsReceivingIff | rtl/SPI_master_1.0/hdl/SPI_master_v1_0.v:78-93 | one edge in reset starts the receiving side if and only if no word was about to be shown |
| SpiMaster.SilentAfterResetIff | rtl/SPI_master_1.0/hdl/SPI_master_v1_0.v:78-109 | after a reset with nothing offered the line stays silent if and only if no word was waiting; a waiting one is sent from the register |
| SpiMaster.LineSpellsWords | rtl/SPI_master_1.0/hdl/SPI_master_v1_0.v:85-147 | the bits on `mosi` at the rising edges of `sclk` spell the accepted words in order, most significant bit first, whatever the timing |
| SpiMaster.WidthRisesPerWord | rtl/SPI_master_1.0/hdl/SPI_master_v1_0.v:110-140 | `sclk` rises WIDTH times for each word |
| SpiMaster.FramesArePacketsIff | rtl/SPI_master_1.0/hdl/SPI_master_v1_0.v:85-147 | for a run from reset that ends at rest, the `ss`-low periods are the packets and carry their bits if and only if no word is accepted any more once the master has run out of words in the middle of a packet |
| SpiMaster.PacketsOnTheLine | rtl/SPI_master_1.0/hdl/SPI_master_v1_0.v:85-147 | if each next word is accepted before the last tick of its predecessor, `ss` is low exactly once per packet, across the whole of it |
| SpiMaster.DeliversWhatItSampled | rtl/SPI_master_1.0/hdl/SPI_master_v1_0.v:92-127 | every delivered word is the next WIDTH bits of `miso`, first bit on top |
| SpiMaster.LoopbackReturnsWords | rtl/SPI_master_1.0/hdl/SPI_master_v1_0.v:85-147 | with `miso` tied to `mosi` the delivered words are the accepted words, in order, and all of them at rest |
| SpiMaster.ZeroWordAfterReset | rtl/SPI_master_1.0/hdl/SPI_master_v1_0.v:78-93 | after a reset that finds a word about to be shown, a word of zeros is delivered that was never sampled |
| SpiMaster.LoopbackIff | rtl/SPI_master_1.0/hdl/SPI_master_v1_0.v:78-147 | from a reset every looped run returns its words if and only if the reset found no word about to be shown |
| SpiMaster.LeastPower | rtl/SPI_master_1.0/hdl/SPI_master_v1_0.v:61-62 | `$clog2` gives the least power of two that is not below n |
| SpiMaster.DividesByDivisorIff | rtl/SPI_master_1.0/hdl/SPI_master_v1_0.v:61-96 | the divider register wraps after CLOCK_DIVISOR + 1 clocks if and only if that is 1; from 2 on it takes between 2n and 4(n - 1), and 8 for 4 |
| SpiMaster.TicksAWrapApart | rtl/SPI_master_1.0/hdl/SPI_master_v1_0.v:95-96 | ticks are as far apart as the divider register takes to wrap around |
| SpiMaster.PhaseMoves | rtl/SPI_master_1.0/hdl/SPI_master_v1_0.v:96-141 | a word moves by half a clock at every tick and takes 2 * WIDTH of them |
| SpiMaster.IdleLineIsLow | rtl/SPI_master_1.0/hdl/SPI_master_v1_0.v:98-109 | with nothing to send `mosi` goes low at the next tick and stays low |
| SpiMaster.SpiMasterV1.AlwaysEdge | rtl/SPI_master_1.0/hdl/SPI_master_v1_0.v:86-95 | the assignments outside the tick |
| SpiMaster.SpiMasterV1.BetweenWords | rtl/SPI_master_1.0/hdl/SPI_master_v1_0.v:98-109 | the tick in S0 |
| SpiMaster.SpiMasterV1.LeadingEdge | rtl/SPI_master_1.0/hdl/SPI_master_v1_0.v:110-121 | the tick in S1 |
| SpiMaster.SpiMasterV1.TrailingEdge | rtl/SPI_master_1.0/hdl/SPI_master_v1_0.v:122-141 | the tick in S2 |
| SpiMaster.SpiMasterV1.Edge | rtl/SPI_master_1.0/hdl/SPI_master_v1_0.v:77-148 | all registers after one edge |
| AxisFifoDriver.TakesAllIff | project-spec/meta-user/recipes-modules/axis-fifo/files/axis-fifo.c:620-621 | a write takes a prefix of its buffer, all of it if and only if the word count fits in 32 bits |
| AxisFifoDriver.CopyFromUser | project-spec/meta-user/recipes-modules/axis-fifo/files/axis-fifo.c:689-693 | fails exactly when the buffer cannot be read, and changes no byte past the ones asked for |
| AxisFifoDriver.CopyToUser | project-spec/meta-user/recipes-modules/axis-fifo/files/axis-fifo.c:572-576 | fails exactly when the buffer cannot be written, copies every byte up to there, and changes no other byte |
| AxisFifoDriver.AxisFifo.SendWords | project-spec/meta-user/recipes-modules/axis-fifo/files/axis-fifo.c:685-701 | the chunk loop writes the words of the buffer, in order, and ends |
| AxisFifoDriver.AxisFifo.SendLeftover | project-spec/meta-user/recipes-modules/axis-fifo/files/axis-fifo.c:703-711 | the last one to three bytes go into one more word |
| AxisFifoDriver.AxisFifo.WritesIff | project-spec/meta-user/recipes-modules/axis-fifo/files/axis-fifo.c:614-677 | a write goes ahead exactly when its length can be sent, fits the FIFO, and has room now or after the wait; otherwise -EINVAL, -EAGAIN, -EINTR or the error of the wait |
| AxisFifoDriver.AxisFifo.Write | project-spec/meta-user/recipes-modules/axis-fifo/files/axis-fifo.c:601-720 | refused with the right code and no effect, or the core is reset on a fault, or one packet is added that is the buffer byte for byte, with a length that matches its words |
| AxisFifoDriver.AxisFifo.ReadChunk | project-spec/meta-user/recipes-modules/axis-fifo/files/axis-fifo.c:567-570 | the first words of the intermediate buffer are the next words of the core |
| AxisFifoDriver.AxisFifo.ReceiveWords | project-spec/meta-user/recipes-modules/axis-fifo/files/axis-fifo.c:563-580 | the chunk loop returns the words in order, pops exactly those, and ends; on a fault the buffer holds the packet up to its end |
| AxisFifoDriver.AxisFifo.ReceiveLeftover | project-spec/meta-user/recipes-modules/axis-fifo/files/axis-fifo.c:582-594 | only the bytes with TKEEP of the last word reach the user |
| AxisFifoDriver.AxisFifo.ReceivePacket | project-spec/meta-user/recipes-modules/axis-fifo/files/axis-fifo.c:561-594 | a packet is returned byte for byte, its words are all popped, and no byte past its length is touched |
| AxisFifoDriver.AxisFifo.Read | project-spec/meta-user/recipes-modules/axis-fifo/files/axis-fifo.c:480-599 | succeeds exactly when a packet is waited for and found, is not empty, not longer than the bytes offered, writable, and whole words unless there is TKEEP; each failure has its code and, past the wait, resets the core; never writes past the bytes offered; a packet read is returned byte for byte and popped |
| FifoCore.BytesAt | project-spec/meta-user/recipes-modules/axis-fifo/files/axis-fifo.c:567-573 | a data word is its four bytes in memory order |
| FifoCore.Core.Reset | project-spec/meta-user/recipes-modules/axis-fifo/files/axis-fifo.c:431-433 | the three reset writes empty the core and clear its errors |
| AxisFifoLoopback.Looped.Send | project-spec/meta-user/recipes-modules/axis-fifo/files/axis-fifo.c:601-720 | a write is refused exactly by its checks, or its whole buffer is the next packet |
| AxisFifoLoopback.Looped.Receive | project-spec/meta-user/recipes-modules/axis-fifo/files/axis-fifo.c:480-599 | with the transmit stream looped back, over any interleaving, each read returns the oldest packet not yet returned, byte for byte |
| AxisFifoIrq.ChosenIsFirst | project-spec/meta-user/recipes-modules/axis-fifo/files/axis-fifo.c:892-990 | the chain of tests picks the first pending interrupt in the order of priority |
| AxisFifoIrq.CompletionsComeFirst | project-spec/meta-user/recipes-modules/axis-fifo/files/axis-fifo.c:892-935 | a packet received is handled first, a packet sent second, and errors and resets not before the FIFO levels |
| AxisFifoIrq.ClearComesLast | project-spec/meta-user/recipes-modules/axis-fifo/files/axis-fifo.c:892-990 | the write that clears a bit comes after everything the bit calls for, and clears that bit alone |
| AxisFifoIrq.CalledFor | project-spec/meta-user/recipes-modules/axis-fifo/files/axis-fifo.c:892-990 | which bits wake readers or writers, poll either side, or reset either side |
| AxisFifoIrq.AllExplained | project-spec/meta-user/recipes-modules/axis-fifo/files/axis-fifo.c:887-991 | every event of a run of the handler is called for by a pending bit and is followed by the write that clears this bit |
| AxisFifoIrq.WakesIff | project-spec/meta-user/recipes-modules/axis-fifo/files/axis-fifo.c:892-910 | readers are woken if and only if a packet was received, writers if and only if one was sent, each before its bit is cleared |
| AxisFifoIrq.PollsIff | project-spec/meta-user/recipes-modules/axis-fifo/files/axis-fifo.c:892-935 | polls of readers and writers for exactly the bits that call for them |
| AxisFifoIrq.ResetsRxIff | project-spec/meta-user/recipes-modules/axis-fifo/files/axis-fifo.c:943-966 | the receive side is reset if and only if one of its three errors is pending |
| AxisFifoIrq.ResetsTxIff | project-spec/meta-user/recipes-modules/axis-fifo/files/axis-fifo.c:967-974 | the transmit side is reset if and only if its overrun is pending |
| AxisFifoIrq.ClearsIff | project-spec/meta-user/recipes-modules/axis-fifo/files/axis-fifo.c:887-991 | exactly the pending bits are cleared |
| AxisFifoIrq.Answers | project-spec/meta-user/recipes-modules/axis-fifo/files/axis-fifo.c:882-994 | all of this in terms of the status and enable registers |
| AxisFifoIrq.TurnHandlesFirst | project-spec/meta-user/recipes-modules/axis-fifo/files/axis-fifo.c:887-991 | one turn handles that interrupt, clears its bit alone, and leaves one pending interrupt less |
| AxisFifoIrq.EndsIffKnown | project-spec/meta-user/recipes-modules/axis-fifo/files/axis-fifo.c:887-991 | the loop ends if and only if no unknown bit is enabled and pending, after one turn for each pending interrupt |
| AxisFifoIrq.ResetEnablesKnownBits | project-spec/meta-user/recipes-modules/axis-fifo/files/axis-fifo.c:434-437 | what a reset enables are known bits, packets received and sent among them |
| AxisFifoIrq.FifoInterrupts.Test | project-spec/meta-user/recipes-modules/axis-fifo/files/axis-fifo.c:892-990 | the chain of tests does what the chosen bit calls for and clears it |
| AxisFifoIrq.FifoInterrupts.HandleOne | project-spec/meta-user/recipes-modules/axis-fifo/files/axis-fifo.c:892-990 | one turn: the wake-ups, polls and resets that the chosen bit calls for, bit by bit, and then the one write that clears it |
| AxisFifoIrq.FifoInterrupts.Irq | project-spec/meta-user/recipes-modules/axis-fifo/files/axis-fifo.c:882-994 | every pending interrupt is handled once, in the order of priority; each wake-up, poll and reset occurs if and only if a bit that calls for it was pending; nothing enabled is left pending and no disabled bit is lost |
| DmaAllocations.AcceptsWithin | project-spec/meta-user/recipes-modules/xilinx-axidma/files/axidma_chrdev.c:64-69 | a request that does not wrap is accepted by exactly the buffers it lies within |
| DmaAllocations.TranslatesWithin | project-spec/meta-user/recipes-modules/xilinx-axidma/files/axidma_chrdev.c:73-108 | a request of at least one byte translates if and only if one live buffer contains it, at the same offset |
| DmaAllocations.TranslatesApart | project-spec/meta-user/recipes-modules/xilinx-axidma/files/axidma_chrdev.c:73-108 | disjoint requests get disjoint bus ranges |
| DmaAllocations.WrappedRequestIsAccepted | project-spec/meta-user/recipes-modules/xilinx-axidma/files/axidma_chrdev.c:64-69 | a request whose end wraps around is taken for one that ends inside the buffer |
| DmaAllocations.ExactIffNotWrapped | project-spec/meta-user/recipes-modules/xilinx-axidma/files/axidma_chrdev.c:64-108 | the lookup is exact for every list of buffers if and only if the request does not wrap |
| DmaAllocations.MappingKeeps | project-spec/meta-user/recipes-modules/xilinx-axidma/files/axidma_chrdev.c:315-317 | adding a buffer at the head keeps the ranges disjoint |
| DmaAllocations.ClosingKeeps | project-spec/meta-user/recipes-modules/xilinx-axidma/files/axidma_chrdev.c:214-216 | removing a buffer keeps them disjoint and takes it off the list |
| DmaAllocations.Device.Mmap | project-spec/meta-user/recipes-modules/xilinx-axidma/files/axidma_chrdev.c:253-327 | the list is what the driver holds, on success and on each of the three failure paths |
| DmaAllocations.Device.VmaClose | project-spec/meta-user/recipes-modules/xilinx-axidma/files/axidma_chrdev.c:205-219 | a close frees its own buffer and record, once |
| DmaAllocations.Device.UservirtToDma | project-spec/meta-user/recipes-modules/xilinx-axidma/files/axidma_chrdev.c:83-93 | the loop over the buffers of the driver computes the lookup |
| ChannelTable.CountsAtMostTable | project-spec/meta-user/recipes-modules/xilinx-axidma/files/axidma_of.c:24-61 | no counter exceeds the channels of its kind; together they miss one for each node without `compatible` |
| ChannelTable.CountsFitIffNamed | project-spec/meta-user/recipes-modules/xilinx-axidma/files/axidma_of.c:33-58 | the counts fit the table, whatever was in memory before, if and only if every node has a `compatible` property |
| ChannelTable.AcceptedIff | project-spec/meta-user/recipes-modules/xilinx-axidma/files/axidma_of.c:24-128 | an entry is accepted if and only if it was found, has a channel argument of 0 or 1, leads to one or two channel nodes of which the one asked for is there with an id, a known or missing `compatible` and a name; otherwise the code of the lookup or -EINVAL |
| ChannelTable.Driver.CheckUniqueIds | project-spec/meta-user/recipes-modules/xilinx-axidma/files/axidma_of.c:130-151 | accepts exactly the tables with unique ids |
| ChannelTable.Driver.ParseNode | project-spec/meta-user/recipes-modules/xilinx-axidma/files/axidma_of.c:24-128 | one entry is recorded and counted, or refused with -EINVAL: for a missing or wrong channel argument, no or too many channel nodes, no second channel node, no id, an unknown `compatible`, or no name |
| ChannelTable.Driver.ParseNodes | project-spec/meta-user/recipes-modules/xilinx-axidma/files/axidma_of.c:204-270 | returns 0 if and only if the ids are unique and every entry meets these conditions, and then table and counters are filled; otherwise the first refused entry decides the code |
| ChannelTable.Driver.ParseBothChannels | project-spec/meta-user/recipes-bsp/device-tree/files/system-user.dtsi:4-9 | the two channels of a DMA of the board are accepted, recorded and counted |
| ChannelTable.KindsPartition | libaxidma/libaxidma.c:107-128 | the four kinds hold every id as often as the table does |
| ChannelTable.ChannelArrays.Add | libaxidma/libaxidma.c:109-128 | an id goes to the end of the array of its kind |
| ChannelTable.AllocateAll | libaxidma/libaxidma.c:67-105 | fails exactly if one of the five allocations does, and on each of the five failures what was allocated before is freed |
| ChannelTable.PlaceIds | libaxidma/libaxidma.c:107-136 | with the counts of the table every write is in range, every array ends full, and each keeps the order of the table |
| ChannelTable.CategorizeChannels | libaxidma/libaxidma.c:60-140 | without memory for all five arrays -ENOMEM and nothing stays allocated; otherwise each array is full of the ids of its kind in the order of the table |
| ChannelTable.FindChannel | libaxidma/libaxidma.c:240-254 | the first channel with the id, or none |
| ChannelTable.FindInverts | libaxidma/libaxidma.c:240-254 | with unique ids the lookup inverts the table |
| Alignment.AndMask | app/util.h:8-8 | masking off the low k bits subtracts the remainder by 2^k |
| Alignment.AlignedIsLeastIff | app/util.h:7-9 | for every power of two as alignment, the result is the least multiple not below the size if and only if the sum does not wrap around |
| AesFiles.TextSize | app/aes.cpp:177-177 | the size of a file in whole blocks: less than one block above it, unless the sum wraps around |
| AesFiles.TxContentHolds | app/aes.cpp:198-219 | every byte of the transmit buffer: key, then file, then zeros |
| AesFiles.ToBlockIsLittleEndian | app/aes.cpp:198-219 | the word on the 128-bit stream is the sixteen bytes in memory as a little-endian number |
| AesFiles.ToBlockReverses | app/aes.cpp:198-219 | in the byte order of section 3.4 of FIPS 197 a block of a file is therefore reversed |
| AesFiles.UnblocksOfBlocks | app/aes.cpp:179-219 | cutting into blocks loses nothing |
| AesFiles.FileRoundTrip | app/aes.cpp:177-219 | encrypting a file of any length up to 2^32 - 16 and decrypting the result under the same key gives the file followed by zeros up to the aligned size |
| AesTransfers.BuffersExistIff | app/aes.cpp:177-196 | both buffers can be had, for any outcome of the allocations, if and only if the file is not empty and fits the memory with its key |
| AesTransfers.OutputHoldsIff | app/aes.cpp:177-182 | below half the address space an output buffer is large enough if and only if it holds the whole blocks of the file; one of exactly the file's size is, for a file of whole blocks |
| AesTransfers.HugeOutputIsRefused | app/aes.cpp:181-182 | an output buffer of half the address space or more is refused, its size being taken for negative |
| AesTransfers.DmaState.Allocate | app/aes.cpp:184-196 | a buffer that is allocated is listed, with its size |
| AesTransfers.DmaState.AllocateTwo | app/aes.cpp:184-196 | transmit before receive buffer; stops at the first failure, with what was allocated listed |
| AesTransfers.DmaState.AllocateBoth | app/aes.cpp:177-196 | the two buffers for a file: the aligned size with the key, and the aligned size |
| AesTransfers.DmaState.FillTx | app/aes.cpp:198-219 | the transmit buffer holds key, file and zeros |
| AesTransfers.DmaState.CleanUp | app/aes.cpp:245-259 | a failed transfer frees what it allocated, each buffer once and with its own size |
| AesTransfers.DmaState.DoTransfer | app/aes.cpp:160-266 | starts if and only if it was idle, the file has a size and can be read, both buffers are had, the output holds the whole blocks, and the engine starts; then the buffers hold what they have to, otherwise nothing stays live |
| AesTransfers.DmaState.Find | app/aes.cpp:109-120 | the entry of a buffer, or the end of the list |
| AesTransfers.DmaState.DmaCallback | app/aes.cpp:101-158 | the received bytes are handed over unless there is nowhere to put them or writing them throws, the outcome is what the user is told, both buffers are freed once with their own sizes, nothing stays live |
| AesTransfers.DmaState.Destroy | app/aes.cpp:70-74 | every buffer that is still live is freed |

## Left out

- CipherPath.CipherStream: a key request while a block is in the sink (the S1 abort path) and a FIFO reset while results are pending are excluded by `Allowed`; after the first of these no result ever comes.
- DecipherPath.DecipherStream: the same two exclusions, except that keys may be requested in S2, where the request is dropped (`DecipherSink.RequestActsIff`) and the beat meant as a key counts as a block; for blocks captured before the first key the statement is about what the key buffer powered up with.
- AxisFifoDriver.CopyToUser: a fault comes after every byte before it has been copied; the kernel may stop earlier.
- AxisFifoDriver.AxisFifo.Write: assumes the transmit FIFO is shallow enough for byte counts to stay within 32 bits.
- AesTransfers.DmaState.DoTransfer: assumes that no mapping larger than the memory of the board succeeds; a request made while a transfer is under way is refused but clears the busy flag, and runs that go on after that are not described.
- DmaAllocations.Device.UservirtToDma: the second loop, over external buffers, is not modelled.
- CipherFeed.EncryptsFileIff: starts from a state that awaits a key with nothing pending; where TREADY is low while a key request meets a beat already on offer, `CipherSink.InBalanceAlongIff` covers the sink alone.
- The `default` branches of the two-bit state machines: the state registers are enumerations of the states that can occur.
- Values of `x`: registers start with any value, and undefined reads return any value, but both are values; `#1` delays.
- Different clocks for the AXI interfaces, and the internal latency of the FIFO generator.
- The AXI-Lite register file: its control pulse and configuration bit are inputs.
- How the DMA engine and the stream interconnect order bytes on the 128-bit bus: byte k is taken to travel on bits 8k+7 to 8k.
- The registers of the FIFO core are modelled from what the driver relies on; its documentation is not part of this model.
- Waiting, wake-ups, spin locks, mutexes and signals: the outcome of a wait is a parameter, and every call runs alone.
- External DMA buffers, VDMA and video transfers, device-tree probing beyond the channel nodes, sysfs and the ioctl switches.
- `adau1761.cpp`, `I2S_slave`, the terminal UI, the player threads and the pipes: what remains of them is plumbing.
