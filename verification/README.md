# Verification of the misc.tools components

A Dafny model of six components of the repository and proofs about them:

- **CRC engines** (`crc32.intel/crc32.c`, `crc32.intel/cpu_fi.c`). `BitSerial.dfy`
  defines the CRC register one bit at a time. All ten lookup tables are
  transcribed entry by entry (`CrcTables.dfy`) and shown to hold what shifting
  their index 1 to 8 bytes leaves (`CrcTableMeaning.dfy`). The table loops, the
  slicing-by-8 loop on both byte orders and the loop over the CRC32 instruction
  all compute that register (`CrcWords.dfy`, `CrcSoftware.dfy`,
  `CrcHardware.dfy`). `CrcTheorems.dfy` has what follows for whole messages.
  The polynomials are those of section 8 of RFC 1952 and section 12.1 of
  RFC 3720, reflected.
- **Debug-sync monitor** (`debugsync/debugsync.c`). `DebugSync.dfy` gives every
  mutex-held segment as a function of the shared state, `DebugSyncMonitor.dfy`
  the same code on a table updated in place, `DebugSyncProtocol.dfy` the state
  machine of any number of threads with its invariant, `DebugSyncAnswers.dfy`
  what each call answers in every reachable state, `DebugSyncTheorems.dfy` the
  results about runs. A thread asleep may always wake up spuriously.
- **Slot list** (`fdwatch/xvdat.c`): `Xvlst.dfy`.
- **Base64 codec** (`base64/b64.c`): `Base64.dfy` (the encoding of section 4 of
  RFC 4648 and its round trips), `Base64Codec.dfy` (tables, loops, buffers).
- **Vectored write and background sync** (`fdwatch/fdio.c`, `wal/wbuft.c`):
  `VectoredWrite.dfy` against a script of arbitrary kernel answers,
  `SyncMailbox.dfy` as a state machine of client and worker.
- **Bounded queue** (`queue/queue.c`): `PointerQueue.dfy`.

How to read it. In the CRC files `Xor`, `Half`, `Odd` and the like name single
machine operations, so that proofs can hide them with `hide` and reason about
an algebra. `Crc32cOf` and `Crc32Of` are the values that the routines are proved
to return; results about messages are stated on them. Both `Crc32c` and
`Crc32cHw` return `Crc32cOf`, which is the equality of hardware and software
form. In debug sync a *section* is one call of `ds_wait` counted in `nblocked`.
It is finished when its `ds_unblock` has lowered the count, lost when its
`ds_wait` has returned -1 or its `ds_unblock` has not lowered the count, and live
until then; a *credit* is a live section whose `ds_wait` has returned 0. A *hold*
is a `ds_exec` that has gone to sleep. The calling discipline is that a thread
whose `ds_wait` was counted and returned 0 calls `ds_unblock` once, with the same
name, whatever that returns; `ZeroMeansCounted` says when a 0 means counted, and
`UnowedUnblock` what a call outside the discipline does. A call whose unlocked
test finds the framework locally inactive is a step of its own, which returns 0;
a locked part may run at any time, also after the framework has become inactive.

Findings, each with its exact condition:

- `acquire` keeps names distinct if and only if the name fits in 32 characters,
  or is already there, or the table is full, or its truncation is not there
  (`AcquireKeepsNamesDistinct`, `LongNameDuplicates`).
- A held `ds_exec` can return 0 although nothing drained
  (`ReenabledHolderReturnsUndrained`). It returns 0 only after a step that lowered
  its point, and at that instant the sections registered before it have all
  unblocked if and only if the step was not another `ds_exec` that found the point
  disabled (`HoldRelease`, `LoweredIffDrained`). Disabling and enabling a point
  while it is held does no harm by itself.
- A section can be lost, and then the count of its point is never 0 again
  (`StuckNeverDrains`). That happens if and only if its point is disabled when
  `ds_wait` returns, or its `ds_unblock` finds the framework inactive, whatever it
  returns, or its name has more than 32 characters (`WhatLoses`). Two runs end with
  a `ds_exec` asleep that nobody will ever release (`LongNameStrandsHolder`,
  `SkippedUnblockStrandsHolder`). In every run some section can still make progress
  for a sleeping `ds_exec` if and only if the count exceeds the number of lost
  sections (`DeadlockCondition`), and a hold on a point with a lost section ends
  with 0 only if some `ds_exec` lowers the disabled point
  (`StuckHoldNeedsLowering`).
- A `ds_wait` that returns 0 was counted if and only if its unlocked test found
  the framework active or activation global (`ZeroMeansCounted`). After one that
  was not, `ds_unblock` can fire the assertion (`SkippedWaitMeetsAssertion`): in
  every reachable state it does so if and only if it finds a point without live
  and lost sections, and else takes away what another section was counted for
  (`UnowedUnblock`).
- The decoder accepts byte 255 as value 0, because the fill loop of the decoding
  table stops one short (`AcceptedCharacters`, `InitDtable`), and it accepts
  strings that no encoder produces; re-encoding gives back the input exactly for
  the canonical ones (`ReverseRoundTrip`).
- `nwritev` can return 0 although bytes were written (`ReportsNothing`). A result
  other than -1 is the number of bytes written if and only if all were written,
  or none, or `errno` was 0 when the kernel accepted nothing (`Nwritev`).

## Model

| member | source | states |
|---|---|---|
| BitSerial.RegisterLinear | crc32.intel/crc32.c:194-204 | the register is GF(2)-linear: the register of the xor of two seeds and two equally long messages is the xor of their registers |
| BitSerial.RegisterAppend | crc32.intel/crc32.c:194-204 | a message may be cut anywhere and its pieces processed in turn |
| CrcTableMeaning.Crc32TableEntry | crc32.intel/crc32.c:28-34 | each entry of the CRC-32 table is the result of eight shift/xor operations on its index |
| CrcTableMeaning.Crc32cTableEntry | crc32.intel/crc32.c:127-192 | the same for `crc32c_table` and the CRC32C polynomial |
| CrcTableMeaning.O32Entry | crc32.intel/crc32.c:233-267 | the same for the first slicing table |
| CrcSoftware.SliceEntries | crc32.intel/crc32.c:233-659 | slicing table k holds its index shifted by k+1 bytes, for all eight tables |
| CrcSoftware.SliceRecurrence | crc32.intel/crc32.c:289-659 | each slicing table is the previous one pushed through the one-byte table |
| CrcSoftware.Crc32 | crc32.intel/crc32.c:94-104 | `crc32` returns the complemented bit-serial register preset to all ones, for every buffer and size |
| CrcSoftware.SingletableCrc32c | crc32.intel/crc32.c:194-204 | the one-table loop returns the bit-serial register |
| CrcSoftware.SliceRound | crc32.intel/crc32.c:683-716 | one slicing round feeds exactly eight bytes in order, on the big-endian and the little-endian branch |
| CrcSoftware.Crc32cSb8 | crc32.intel/crc32.c:666-721 | prologue, slicing rounds and tail cover each byte once and give the bit-serial register; no subtraction wraps when the prologue is not longer than the buffer |
| CrcSoftware.MultitableCrc32c | crc32.intel/crc32.c:723-735 | the same for every address of the buffer |
| CrcSoftware.Crc32c | crc32.intel/crc32.c:737-747 | `crc32c` is the bit-serial register for every seed, buffer, length below 2^32, address and byte order; the length guard makes the prologue fit |
| CrcHardware.InstructionFeeds | crc32.intel/cpu_fi.c:32-41 | the instruction, defined as dividing out all bits of the loaded operand, lowest first, feeds exactly the operand's bytes |
| CrcHardware.Crc32cHw | crc32.intel/cpu_fi.c:24-44 | the word-then-byte loop returns the same value as `crc32c`, with 8-byte and with 4-byte words |
| CrcTheorems.BurstDetected | crc32.intel/crc32.c:94-104 | two different messages whose bits differ only within 32 consecutive bits have different `crc32` and different `crc32c` |
| CrcTheorems.BurstBits | crc32.intel/crc32.c:194-204 | the bit-level form, for every polynomial with its top bit set and any surroundings |
| CrcTheorems.BurstOf33 | crc32.intel/crc32.c:194-204 | of two different 33-bit strings the register misses exactly those that differ by the generator polynomial |
| CrcTheorems.Streaming | crc32.intel/crc32.c:737-747 | `crc32c` of a concatenation is `crc32c` of the tail seeded with `crc32c` of the head |
| CrcTheorems.Linearity | crc32.intel/crc32.c:737-747 | `crc32c` is linear over GF(2) in seed and message |
| CrcTheorems.CombineCrc32 | crc32.intel/crc32.c:94-104 | the `crc32` of nothing is 0, and that of a concatenation is the first part's shifted by the second's length, added to the second's: preset and complement cancel |
| CrcTheorems.CombineCrc32c | crc32.intel/crc32.c:737-747 | `crc32c` of nothing is the seed, and of a concatenation the first part's shifted by the second's length, added to the second's with seed 0 |
| CrcTheorems.CheckValues | crc32.intel/crc32.c:94-204 | the check values of both checksums on the nine digits: 0xCBF43926, and 0xE3069283 with preset and complement |
| CrcTheorems.ResidueCrc32c | crc32.intel/crc32.c:737-747 | a message followed by its `crc32c` in little-endian order has `crc32c` zero, for every seed |
| CrcTheorems.ResidueCrc32 | crc32.intel/crc32.c:94-104 | a message followed by its `crc32` has one fixed `crc32`, 0x2144DF1C |
| DebugSync.AcquireKeepsNamesDistinct | debugsync/debugsync.c:127-194 | exact condition under which creation keeps the names in the table distinct |
| DebugSync.LongNameDuplicates | debugsync/debugsync.c:135-171 | a name of more than 32 characters acquired twice is stored twice |
| DebugSyncMonitor.Monitor.Find | debugsync/debugsync.c:161-172 | `look_up` returns the first point with the name, or -1 |
| DebugSyncMonitor.Monitor.CreateNew | debugsync/debugsync.c:127-152 | appends an enabled, lowered point with count 0 under the stored name, or fails when the table is full |
| DebugSyncMonitor.Monitor.AcquirePoint | debugsync/debugsync.c:127-194 | `acquire` finds or appends a point, and fails only when the table is full |
| DebugSyncMonitor.Monitor.DisablePoints | debugsync/debugsync.c:103-118 | all points become disabled, nothing else changes, and a broadcast is due exactly when some enabled point had a positive count |
| DebugSyncMonitor.Monitor.DsDisableAll | debugsync/debugsync.c:221-230 | the locked part of `ds_disable_all` is the segment `DisableAll` |
| DebugSyncMonitor.Monitor.DsActivate | debugsync/debugsync.c:234-246 | the locked path of `ds_activate` is the segment `Activate` |
| DebugSyncMonitor.Monitor.DsEnable | debugsync/debugsync.c:260-295 | `ds_enable` is the segment `Enable` |
| DebugSyncMonitor.Monitor.DsExec | debugsync/debugsync.c:311-346 | `ds_exec` up to its first wait or its return is the segment `ExecEnter` |
| DebugSyncMonitor.Monitor.DsExecWoken | debugsync/debugsync.c:345-363 | `ds_exec` after a wake-up is the segment `ExecWake` |
| DebugSyncMonitor.Monitor.DsWait | debugsync/debugsync.c:384-416 | `ds_wait` up to its first wait or its return is the segment `WaitEnter` |
| DebugSyncMonitor.Monitor.DsWaitWoken | debugsync/debugsync.c:401-414 | `ds_wait` after a wake-up is the segment `WaitLoop` |
| DebugSyncMonitor.Monitor.DsUnblock | debugsync/debugsync.c:437-464 | `ds_unblock` is the segment `Unblock`, its assertion included |
| DebugSyncProtocol.SegmentEvolves | debugsync/debugsync.c:103-118 | every segment that makes the sleeping condition of a point in use false broadcasts, and a raised point stays raised until it is disabled or its count reaches 0 |
| DebugSyncProtocol.UnblockSegment | debugsync/debugsync.c:437-464 | an owed locked `ds_unblock` finds a positive count; it lowers the count of its own point and of no other exactly when the framework is active and the name fits |
| DebugSyncProtocol.NextCount | debugsync/debugsync.c:393-460 | every step changes the count of a point by exactly as much as the number of its live and lost sections |
| DebugSyncProtocol.RunKeepsSections | debugsync/debugsync.c:393-460 | along a run no section is forgotten: what is live, lost or finished stays one of these, and lost and finished sections stay so |
| DebugSyncProtocol.NextInv | debugsync/debugsync.c:260-469 | every step of every thread keeps the invariant |
| DebugSyncProtocol.RunInv | debugsync/debugsync.c:202-217 | the invariant holds in every reachable state |
| DebugSyncAnswers.AcquireAnswers | debugsync/debugsync.c:127-194 | gives the first point of the name, else appends one that is enabled, lowered, without sections and named by at most the first 32 characters; fails exactly when the name is not there and 256 points are |
| DebugSyncAnswers.ExecAnswers | debugsync/debugsync.c:298-359 | in every reachable state `ds_exec` returns 0 at once if and only if its point is available without sections, sleeps if and only if it has sections and is enabled and not raised, and returns -1 in all other cases; what it changes is determined |
| DebugSyncAnswers.ExecWakeAnswers | debugsync/debugsync.c:345-369 | woken up it sleeps on while the point is raised and enabled, returns 0 if and only if it is enabled and lowered, and leaves it lowered |
| DebugSyncAnswers.WaitAnswers | debugsync/debugsync.c:372-416 | `ds_wait` counts itself if and only if the point is available, and sleeps, returns 0 or returns -1 as the point is enabled and lowered, enabled and raised, or disabled |
| DebugSyncAnswers.WaitWakeAnswers | debugsync/debugsync.c:401-414 | the same after a wake-up, with nothing changed |
| DebugSyncAnswers.UnblockAnswers | debugsync/debugsync.c:437-469 | an owed `ds_unblock` returns 0 and takes one section off exactly when the framework is active and the name fits in 32 characters; the last one lowers the point and broadcasts |
| DebugSyncAnswers.EnableAnswers | debugsync/debugsync.c:260-295 | `ds_enable` sets exactly the first point of the given name, returns 0 if and only if the framework is active and there is one, and broadcasts if and only if it disables a point with sections |
| DebugSyncAnswers.EnableByName | debugsync/debugsync.c:278-286 | with distinct names a point is changed if and only if it has the given name |
| DebugSyncAnswers.DisableAnswers | debugsync/debugsync.c:221-246 | `ds_disable_all` and `ds_activate` disable all points of an active framework and nothing otherwise, and broadcast if and only if an enabled point had sections |
| DebugSyncAnswers.UnlockedAnswers | debugsync/debugsync.c:84-87 | a call is skipped with 0 only while the framework is inactive and activation is not global, and leaves the table as it is |
| DebugSyncTheorems.NoLostWakeup | debugsync/debugsync.c:334-402 | in every reachable state a thread asleep that no broadcast has reached still has a true sleeping condition |
| DebugSyncTheorems.Accounting | debugsync/debugsync.c:393-460 | in every reachable state the count of a point is exactly its waiters plus its credits plus its lost sections, where a credit ends with the one call of `ds_unblock`; a raised point has a positive count, there are at most 256 points, and no assertion fails |
| DebugSyncTheorems.StuckNeverDrains | debugsync/debugsync.c:393-461 | once a section is lost, or registered under a name of more than 32 characters, the count of its point is never 0 again |
| DebugSyncTheorems.WhatLoses | debugsync/debugsync.c:393-461 | a step loses a section exactly when `ds_wait` returns on a disabled point, or `ds_unblock` is skipped, finds the framework inactive or cannot find the name |
| DebugSyncTheorems.ZeroMeansCounted | debugsync/debugsync.c:372-416 | a `ds_wait` that returns 0 was counted and owes its unblock if and only if the framework was active or activation global; otherwise it changed nothing |
| DebugSyncTheorems.UnowedUnblock | debugsync/debugsync.c:437-461 | an unblock that no counted wait owes fires the assertion if and only if the point has no live and no lost section, and otherwise leaves the count one below the sections |
| DebugSyncTheorems.SkippedWaitMeetsAssertion | debugsync/debugsync.c:372-450 | a run in which a skipped `ds_wait` returns 0 and the `ds_unblock` that follows it fires the assertion |
| DebugSyncTheorems.LiveIsWaitersAndCredits | debugsync/debugsync.c:393-460 | the live sections of a point are its waiting threads plus its outstanding credits |
| DebugSyncTheorems.CalmAccounting | debugsync/debugsync.c:393-460 | without disabling, and with names of at most 32 characters given to `ds_wait`, nothing is lost, so the count is exactly waiters plus credits |
| DebugSyncTheorems.DeadlockCondition | debugsync/debugsync.c:334-461 | in every run a `ds_exec` asleep unsignalled has a signalled waiter or a section that has not yet called its one unblock if and only if the count of its point exceeds the lost sections |
| DebugSyncTheorems.DeadlockFreedom | debugsync/debugsync.c:334-461 | without disabling, and with names of at most 32 characters given to `ds_wait`, such a waiter or section always exists |
| DebugSyncTheorems.LongNameStrandsHolder | debugsync/debugsync.c:127-152 | for every name of more than 32 characters, a run without disabling that ends with a `ds_exec` asleep unsignalled and no live section |
| DebugSyncTheorems.SkippedUnblockStrandsHolder | debugsync/debugsync.c:428-431 | a run in which an unblock skipped between deactivation and activation returns 0 and leaves a `ds_exec` asleep unsignalled with no live section |
| DebugSyncTheorems.HeldExecCanReturn | debugsync/debugsync.c:334-461 | in every run the sections of a point none of whose sections is lost can bring a held `ds_exec` to return 0 without any spurious wake-up, each by its one unblock, when their names fit and their threads are not inside another call |
| DebugSyncTheorems.NotPassedOver | debugsync/debugsync.c:393-461 | while a thread is inside `ds_wait` and the point is not disabled, a raised point stays raised |
| DebugSyncTheorems.RaisedWaiterLeaves | debugsync/debugsync.c:401-414 | so the thread leaves `ds_wait` with 0 and owes its unblock |
| DebugSyncTheorems.WhoLowers | debugsync/debugsync.c:320-461 | a raised point is lowered either with its count at 0 or by a `ds_exec` that finds it disabled |
| DebugSyncTheorems.LoweredIffDrained | debugsync/debugsync.c:320-461 | when a raised point is lowered, its count is 0 and all sections registered before have unblocked if and only if it was not a `ds_exec` on the disabled point that lowered it |
| DebugSyncTheorems.HoldRelease | debugsync/debugsync.c:320-461 | in every run a held `ds_exec` that returns 0 was released by a step that lowered its point, and the sections registered at the raise had unblocked by then if and only if that step was not a `ds_exec` on the disabled point |
| DebugSyncTheorems.DrainedOrLowered | debugsync/debugsync.c:320-461 | in every run a held `ds_exec` that returns 0 has seen an instant at which its point had drained, or a `ds_exec` that lowered the disabled point |
| DebugSyncTheorems.DrainGuarantee | debugsync/debugsync.c:320-359 | so if the point stays enabled, `ds_exec` returns 0 only if at some instant since the raise the count was 0 and every section registered at the raise had unblocked |
| DebugSyncTheorems.StuckHoldNeedsLowering | debugsync/debugsync.c:320-359 | on a point with a lost section, or one with a name too long, a held `ds_exec` returns 0 only after some `ds_exec` lowered the disabled point |
| DebugSyncTheorems.ReenabledHolderReturnsUndrained | debugsync/debugsync.c:345-359 | a run in which a `ds_exec` lowers the disabled point, the point is enabled again and the holder returns 0 undrained |
| DebugSyncTheorems.NamesDistinct | debugsync/debugsync.c:127-194 | in every run whose names fit in 32 characters the table's names stay pairwise distinct |
| Xvlst.RoundedIsLeast | fdwatch/xvdat.c:25 | growth rounds up to the least sufficient multiple of the growth block |
| Xvlst.CountIsCardinality | fdwatch/xvdat.c:121-144 | the element count is the number of handles that are out |
| Xvlst.AddHandsOutLeast | fdwatch/xvdat.c:98-119 | whatever the growth, the least free slot is the least number not handed out |
| Xvlst.GrowthKeepsHandles | fdwatch/xvdat.c:65-72 | growth neither hands out nor takes back a handle |
| Xvlst.MarkIsGreatest | fdwatch/xvdat.c:104-105 | the high-water mark of a run is the greatest of its initial value and the handles handed out |
| Xvlst.HandlesAreExclusive | fdwatch/xvdat.c:86-147 | a run in which every addition hands out the least number not held hands out no handle twice without a deletion in between |
| Xvlst.ServeAll | fdwatch/xvdat.c:46-147 | any script of additions, deletions and reservations on an actual list makes such a run with the list's taken slots as its handles; `last` is the high-water mark throughout, and a deletion answers ERANGE if and only if its index exceeds it, and else EALREADY if and only if the handle is not out |
| Xvlst.SlotList.ReserveData | fdwatch/xvdat.c:14-35 | the data grows to the rounded size and keeps its contents, or stays when large enough |
| Xvlst.SlotList.Reserve | fdwatch/xvdat.c:46-75 | the list grows only when needed, new slots are free, old slots keep state and data, all fields agree |
| Xvlst.SlotList.Expand | fdwatch/xvdat.c:78-83 | the list has room for the given number of further elements |
| Xvlst.SlotList.TakeAvail | fdwatch/xvdat.c:101-123 | taking the cached slot leaves the cached index at the least free slot or at -1 when full, and `last` at the greater of its old value and the slot |
| Xvlst.SlotList.Add | fdwatch/xvdat.c:86-124 | takes the least free slot, growing exactly when full; the assertions hold and the cached index, mark and count agree afterwards |
| Xvlst.SlotList.Del | fdwatch/xvdat.c:127-147 | frees a taken slot, with the two error returns leaving everything unchanged |
| Base64.AcceptedCharacters | base64/b64.c:64-98 | the decoder accepts exactly the alphabet, the pad and code 255 |
| Base64.CodesAreAlphabet | base64/b64.c:38-98 | the character for a value is the one at that place of the alphabet written out, and the decoder's value of it is that place |
| Base64.InAlphabetMeans | base64/b64.c:64-98 | the characters with a value are exactly those of the written alphabet |
| Base64.GroupSpelled | base64/b64.c:128-150 | four output characters spell the digits in base 64 of the input bytes read as one number, with pads where there are no input bits |
| Base64.GroupRead | base64/b64.c:226-245 | the decoded bytes are those of the number that the four digits form, as many as the pads leave |
| Base64.Refusals | base64/b64.c:210-249 | the decoder refuses for the length if and only if it is no multiple of 4, and else for a character outside alphabet, pad and 255 |
| Base64.EncodeLength | base64/b64.c:21-24 | four characters for every three bytes begun |
| Base64.RoundTrip | base64/b64.c:112-249 | decoding an encoding gives back the encoded bytes, for every byte string |
| Base64.EncodingIsCString | base64/b64.c:152-155 | an encoding contains no terminator |
| Base64.EncodingsAreCanonical | base64/b64.c:143-150 | every encoding is canonical in the sense of sections 3.5 and 4 of RFC 4648 |
| Base64.ReverseRoundTrip | base64/b64.c:210-249 | decoding then encoding gives back the input if and only if it is canonical; the decoded length is three quarters less the pads |
| Base64Codec.EncodedFits | base64/b64.c:24 | a buffer of the macro's size holds the whole encoding and its terminator, with exactly one group to spare when no byte is left over |
| Base64Codec.DecodedFits | base64/b64.c:210-249 | the decoding macro leaves room for exactly one more group and the terminator |
| Base64Codec.Codec.InitEtable | base64/b64.c:38-60 | the loops fill the encoding table with the RFC's alphabet |
| Base64Codec.Codec.InitDtable | base64/b64.c:64-98 | the loops fill the decoding table with the inverse, and leave entry 255 at 0 |
| Base64Codec.Codec.B64Encode | base64/b64.c:112-158 | writes exactly the prefix of the encoding that fits, a terminator, and nothing else |
| Base64Codec.Codec.B64Decode | base64/b64.c:210-249 | rejects by length, buffer size and character as specified, else writes exactly the decoded bytes and a terminator; the buffer guard never cuts |
| Base64Codec.Codec.DecodeLoop | base64/b64.c:226-245 | the loop consumes the whole input unless a character is bad, and its guard on the buffer never stops it |
| Base64Codec.Codec.EncodeThenDecode | base64/b64.c:112-249 | through buffers of the sizes of the two macros a C string comes back unchanged |
| Base64Codec.Codec.DecodeThenEncode | base64/b64.c:112-249 | through buffers of those sizes a canonical encoding of bytes other than 0 comes back unchanged, and the decoder reports three quarters of its length less the pads |
| VectoredWrite.AdvanceDrops | fdwatch/fdio.c:93-100 | advancing the vector drops exactly the accepted bytes |
| VectoredWrite.AdvanceInPlace | fdwatch/fdio.c:93-100 | the loop leaves the advanced vector in the array |
| VectoredWrite.StopsMeans | fdwatch/fdio.c:69-91 | an answer ends the loop if and only if it sends nothing and is not an interruption |
| VectoredWrite.Nwritev | fdwatch/fdio.c:60-114 | for every sequence of kernel answers: exactly the answers up to the first that stops the loop are used, the total is what they took, the bytes they took are a prefix of the original ones and the vector holds the others; a failing call gives -1 and reports exactly what is missing, one that accepts nothing gives the total or, if `errno` is not 0, 0; a result other than -1 is the total if and only if nothing is left, nothing was written, or `errno` was 0 |
| VectoredWrite.ReportsNothing | fdwatch/fdio.c:67-113 | one byte is written, the kernel then accepts nothing while `errno` has an old value, and the result is 0 |
| VectoredWrite.Nwrite | fdwatch/fdio.c:24-57 | the same for one buffer: the answers used, the total and the bytes taken are those of the kernel up to the first answer that stops the loop, whose kind decides the result |
| VectoredWrite.BuildChunks | wal/wbuft.c:244-268 | the chunks are non-empty, all but the last equally long, and together are the buffer |
| SyncMailbox.SyncState.ThreadRun | wal/wbuft.c:162-179 | the worker's loops up to the next wait or exit are the segment `WorkerSegment` |
| SyncMailbox.SyncState.Toggle | wal/wbuft.c:115-117 | the slot holds exactly the new request |
| SyncMailbox.StepAnswers | wal/wbuft.c:103-179 | requests are issued with the arguments given; the worker performs the slot's request exactly when `fd_sync` succeeds, clears it exactly after a sync, and exits exactly after a quit or a failure |
| SyncMailbox.Conservation | wal/wbuft.c:103-179 | in every run, failing syncs included, requests issued are syncs performed plus requests overwritten plus the pending one, in order; the last one is pending or was performed last |
| SyncMailbox.FailureIsFinal | wal/wbuft.c:165-172 | after a failing sync nothing is performed any more and the last request stays undone |
| SyncMailbox.NoLostRequest | wal/wbuft.c:119-165 | the worker is never asleep unsignalled with a request in the slot |
| SyncMailbox.QuitLeadsToExit | wal/wbuft.c:208-229 | the quit request is never overwritten and the worker exits when it next runs |
| PointerQueue.Queue.constructor | queue/queue.c:57-76 | a new queue is empty |
| PointerQueue.Queue.Get | queue/queue.c:112-137 | removes the oldest item, or fails exactly when empty |
| PointerQueue.Queue.Put | queue/queue.c:141-164 | appends, or fails exactly when full |
| PointerQueue.Queue.Count | queue/queue.c:81-85 | the number of queued items |
| PointerQueue.Queue.IsEmpty | queue/queue.c:103-108 | true exactly when nothing is queued |
| PointerQueue.Queue.Dump | queue/queue.c:168-184 | visits the items in queue order |
| PointerQueue.Fifo | queue/queue.c:112-164 | over every run the accepted values are the values got followed by those queued |
| PointerQueue.ServeAll | queue/queue.c:57-164 | any script of puts and gets on an actual new queue makes such a run with its contents, so values come out in the order in which they were accepted |

## Left out

- Unlocked reads and writes of the activation word: the test of `local_inactive` is one atomic read and the unlocked path of `ds_activate` one atomic step that may happen at any time; interleavings inside one read-modify-write of the word are not modelled, and skipped calls of `ds_enable` and `ds_disable_all`, which change nothing, are not steps.
- Failures of pthread calls and of memory allocation, and `ds_init` or `ds_destroy` concurrent with other calls.
- Trace output, `errno` beyond the values that decide a branch, and diagnostics on stderr.
- Wrap-around of `nblocked`, which would need 2^64 registered sections.
- Xvlst.SlotList.Reserve: sizes whose rounding would exceed `ssize_t` are excluded; the byte size of a block is not modelled.
- Xvlst.SlotList.Add: requires a list that has been reserved once, which its assertion at line 93 demands.
- Xvlst.SlotList.Del: not for slot 0 of a list never reserved, where the source reads through a null pointer.
- Xvlst.ServeAll: a list that has been reserved once, and sizes within `ssize_t` in every request of the script.
- Base64Codec.Codec.DecodeThenEncode: not for decoded bytes that contain 0, at which the encoder stops reading.
- VectoredWrite.Nwritev: the kernel's answers are a finite script, and a failing call sets `errno` to something other than 0; when the script runs out the call is still pending.
- `new_b64_decoded`, which calls the encoder, and `new_b64_encoded`, a wrapper.
- The rest of `fdwatch`, `wal` and `crc32.intel` (event loops, sendfile, option parsing, CPUID), `debugsync/debugsync_dyn.c`, the coroutine code, sorting, profiling and time tests: input/output plumbing, unfinished variants, and straight-line wrappers with no law of their own.
