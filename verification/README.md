# YMODEM batch transfer, modelled in Dafny

A model of the YMODEM core of the Dinamiet/YModem C library: the receiver
(`src/receive.c`), the transmitter (`src/transmit.c`), the older transmitter with the
offset-based read function (`src/ymodem_transmit.c`), and the constants and types they
share (`src/ymodem_common.h`, `include/ymodem.h`).

A YMODEM batch carries one or more files, each as a header block (file name, NUL, decimal
size) followed by 128- or 1024-byte data blocks. Every block is framed by a control byte
(SOH or STX), a block number, its complement and a CRC-16 sent high byte first. An EOT
closes each file, and an all-zero header closes the batch. The receiver drives the
exchange with C, ACK and NAK. Either side may send CAN to cancel.

## How the model is built

- `common.dfy` (module `Common`) holds what the three C files share:
  - the control bytes and limits of `ymodem_common.h`;
  - the `YModemReturn` codes;
  - the CRC;
  - the small C-library pieces the code relies on: `MIN`, `memset`/`memcpy` into a buffer,
    `strcpy`/`strlen`, `atoi`, the `(int)` conversion and `"%d"`.
- `link.dfy` (module `Link`) models the transport as the class `Modem`. It holds the
  queue of bytes that have arrived and not been read, and a log of everything written.
  The millisecond clock is abstracted away: a read that finds the queue empty stands for a
  read that reaches its deadline.
- `codec.dfy` (module `Codec`) holds the frame and header formats as functions:
  - `Frame` and `FillHeader`, which give the bytes a sender writes;
  - `ParsePacket` and `ParseFileEnd`, which give what a receiver makes of the queue.

  It also proves the round trips between them.
- `receive.dfy`, `transmit.dfy` and `legacy.dfy` give each state machine two forms:
  - one pass of its `while (state != END)` loop as a function `Step` over a *session*
    (the loop's local variables) and a *world* (the link, the files and the scratch buffer);
  - `Run`, which iterates `Step` until END. It terminates on (bytes queued, retries left,
    state rank).

  The C functions themselves are methods over the `Modem`, the file sinks or sources, and
  the scratch `array`. Each method is proved to do exactly what its step function says.
  Each top-level method (`Receive`, `Transmit`, `LegacyTransmit`) is proved to end where
  `Run` ends.
- `sender.dfy` (module `Sender`) holds the helpers that `transmit.c` and
  `ymodem_transmit.c` both define: `waitStart`, `waitAck`, `sendPacket`, `sendDone` and
  `sendFileEnd`. The two copies are identical up to the CRC routine and the byte-order
  macro `sendPacket` calls, both listed under "## Left out".
- `receive_props.dfy`, `transmit_props.dfy` and `legacy_props.dfy` state what each state
  machine promises, as lemmas about `Step` and `Run`.
- `transfer.dfy` connects the two halves. For a one-file batch, the bytes `transmit.c`
  writes are what `receive.c` accepts, and the receiver's replies are what the transmitter
  waits for.

The CRC routine's source is not part of this model. The CRC is taken to be
CRC-16/XMODEM: polynomial 0x1021, initial value 0, no reflection, no final XOR. The check
value for "123456789" is proved.

Three behaviours of the code are kept as written:
- The block-number check uses `&&`. A frame is turned away only when both the number and
  its complement are wrong.
- The receiver drains the manifest entry's size ceiling, not the size declared in the
  header.
- `transmit.c` reads the next chunk on a retry instead of re-sending the refused one.

## Model

| member | source | states |
|---|---|---|
| Common.Min | src/ymodem_common.h:25 | the MIN macro: the result is at most either argument and is one of them |
| Common.Zeros | src/transmit.c:60 | memset to zero: n bytes, every one 0 |
| Common.Put | src/transmit.c:67-68 | memset/memcpy into the buffer: the new buffer is the old one with the bytes written at the offset and nothing else changed |
| Common.Word | src/receive.c:80 | the received CRC pair read high byte first: its high and low bytes are the two received bytes |
| Common.WordOfBytes | src/transmit.c:53-55 | the CRC split into wire bytes high byte first and joined again gives the CRC back |
| Common.LeadingDigits | src/receive.c:101 | what atoi consumes: the longest run of digits at the start, followed by a non-digit or the end |
| Common.CString | src/receive.c:99 | what strcpy copies: the prefix before the first NUL, which has no NUL and is followed by a NUL or the end |
| Common.AsInt | src/transmit.c:70 | the (int) cast of a size: a value in the int range, equal to the size when the size is below 2^31 |
| Common.DigitsValue | src/transmit.c:70 | reading back the "%d" digits of n gives n |
| Common.AtoiOfFormatD | src/receive.c:101 | atoi of the "%d" text of a size below 2^31, followed by a non-digit, is that size |
| Common.FormatDLength | src/ymodem_transmit.c:61 | "%d" of any int writes at most 11 characters |
| Link.Modem.constructor | include/ymodem.h:26-31 | a link with the given bytes queued and nothing written |
| Link.Modem.Write | include/ymodem.h:29 | modem->Write appends exactly the bytes given to the output and reads nothing |
| Link.Modem.Read | include/ymodem.h:28 | modem->Read copies min(max, queued) bytes to the buffer at the offset, removes them from the queue and changes nothing else |
| Codec.Frame | src/transmit.c:42-56 | the frame is the payload plus 5 bytes, the payload sits at offset 3, and the last two bytes read high byte first are the payload's CRC |
| Codec.HeaderLayout | src/transmit.c:64-72 | a header that fits a small block is the name, a NUL, the size text, then zeros up to 128 bytes |
| Codec.Flushed | src/receive.c:39 | a flush consumes 1024 bytes or everything queued, whichever is less |
| Codec.ParsePacket | src/receive.c:26-90 | a successful reception consumed exactly the block size + 5 bytes, the payload is the bytes at offset 3, the block is 128 or 1024 bytes, and the CRC matches; a success or cancel consumed at least one byte; an empty queue times out at the control-byte read having consumed nothing |
| Codec.ShortFrameTimesOut | src/receive.c:31-78 | an empty queue times out having consumed nothing; a SOH/STX frame times out exactly when the block-number read comes up short, or the block number passes and the payload or CRC read comes up short, and then everything queued is consumed |
| Codec.ParseFileEnd | src/receive.c:123-137 | success iff the first queued byte is EOT, consuming one byte; never a cancel |
| Codec.Crc16CheckValue | src/transmit.c:53 | the assumed CRC gives 0x31C3 for "123456789" |
| Codec.FrameRoundTrip | src/receive.c:26-90 | a frame built by sendPacket is accepted by receivePacket for that block number whatever follows it, returning the payload and consuming the frame exactly |
| Codec.ControlByteDispatch | src/receive.c:36-55 | CAN flushes and cancels; a byte other than SOH/STX flushes and times out (never FAIL); SOH succeeds only with 128 bytes and STX only with 1024 |
| Codec.BlockNumberCheck | src/receive.c:62-66 | both block bytes wrong gives FAIL after a flush; with either one right the frame is handled exactly as if both were right |
| Codec.WrongBlockNumberAccepted | src/receive.c:62 | a frame whose block byte is wrong but whose complement is right is accepted |
| Codec.HeaderRoundTrip | src/receive.c:99-101 | the header sendFileInfo builds gives receiveFileInfo back the name and the size, for a NUL-free name under 32 bytes, a size below 2^31 and a header that fits 128 bytes |
| Codec.CStringOfTerminated | src/receive.c:99 | a NUL-free name followed by a NUL is copied back as that name |
| Codec.EndOfBatchHeader | src/transmit.c:58-62 | the all-zero payload carries the empty name and size 0 |
| Receive.Sinks.constructor | include/ymodem.h:18-24 | one empty file per manifest entry |
| Receive.Sinks.Write | src/receive.c:117 | file->Write appends the bytes to that entry's file only and reports all of them written |
| Receive.FindEntry | src/receive.c:184-199 | the result is the first entry with the header's name and a ceiling at least the declared size; None iff there is none |
| Receive.FileNameStep | src/receive.c:173-219 | one FILENAME pass keeps the loop invariant and makes progress |
| Receive.DataStep | src/receive.c:221-248 | one DATA pass keeps the file count, target and retry bound, never produces FAIL, and makes progress |
| Receive.FileDoneStep | src/receive.c:250-277 | one FILEDONE pass never enters DATA, never produces FAIL, and makes progress |
| Receive.Step | src/receive.c:162-287 | one pass of the loop keeps the invariant (result SUCCESS until END, never FAIL, retries at most 10) and makes progress, so the loop terminates |
| Receive.ReceiveTimeout | src/receive.c:12-24 | succeeds iff all recvLen bytes arrived; exactly min(recvLen, queued) bytes are consumed and stored contiguously from buff[0], and nothing beyond them changes |
| Receive.ReceivePacket | src/receive.c:26-90 | status, block size, bytes consumed and (on success) the buffer's payload are those of ParsePacket |
| Receive.ReceiveBlock | src/receive.c:57-89 | the block-number, payload and CRC reads agree with ParsePacket once the control byte was SOH or STX |
| Receive.ReceivePayload | src/receive.c:68-89 | a short read times out, a CRC mismatch fails after a flush, and a match succeeds with the payload in the buffer |
| Receive.ReceiveFileInfo | src/receive.c:92-105 | on success the name is the payload before its first NUL and the size is the atoi of what follows |
| Receive.ReceiveData | src/receive.c:107-121 | on success min(block size, bytes owed) payload bytes are appended to the target file and the bytes owed drop by exactly that; otherwise files and owed bytes are unchanged |
| Receive.ReceiveFileEnd | src/receive.c:123-137 | agrees with ParseFileEnd: success iff the byte is EOT, otherwise a flush |
| Receive.MatchFile | src/receive.c:184-199 | the manifest scan returns FindEntry's result |
| Receive.FileNameState | src/receive.c:173-219 | the FILENAME case does exactly what FileNameStep says to the link and the session |
| Receive.DataState | src/receive.c:221-248 | the DATA case does exactly what DataStep says to the link, the files and the session |
| Receive.FileDoneState | src/receive.c:250-277 | the FILEDONE case does exactly what FileDoneStep says |
| Receive.Receive | src/receive.c:139-289 | YModem_Receive returns Run's result and leaves the link and the files as Run does |
| ReceiveProperties.StartStepFacts | src/receive.c:166-171 | START resets the block number to 0, writes C, reads nothing and goes to FILENAME |
| ReceiveProperties.FailedReception | src/receive.c:202-213 | a FAIL or TIMEOUT writes NAK, keeps block number and files, and spends a retry (FILENAME goes back to START) or ends with TIMEOUT when none is left |
| ReceiveProperties.AcceptedReception | src/receive.c:176-180 | an accepted packet or EOT writes ACK (plus C for a taken header), advances the block number mod 256 and restores 10 retries |
| ReceiveProperties.HeaderAccepted | src/receive.c:176-180 | an accepted header advances the block number, restores retries and writes ACK or ACK C |
| ReceiveProperties.BlockAccepted | src/receive.c:224-228 | an accepted data block advances the block number, restores retries and writes ACK |
| ReceiveProperties.EndAccepted | src/receive.c:253-257 | an accepted EOT consumes one byte, advances the block number, restores retries and writes ACK |
| ReceiveProperties.CanceledReception | src/receive.c:215-217 | a cancel writes nothing and goes to CANCELED; an EOT wait never sees one |
| ReceiveProperties.HeaderMatch | src/receive.c:182-199 | after an accepted header DATA is entered (with ACK C) iff some entry admits the name and declared size; the first such entry is taken and its ceiling is owed; otherwise the batch ends with SUCCESS after ACK |
| ReceiveProperties.DataDelivery | src/receive.c:114-117 | an accepted block appends min(block size, owed) bytes to the current file and no other, owed drops by that, and FILEDONE follows iff nothing is owed |
| ReceiveProperties.StepConsumes | src/receive.c:162-287 | a pass leaves queued a suffix of what was queued before it |
| ReceiveProperties.StepReplies | src/receive.c:162-287 | a pass only appends to the link, and only C, ACK or NAK |
| ReceiveProperties.StepExtends | src/receive.c:162-287 | a pass only appends to the files' contents, never rewrites them |
| ReceiveProperties.RunNeverFails | src/receive.c:139-289 | a batch never returns FAIL |
| ReceiveProperties.RunConsumes | src/receive.c:139-289 | what is left queued at the end is a suffix of the input |
| ReceiveProperties.RunRepliesOnly | src/receive.c:139-289 | the receiver writes nothing but C, ACK and NAK |
| ReceiveProperties.RunAppends | src/receive.c:139-289 | each file ends as an extension of what it held, and no other file exists |
| ReceiveProperties.SilentSenderFrom | src/receive.c:166-213 | with nothing arriving, START/FILENAME writes C NAK once per retry left plus once and ends with TIMEOUT |
| ReceiveProperties.SilentSender | src/receive.c:155-213 | a fresh receiver with nothing arriving writes 11 C NAK pairs and returns TIMEOUT |
| ReceiveProperties.SilentMidFile | src/receive.c:233-242 | with nothing arriving in DATA or FILEDONE, NAK is written once per retry left plus once and the batch ends with TIMEOUT |
| ReceiveProperties.CancelEndsBatch | src/receive.c:279-282 | a cancel while a header or block is awaited ends with CANCEL and writes nothing |
| ReceiveProperties.CanByteEndsBatch | src/receive.c:38-40 | a CAN where a frame should start flushes the rest and ends with CANCEL |
| ReceiveProperties.EndHeaderStep | src/receive.c:182-200 | the all-zero header is answered with ACK alone and ends the loop when no entry has the empty name |
| ReceiveProperties.EndOfBatch | src/receive.c:176-200 | when no entry has the empty name, the all-zero header ends the run with SUCCESS after one ACK and nothing else |
| ReceiveProperties.EmptyNameCatchesEndOfBatch | src/receive.c:185-196 | an entry with the empty name takes the all-zero header: ACK C and DATA instead of the end of the batch |
| ReceiveProperties.RunFromStart | src/receive.c:166-171 | START writes C and the run continues in FILENAME at block 0 |
| ReceiveProperties.HeaderStep | src/receive.c:173-200 | a header frame naming entry i is answered with ACK C, DATA follows at the next block, and entry i's ceiling is owed |
| ReceiveProperties.RunTakesHeader | src/receive.c:173-200 | the run continues from that DATA state |
| ReceiveProperties.BlockStep | src/receive.c:221-231 | a data frame for the expected block is answered with ACK and its owed part is appended to the current file |
| ReceiveProperties.RunTakesBlock | src/receive.c:221-231 | the run continues in DATA or, when nothing is owed, FILEDONE |
| ReceiveProperties.EotStep | src/receive.c:250-260 | EOT is answered with ACK and START follows |
| ReceiveProperties.RunTakesEot | src/receive.c:250-260 | the run continues from START |
| ReceiveProperties.CloseFileThenBatch | src/receive.c:250-260 | EOT then the all-zero header: ACK C ACK and SUCCESS |
| ReceiveProperties.OneFileUntilEot | src/receive.c:173-231 | a header and one small block are taken with C ACK C ACK and the file holds the block's first ceiling bytes |
| ReceiveProperties.OneFileBatch | src/receive.c:139-289 | a whole one-file batch: SUCCESS, replies C ACK C ACK ACK C ACK, and the file holds the first ceiling bytes of the block (the ceiling, not the declared size) |
| Sender.StartUsed | src/transmit.c:14-26 | waitStart reads up to and including the first C, or everything when there is none |
| Sender.AckPoll | src/transmit.c:28-40 | waitAck skips zero bytes and returns the first non-zero one; 0 iff everything queued was zero |
| Sender.ReadByte | src/transmit.c:21 | modem->Read(&byte, 1) returns the next queued byte and consumes it |
| Sender.WaitStart | src/transmit.c:14-26 | returns true iff a C was queued, consuming through it (or everything) and writing nothing |
| Sender.WaitAck | src/transmit.c:28-40 | returns AckPoll's reply and consumes what AckPoll says |
| Sender.SendPacket | src/transmit.c:42-56 | writes exactly Frame(blockNum, first packetSize bytes of buff) |
| Sender.SendDone | src/transmit.c:58-62 | clears the first 128 bytes and writes the all-zero frame at blockNum |
| Sender.ClearedHeader | src/transmit.c:60 | after the clear, the first 128 bytes are zero |
| Sender.SendFileEnd | src/transmit.c:82-86 | writes a single EOT |
| Transmit.Sources.constructor | include/ymodem.h:18-24 | each list entry's Read starts with the given content |
| Transmit.Sources.Read | src/transmit.c:77 | file->Read gives min(max, what is left) next bytes into the front of buff and removes them from that file only |
| Transmit.StartStep | src/transmit.c:111-123 | one START pass keeps the invariant and makes progress |
| Transmit.FileNameStep | src/transmit.c:125-155 | one FILENAME pass keeps the invariant and makes progress |
| Transmit.DataStep | src/transmit.c:157-178 | one DATA pass keeps the invariant (remainingData stays a size_t) and makes progress |
| Transmit.FileDoneStep | src/transmit.c:180-200 | one FILEDONE pass keeps the invariant and makes progress |
| Transmit.Step | src/transmit.c:107-210 | one pass keeps the invariant (result SUCCESS until END, never FAIL) and makes progress, so the loop terminates |
| Transmit.SendFileInfo | src/transmit.c:64-72 | the buffer becomes FillHeader(name, "%d" of (int)Size) and its first 128 bytes are framed at blockNum |
| Transmit.SendData | src/transmit.c:74-80 | reads min(min(Size, 1024), left) bytes into the front of buff and frames 1024 bytes iff more than 128 were read |
| Transmit.StartState | src/transmit.c:111-123 | the START case does exactly what StartStep says |
| Transmit.FileNameState | src/transmit.c:125-155 | the FILENAME case does exactly what FileNameStep says |
| Transmit.DataState | src/transmit.c:157-178 | the DATA case does exactly what DataStep says |
| Transmit.FileDoneState | src/transmit.c:180-200 | the FILEDONE case does exactly what FileDoneStep says |
| Transmit.Transmit | src/transmit.c:88-213 | YModem_Transmit returns Run's result and leaves the link and the files as Run does |
| TransmitProperties.StartOutcome | src/transmit.c:111-123 | a C moves to FILENAME at block 0 with 10 retries; without one all input is consumed and a retry is spent or TIMEOUT; nothing is written |
| TransmitProperties.RefusedReply | src/transmit.c:144-153 | a non-ACK reply keeps block number, owed bytes and file; CAN cancels, otherwise a retry is spent or TIMEOUT |
| TransmitProperties.AckedHeader | src/transmit.c:137-143 | an ACKed header: DATA at the next block with the file's Size owed, after one waitStart poll |
| TransmitProperties.AckedBlock | src/transmit.c:161-166 | an ACKed block: owed drops by the bytes read mod 2^64, the block number advances, FILEDONE iff nothing is owed |
| TransmitProperties.AckedEot | src/transmit.c:184-188 | an ACKed EOT moves to the next file in START with 10 retries |
| TransmitProperties.DataBlock | src/transmit.c:74-80 | the bytes read are min(Size, 1024, left), they start the payload, they leave the file whatever the reply, and the frame is large iff more than 128 were read |
| TransmitProperties.RefusedBlockIsSkipped | src/transmit.c:157-178 | after a NAK the refused bytes are gone from the file and still counted as owed; the next pass reads the bytes after them |
| TransmitProperties.ExhaustedFileRepeats | src/transmit.c:157-166 | once Read has nothing left while bytes are owed, an ACKed block re-sends the buffer and owes as much as before |
| TransmitProperties.HonestFileNeverWraps | src/transmit.c:161-164 | when a file has no more to give than is owed, an ACK reduces owed by exactly the bytes read and it never grows |
| TransmitProperties.LongFileWraps | src/transmit.c:76 | reading at most Size rather than owed: a 1500-byte file with 1024 bytes to give and 476 owed wraps remainingData to 2^64 - 548 |
| TransmitProperties.RunNeverFails | src/transmit.c:88-213 | a batch never returns FAIL |
| TransmitProperties.RunAppends | src/transmit.c:107-210 | the run only appends to the link and only consumes its input |
| TransmitProperties.StepAppends | src/transmit.c:107-210 | one pass only appends to the link and only consumes its input |
| TransmitProperties.FileNameAppends | src/transmit.c:125-155 | the FILENAME pass only appends to the link and only consumes its input |
| TransmitProperties.NoStartTimesOut | src/transmit.c:111-123 | without a C the sender writes nothing, consumes the input and ends with TIMEOUT |
| TransmitProperties.SilentReceiver | src/transmit.c:111-123 | a fresh sender that never sees C returns TIMEOUT having written nothing |
| TransmitProperties.BatchEnd | src/transmit.c:125-133 | past the last file the all-zero header goes out at the current block and the run ends with SUCCESS without reading a reply |
| TransmitProperties.CanCancels | src/transmit.c:144-146 | a CAN reply to a header, block or EOT ends the batch with CANCEL at once |
| TransmitProperties.SilentAfterEot | src/transmit.c:180-200 | with no reply, EOT is written once per retry left plus once and the batch ends with TIMEOUT |
| TransmitProperties.StartsOnC | src/transmit.c:111-117 | a C moves the run to FILENAME at block 0 |
| TransmitProperties.HeaderTaken | src/transmit.c:125-143 | a header answered by ACK C: the run continues in DATA owing the file's Size |
| TransmitProperties.LastBlockTaken | src/transmit.c:157-166 | a file's whole remaining content in one ACKed small block: the run continues in FILEDONE owing nothing |
| TransmitProperties.EotTaken | src/transmit.c:180-188 | an EOT answered by ACK ends the file: the run goes back to START for the next file |
| TransmitProperties.SendHeader | src/transmit.c:111-143 | a one-file batch after C, ACK, C: the header has been framed at block 0 |
| TransmitProperties.SendBlock | src/transmit.c:157-166 | the one small block of a one-file batch is framed at block 1 and ACKed |
| TransmitProperties.SendOneBlock | src/transmit.c:107-178 | the first three passes of a one-file batch |
| TransmitProperties.CloseOneFile | src/transmit.c:180-188 | EOT, its ACK, a C and the all-zero header end the batch with SUCCESS |
| TransmitProperties.OneFileSend | src/transmit.c:88-213 | a one-file batch against replies C ACK C ACK ACK C ACK: SUCCESS, one ACK unread, output header + block + EOT + all-zero header |
| Legacy.CopiedName | src/ymodem_transmit.c:57-59 | strlen kept in a uint8_t: what is copied is a prefix of the name shorter than 256 bytes, and the whole name when the name is shorter than 256 |
| Legacy.SizeField | src/ymodem_transmit.c:61 | "%d" of the uint32 size is at most 11 characters |
| Legacy.Chunk | src/ymodem_transmit.c:65-68 | readFunc's bytes at the current offset, at most 1024 |
| Legacy.StartStep | src/ymodem_transmit.c:102-114 | one START pass keeps the invariant and makes progress |
| Legacy.FileNameStep | src/ymodem_transmit.c:116-142 | one FILENAME pass, with the load of line 127 guarded, keeps the invariant and makes progress |
| Legacy.DataStep | src/ymodem_transmit.c:144-165 | one DATA pass keeps the invariant (remainingData stays a uint32) and makes progress |
| Legacy.FileDoneStep | src/ymodem_transmit.c:167-187 | one FILEDONE pass keeps the invariant and makes progress |
| Legacy.Step | src/ymodem_transmit.c:98-197 | one pass keeps the invariant and makes progress, so the loop terminates |
| Legacy.HeaderAckLoadAsWritten | src/ymodem_transmit.c:127 | line 127 as written: a value exactly when fileIndex < numFiles, otherwise a read past the sizes array |
| Legacy.SendFileName | src/ymodem_transmit.c:55-63 | the buffer becomes the header for the (uint8-truncated) name and the size, and its first 128 bytes are framed at blockNum |
| Legacy.SendData | src/ymodem_transmit.c:65-71 | readFunc is asked for (name, offset, min(remainingData, 1024)); its bytes go to the front of buff and are framed large iff more than 128 |
| Legacy.FileNameState | src/ymodem_transmit.c:116-142 | the FILENAME case, guarded, does exactly what FileNameStep says |
| Legacy.DataState | src/ymodem_transmit.c:144-165 | the DATA case, reading at offset sizes[i] - remainingData, does exactly what DataStep says |
| Legacy.WaitState | src/ymodem_transmit.c:167-187 | the START and FILEDONE cases do exactly what Step says |
| Legacy.LegacyTransmit | src/ymodem_transmit.c:79-200 | YModem_Transmit returns Run's result and leaves the link as Run does |
| LegacyProperties.RefusedReply | src/ymodem_transmit.c:131-141 | a non-ACK reply keeps block number, owed bytes and file index; CAN cancels, otherwise a retry is spent or TIMEOUT |
| LegacyProperties.RefusedBlockIsResent | src/ymodem_transmit.c:144-165 | after a NAK the same block is sent again: same offset, same bytes, same frame |
| LegacyProperties.HonestReadNeverUnderflows | src/ymodem_transmit.c:149 | when readFunc honours maxLen, an ACK takes exactly the bytes read off owed without wrapping, and the next offset is where this block ended |
| LegacyProperties.NameHeaderRoundTrip | src/ymodem_transmit.c:55-63 | the legacy header gives the receiver back the name and the size |
| LegacyProperties.LongNameReadsAsBatchEnd | src/ymodem_transmit.c:57 | a 256-byte name is copied as nothing and its header reads as the end-of-batch header |
| LegacyProperties.EndHeaderAcked | src/ymodem_transmit.c:116-142 | the ACKed all-zero header ends the batch with SUCCESS after one C poll, loading no size |
| LegacyProperties.EndHeaderUnanswered | src/ymodem_transmit.c:116-141 | an unanswered all-zero header is sent and costs one retry |
| LegacyProperties.SilentAtBatchEnd | src/ymodem_transmit.c:116-141 | with no reply the all-zero header is sent once per retry left plus once and the batch ends with TIMEOUT |
| LegacyProperties.EndOfBatchReadsPastSizes | src/ymodem_transmit.c:116-129 | the ACK of the all-zero header sent past the last file ends the pass in END with SUCCESS, and on that ACK line 127 as written reads past the sizes array |
| LegacyProperties.EmptyBatchReadsPastSizes | src/ymodem_transmit.c:124-129 | with no files and replies C ACK, the header's ACK arrives with fileIndex == numFiles and line 127 reads sizes[0] of an empty array |
| LegacyProperties.RunNeverFails | src/ymodem_transmit.c:79-200 | a batch never returns FAIL |
| LegacyProperties.CanCancels | src/ymodem_transmit.c:131-133 | a CAN reply ends the batch with CANCEL at once |
| Transfer.SmallBatch | src/transmit.c:70 | a name under 32 bytes and a size up to 128 make a header that fits one small block, with a size text of at most 3 digits |
| Transfer.OneFileTransfer | src/receive.c:139-289 | a one-file batch end to end: the transmitter fed the receiver's replies returns SUCCESS; the receiver fed the transmitter's bytes returns SUCCESS, writes exactly those replies and stores exactly the file's bytes |

## Left out

- The clock (`Time`, `TIMEOUT_MS`) is not modelled. A bounded read or a poll ends when the
  queue of arrived bytes runs dry, and that stands for the deadline passing. Bytes that
  would arrive later, while the code still waits, are not modelled.
- Link.Modem.Write: the link is assumed to accept every byte, because the code ignores
  Write's return value. A short write is not modelled.
- Receive.Sinks.Write: file->Write is assumed to take every byte it is given. The code
  subtracts Write's return from Size, so a short write would keep bytes owed; that case is
  not modelled.
- Common.LeadingDigits: atoi is modelled on digits only. Leading blanks, a sign and
  overflow are left out. A negative size text would turn into a huge size_t in the code.
- Receive.ReceiveFileInfo: the name is read from the block's payload only. The C `strcpy`
  into the 32-byte `fileName` overflows for names of 32 bytes or more, and for a payload
  without a NUL it runs past the payload. Those are memory errors and are not modelled.
- The CRC routine (`CRC16`, `CRC16_Calculate`) is not part of this model. It is assumed to
  be CRC-16/XMODEM.
- The scratch buffer `buff` starts zeroed in the model. In the C code it is uninitialised
  stack memory. Its stale bytes are sent as padding in short blocks, and the model keeps
  that behaviour from its zeroed start.
- `size_t` is taken to be 64 bits wide.
- Transmit.Transmit: requires every file's name, NUL, size text and NUL to fit the
  1024-byte buffer, because a longer name overruns `buff` in `sendFileInfo`.
- Transmit.Sources.Read: a file's Read is modelled as a stream of the file's remaining
  content. A Read callback that returns more than it was asked for, or different bytes on
  a later call, is not modelled.
- Legacy.LegacyTransmit: requires readFunc never to copy more than 1024 bytes, because a
  larger copy overruns `buff`. readFunc is modelled as a pure function of
  (name, offset, maxLen).
- Legacy.FileNameStep: models line 127 of `src/ymodem_transmit.c` with its read guarded
  (see Findings). The value it loads there is never used after the loop ends.
- The NULL-name sentinel of the file lists is implicit: a list or manifest is a sequence,
  and its end is the sentinel.
- `app/main_transmit.c` and `app/main_receive.c` (POSIX I/O glue, floating-point timing)
  are not part of this model. Neither are `src/ymodem.c` (a stub that does not compile),
  `src/init.c` and `src/file.c` (field-copy constructors).
- The host byte order (`BIG_ENDIAN_16`, `htobe16`) is not modelled. The wire bytes are
  modelled directly, high byte first.

## Findings

| source | as written | input that shows it | evidently intended | confidence | as-written member | corrected member |
|---|---|---|---|---|---|---|
| src/ymodem_transmit.c:127 | `remainingData = sizes[fileIndex];` runs on every ACKed header, including the all-zero header sent when `fileIndex == numFiles` | any batch; the smallest is `numFiles == 0` with the receiver replying C then ACK, which makes the code read `sizes[0]` of an empty array | load the size only when `fileIndex < numFiles`; at the end of the batch go to END without reading `sizes` | not executed | Legacy.HeaderAckLoadAsWritten (shown by LegacyProperties.EmptyBatchReadsPastSizes and LegacyProperties.EndOfBatchReadsPastSizes) | Legacy.FileNameStep (with LegacyProperties.EndHeaderAcked) |
