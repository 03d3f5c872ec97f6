/**
 * The packet codec: the bytes a sender puts on the link for one block (sendPacket), the
 * header payloads (sendFileInfo, sendFileName, sendDone), and what the receiver makes of
 * the bytes waiting on the link (receivePacket, receiveFileInfo, receiveFileEnd), stated
 * as functions of the queue of arrived bytes.
 */
module Codec {
  import opened Common

  /*
   * Sending.
   */

  /** The frame for one block: control byte, block number, its complement, the payload, CRC-16 high byte first. */
  function Frame(blockNum: Byte, payload: seq<Byte>): (f: seq<Byte>)
    ensures |f| == |payload| + 5
    ensures f[3..|payload| + 3] == payload
    ensures Word(f[|payload| + 3], f[|payload| + 4]) == Crc16(payload)
  {
    var crc := Crc16(payload);
    WordOfBytes(crc);
    [if |payload| == SMALL_PACKET_BYTES then SOH else STX, blockNum, !blockNum]
      + payload + [HighByte(crc), LowByte(crc)]
  }

  /** The size text a header carries: "%d" of the size converted to int. */
  function SizeText(size: nat): seq<Byte>
  {
    FormatD(AsInt(size))
  }

  /**
   * The scratch buffer after a file header has been built in it: the first 128 bytes
   * cleared, the name copied to the front, then the size text and its NUL written one
   * byte after the name.
   */
  function FillHeader(buff: seq<Byte>, name: seq<Byte>, text: seq<Byte>): (b: seq<Byte>)
    requires |buff| == DATA_SIZE
    requires |name| + |text| + 2 <= DATA_SIZE
    ensures |b| == DATA_SIZE
  {
    var cleared := Splice(buff, 0, Zeros(SMALL_PACKET_BYTES));
    var named := Splice(cleared, 0, name);
    Splice(named, |name| + 1, text + [0])
  }

  /** The scratch buffer after sendDone cleared its first 128 bytes. */
  function ClearHeader(buff: seq<Byte>): (b: seq<Byte>)
    requires |buff| == DATA_SIZE
    ensures |b| == DATA_SIZE
  {
    Splice(buff, 0, Zeros(SMALL_PACKET_BYTES))
  }

  /**
   * When everything fits in one small block, the header payload is the name, a NUL, the
   * size text, and zeros up to 128 bytes.
   */
  lemma HeaderLayout(buff: seq<Byte>, name: seq<Byte>, text: seq<Byte>)
    requires |buff| == DATA_SIZE
    requires |name| + |text| + 2 <= SMALL_PACKET_BYTES
    ensures FillHeader(buff, name, text)[..SMALL_PACKET_BYTES]
         == name + [0] + text + Zeros(SMALL_PACKET_BYTES - 1 - |name| - |text|)
  {
    var b := FillHeader(buff, name, text);
    var expected := name + [0] + text + Zeros(SMALL_PACKET_BYTES - 1 - |name| - |text|);
    forall i | 0 <= i < SMALL_PACKET_BYTES
      ensures b[i] == expected[i]
    {
      if i < |name| {
      } else if i == |name| {
      } else if i < |name| + 1 + |text| {
      } else {
      }
    }
  }

  /*
   * Receiving.
   */

  /** The payload length a control byte announces. */
  function BlockSize(ctrl: Byte): nat
  {
    if ctrl == STX then LARGE_PACKET_BYTES else SMALL_PACKET_BYTES
  }

  /** What one reception left behind: its result, the block size its control byte announced, the payload and how many bytes it consumed. */
  datatype Reception = Reception(status: Status, size: nat, payload: seq<Byte>, used: nat)

  /** The position reached after a flush (a bounded read of DATA_SIZE bytes) started at position at. */
  function Flushed(q: seq<Byte>, at: nat): (u: nat)
    requires at <= |q|
    ensures at <= u <= |q|
    ensures u == |q| || u == at + DATA_SIZE
  {
    at + Min(DATA_SIZE, |q| - at)
  }

  /**
   * receivePacket on the queue q while block blockNum is expected. Every bounded read
   * takes what is queued, up to the length asked for, and fails when that was not enough.
   */
  function ParsePacket(q: seq<Byte>, blockNum: Byte): (r: Reception)
    ensures r.used <= |q|
    ensures q == [] ==> r == Reception(Timeout, 0, [], 0)
    ensures r.status == Success || r.status == Cancel ==> r.used > 0
    ensures r.status == Success ==>
      && r.size == |r.payload|
      && (r.size == SMALL_PACKET_BYTES || r.size == LARGE_PACKET_BYTES)
      && r.used == r.size + 5
      && r.payload == q[3..3 + r.size]
      && Crc16(r.payload) == Word(q[3 + r.size], q[4 + r.size])
  {
    if q == [] then
      Reception(Timeout, 0, [], 0)
    else if q[0] == CAN then
      Reception(Cancel, 0, [], Flushed(q, 1))
    else if q[0] != STX && q[0] != SOH then
      Reception(Timeout, 0, [], Flushed(q, 1))
    else
      var size := BlockSize(q[0]);
      if |q| < 3 then
        Reception(Timeout, size, [], |q|)
      else if q[1] != blockNum && q[2] != !blockNum then
        Reception(Fail, size, [], Flushed(q, 3))
      else if |q| < 5 + size then
        // the payload read or the CRC read came up short
        Reception(Timeout, size, [], |q|)
      else if Crc16(q[3..3 + size]) != Word(q[3 + size], q[4 + size]) then
        Reception(Fail, size, [], Flushed(q, 5 + size))
      else
        Reception(Success, size, q[3..3 + size], 5 + size)
  }

  /** receiveFileEnd on the queue q: one byte, which must be EOT. */
  function ParseFileEnd(q: seq<Byte>): (r: Reception)
    ensures r.used <= |q|
    ensures r.status != Cancel
    ensures r.status == Success <==> q != [] && q[0] == EOT
    ensures r.status == Success ==> r.used == 1
  {
    if q == [] then Reception(Timeout, 0, [], 0)
    else if q[0] == EOT then Reception(Success, 0, [], 1)
    else Reception(Fail, 0, [], Flushed(q, 1))
  }

  /** The file name receiveFileInfo copies out of a header payload. */
  function HeaderName(payload: seq<Byte>): seq<Byte>
  {
    CString(payload)
  }

  /** The size receiveFileInfo reads from the text after the name's NUL. */
  function HeaderSize(payload: seq<Byte>): nat
  {
    var name := CString(payload);
    if |name| < |payload| then Atoi(payload[|name| + 1..]) else 0
  }

  /*
   * Properties of the codec.
   */

  /** The CRC agrees with the published CRC-16/XMODEM check value for "123456789". */
  lemma Crc16CheckValue()
    ensures Crc16([0x31, 0x32, 0x33, 0x34, 0x35, 0x36, 0x37, 0x38, 0x39]) == 0x31C3
  {
    var s: seq<Byte> := [0x31, 0x32, 0x33, 0x34, 0x35, 0x36, 0x37, 0x38, 0x39];
    var r1 := CrcByte(0, s[0]);
    assert Crc16(s) == CrcFrom(r1, s[1..]);
    var r2 := CrcByte(r1, s[1]);
    assert CrcFrom(r1, s[1..]) == CrcFrom(r2, s[2..]);
    var r3 := CrcByte(r2, s[2]);
    assert CrcFrom(r2, s[2..]) == CrcFrom(r3, s[3..]);
    var r4 := CrcByte(r3, s[3]);
    assert CrcFrom(r3, s[3..]) == CrcFrom(r4, s[4..]);
    var r5 := CrcByte(r4, s[4]);
    assert CrcFrom(r4, s[4..]) == CrcFrom(r5, s[5..]);
    var r6 := CrcByte(r5, s[5]);
    assert CrcFrom(r5, s[5..]) == CrcFrom(r6, s[6..]);
    var r7 := CrcByte(r6, s[6]);
    assert CrcFrom(r6, s[6..]) == CrcFrom(r7, s[7..]);
    var r8 := CrcByte(r7, s[7]);
    assert CrcFrom(r7, s[7..]) == CrcFrom(r8, s[8..]);
    var r9 := CrcByte(r8, s[8]);
    assert CrcFrom(r8, s[8..]) == CrcFrom(r9, []);
  }

  /** A frame built by the sender is accepted by the receiver expecting that block, whatever follows it on the link. */
  lemma FrameRoundTrip(blockNum: Byte, payload: seq<Byte>, rest: seq<Byte>)
    requires |payload| == SMALL_PACKET_BYTES || |payload| == LARGE_PACKET_BYTES
    ensures ParsePacket(Frame(blockNum, payload) + rest, blockNum)
         == Reception(Success, |payload|, payload, |payload| + 5)
  {
    var q := Frame(blockNum, payload) + rest;
    var n := |payload|;
    assert q[0] == (if n == SMALL_PACKET_BYTES then SOH else STX);
    assert q[1] == blockNum;
    assert q[3..3 + n] == payload;
    assert q[3 + n] == Frame(blockNum, payload)[n + 3];
    assert q[4 + n] == Frame(blockNum, payload)[n + 4];
  }

  /**
   * The control byte decides the block size or ends the reception: CAN flushes and reports
   * a cancel, any byte other than SOH and STX flushes and reports a timeout (never a
   * failure), and a successful reception has the size its control byte announced.
   */
  lemma ControlByteDispatch(q: seq<Byte>, blockNum: Byte)
    requires q != []
    ensures var r := ParsePacket(q, blockNum);
      && (q[0] == CAN ==> r.status == Cancel && r.used == Flushed(q, 1))
      && (q[0] != CAN && q[0] != SOH && q[0] != STX ==> r.status == Timeout && r.used == Flushed(q, 1))
      && (r.status == Fail ==> q[0] == SOH || q[0] == STX)
      && (r.status == Success && q[0] == SOH ==> r.size == SMALL_PACKET_BYTES)
      && (r.status == Success && q[0] == STX ==> r.size == LARGE_PACKET_BYTES)
      && (r.status == Success ==> q[0] == SOH || q[0] == STX)
  {
  }

  /**
   * A frame that stops short times out having consumed everything that was queued: the
   * control-byte read on an empty queue, the block-number read, and, once the block number
   * passes, the payload or CRC read. For a frame opened by SOH or STX these are the only
   * ways to time out.
   */
  lemma ShortFrameTimesOut(q: seq<Byte>, blockNum: Byte)
    ensures q == [] ==> ParsePacket(q, blockNum) == Reception(Timeout, 0, [], 0)
    ensures q != [] && (q[0] == SOH || q[0] == STX) ==>
      var r := ParsePacket(q, blockNum);
      && (r.status == Timeout <==>
            |q| < 3 || ((q[1] == blockNum || q[2] == !blockNum) && |q| < 5 + BlockSize(q[0])))
      && (r.status == Timeout ==> r.used == |q|)
  {
  }

  /**
   * The block-number check as written: a frame is turned away, after a flush, exactly when
   * the block byte and the complement byte are both wrong. With either one right the frame
   * is treated exactly like the frame with both right.
   */
  lemma BlockNumberCheck(q: seq<Byte>, blockNum: Byte)
    requires |q| >= 3 && (q[0] == SOH || q[0] == STX)
    ensures q[1] != blockNum && q[2] != !blockNum ==>
      ParsePacket(q, blockNum) == Reception(Fail, BlockSize(q[0]), [], Flushed(q, 3))
    ensures q[1] == blockNum || q[2] == !blockNum ==>
      ParsePacket(q, blockNum) == ParsePacket(q[1 := blockNum][2 := !blockNum], blockNum)
  {
    var q' := q[1 := blockNum][2 := !blockNum];
    var size := BlockSize(q[0]);
    if |q| >= 5 + size {
      assert q'[3..3 + size] == q[3..3 + size];
    }
  }

  /** Because of that, a frame whose block byte is wrong but whose complement is right is accepted. */
  lemma WrongBlockNumberAccepted(blockNum: Byte, wrong: Byte, payload: seq<Byte>)
    requires wrong != blockNum
    requires |payload| == SMALL_PACKET_BYTES
    ensures var q := Frame(blockNum, payload)[1 := wrong];
      q[1] != blockNum && ParsePacket(q, blockNum).status == Success
  {
    var f := Frame(blockNum, payload);
    var q := f[1 := wrong];
    BlockNumberCheck(q, blockNum);
    assert q[1 := blockNum][2 := !blockNum] == f + [];
    FrameRoundTrip(blockNum, payload, []);
  }

  /** The header payload the sender builds gives the receiver back the name and the size. */
  lemma HeaderRoundTrip(buff: seq<Byte>, name: seq<Byte>, size: nat)
    requires |buff| == DATA_SIZE
    requires NoNul(name) && |name| < FILE_NAME
    requires size < 0x8000_0000
    requires |name| + |SizeText(size)| + 2 <= SMALL_PACKET_BYTES
    ensures var payload := FillHeader(buff, name, SizeText(size))[..SMALL_PACKET_BYTES];
      HeaderName(payload) == name && HeaderSize(payload) == size
  {
    var text := SizeText(size);
    var payload := FillHeader(buff, name, text)[..SMALL_PACKET_BYTES];
    HeaderLayout(buff, name, text);
    var tail := Zeros(SMALL_PACKET_BYTES - 1 - |name| - |text|);
    assert payload == name + ([0] + text + tail);
    CStringOfTerminated(name, [0] + text + tail);
    assert payload[|name| + 1..] == text + tail;
    AtoiOfFormatD(size, tail);
  }

  /** A name followed by a NUL is read back as that name. */
  lemma {:induction false} CStringOfTerminated(name: seq<Byte>, rest: seq<Byte>)
    requires NoNul(name) && rest != [] && rest[0] == 0
    ensures CString(name + rest) == name
    decreases |name|
  {
    if name != [] {
      assert (name + rest)[1..] == name[1..] + rest;
      CStringOfTerminated(name[1..], rest);
    }
  }

  /** The all-zero payload of sendDone carries the empty name: the end of the batch. */
  lemma EndOfBatchHeader()
    ensures HeaderName(Zeros(SMALL_PACKET_BYTES)) == []
    ensures HeaderSize(Zeros(SMALL_PACKET_BYTES)) == 0
  {
  }
}
