/**
 * The pieces both transmitters are built from (transmit.c and ymodem_transmit.c carry
 * copies of them that are identical up to the CRC routine and the byte-order macro): polling the link for the receiver's C or for its reply to a
 * frame, and writing one frame, the end-of-batch header or an EOT.
 *
 * A poll reads one byte at a time until it has what it waits for or its deadline passes;
 * with the clock abstracted, the deadline passes when the queue of arrived bytes runs dry.
 */
module Sender {
  import opened Common
  import opened Codec
  import opened Link

  /*
   * Polling, as functions of the queue of arrived bytes.
   */

  /** How many bytes waitStart reads from q: up to and including the first C, or all of q when it holds none. */
  function StartUsed(q: seq<Byte>): (n: nat)
    ensures n <= |q|
    ensures forall i :: 0 <= i < n - 1 ==> q[i] != C
    ensures C in q ==> 0 < n && q[n - 1] == C
    ensures C !in q ==> n == |q|
    decreases |q|
  {
    if q == [] then 0
    else if q[0] == C then 1
    else
      var n := StartUsed(q[1..]);
      assert forall i :: 0 < i < |q| ==> q[i] == q[1..][i - 1];
      assert C in q ==> C in q[1..];
      1 + n
  }

  /** What waitAck took from the link: the reply byte (0 when none came) and how many bytes it read. */
  datatype Poll = Poll(reply: Byte, used: nat)

  /** waitAck on q: zero bytes are skipped; the first other byte is the reply. */
  function AckPoll(q: seq<Byte>): (p: Poll)
    ensures p.used <= |q|
    ensures q != [] ==> 0 < p.used
    ensures forall i :: 0 <= i < p.used - 1 ==> q[i] == 0
    ensures p.reply != 0 ==> 0 < p.used && q[p.used - 1] == p.reply
    ensures p.reply == 0 <==> p.used == |q| && forall i :: 0 <= i < |q| ==> q[i] == 0
    decreases |q|
  {
    if q == [] then Poll(0, 0)
    else if q[0] != 0 then Poll(q[0], 1)
    else
      var p := AckPoll(q[1..]);
      assert forall i :: 0 < i < |q| ==> q[i] == q[1..][i - 1];
      Poll(p.reply, 1 + p.used)
  }

  /** A C at the head of the queue: waitStart reads that one byte. */
  lemma StartAtHead(q: seq<Byte>)
    requires q != [] && q[0] == C
    ensures StartUsed(q) == 1 && q[StartUsed(q)..] == q[1..]
  {
  }

  /** A byte other than zero at the head of the queue: waitAck takes it as the reply and reads nothing more. */
  lemma ReplyAtHead(q: seq<Byte>)
    requires q != [] && q[0] != 0
    ensures AckPoll(q) == Poll(q[0], 1) && q[AckPoll(q).used..] == q[1..]
  {
  }

  /** modem->Read(&byte, 1) on a link with bytes queued: the next byte. */
  method ReadByte(modem: Modem, cell: array<Byte>) returns (byte: Byte)
    requires cell.Length == 1 && modem.input != []
    modifies modem, cell
    ensures byte == old(modem.input)[0]
    ensures modem.input == old(modem.input)[1..] && modem.output == old(modem.output)
  {
    ghost var before := cell[..];
    var n := modem.Read(cell, 0, 1);
    SpliceAt(before, 0, old(modem.input)[..1], 0);
    byte := cell[0];
  }

  /** waitStart: true iff a C arrived before the deadline; every byte before it is read and dropped. */
  method WaitStart(modem: Modem) returns (found: bool)
    modifies modem
    ensures found == (C in old(modem.input))
    ensures modem.input == old(modem.input)[StartUsed(old(modem.input))..]
    ensures modem.output == old(modem.output)
  {
    ghost var q := modem.input;
    ghost var k := 0;
    var cell := new Byte[1];
    var byte: Byte := 0;
    while byte != C && modem.input != []
      invariant k <= |q| && modem.input == q[k..] && modem.output == old(modem.output)
      invariant forall i :: 0 <= i < k - 1 ==> q[i] != C
      invariant byte == C ==> 0 < k && q[k - 1] == C
      invariant byte != C ==> forall i :: 0 <= i < k ==> q[i] != C
      decreases |modem.input|
    {
      byte := ReadByte(modem, cell);
      assert q[k..][1..] == q[k + 1..];
      k := k + 1;
    }
    found := byte == C;
    if !found {
      assert C !in q by {
        forall i | 0 <= i < |q| ensures q[i] != C { }
      }
    }
  }

  /** waitAck: the first non-zero byte that arrives before the deadline, or 0 when none does. */
  method WaitAck(modem: Modem) returns (byte: Byte)
    modifies modem
    ensures var p := AckPoll(old(modem.input));
      byte == p.reply && modem.input == old(modem.input)[p.used..]
    ensures modem.output == old(modem.output)
  {
    ghost var q := modem.input;
    ghost var k := 0;
    var cell := new Byte[1];
    byte := 0;
    while byte == 0 && modem.input != []
      invariant k <= |q| && modem.input == q[k..] && modem.output == old(modem.output)
      invariant forall i :: 0 <= i < k - 1 ==> q[i] == 0
      invariant byte != 0 ==> 0 < k && q[k - 1] == byte
      invariant byte == 0 ==> forall i :: 0 <= i < k ==> q[i] == 0
      decreases |modem.input|
    {
      byte := ReadByte(modem, cell);
      assert q[k..][1..] == q[k + 1..];
      k := k + 1;
    }
    assert AckPoll(q) == Poll(byte, k);
  }

  /*
   * Writing.
   */

  /** sendPacket: the frame for block blockNum carrying the first packetSize bytes of the buffer. */
  method SendPacket(modem: Modem, buff: array<Byte>, packetSize: nat, blockNum: Byte)
    requires packetSize <= buff.Length
    modifies modem
    ensures modem.output == old(modem.output) + Frame(blockNum, buff[..packetSize])
    ensures modem.input == old(modem.input)
  {
    modem.Write([if packetSize == SMALL_PACKET_BYTES then SOH else STX]);
    modem.Write([blockNum]);
    modem.Write([!blockNum]);
    modem.Write(buff[..packetSize]);
    var crc := Crc16(buff[..packetSize]);
    modem.Write([HighByte(crc), LowByte(crc)]);
    assert modem.output == old(modem.output)
      + ([if packetSize == SMALL_PACKET_BYTES then SOH else STX, blockNum, !blockNum] + buff[..packetSize]
         + [HighByte(crc), LowByte(crc)]);
  }

  /** sendDone: the end-of-batch header, 128 zero bytes, at block blockNum; the buffer's first 128 bytes are cleared. */
  method SendDone(modem: Modem, buff: array<Byte>, blockNum: Byte)
    requires buff.Length == DATA_SIZE
    modifies modem, buff
    ensures buff[..] == ClearHeader(old(buff[..]))
    ensures modem.output == old(modem.output) + Frame(blockNum, Zeros(SMALL_PACKET_BYTES))
    ensures modem.input == old(modem.input)
  {
    Put(buff, 0, Zeros(SMALL_PACKET_BYTES));
    ClearedHeader(old(buff[..]));
    SendPacket(modem, buff, SMALL_PACKET_BYTES, blockNum);
  }

  /** The cleared part of the buffer is all zeros. */
  lemma ClearedHeader(b: seq<Byte>)
    requires |b| == DATA_SIZE
    ensures ClearHeader(b)[..SMALL_PACKET_BYTES] == Zeros(SMALL_PACKET_BYTES)
  {
    var z := Zeros(SMALL_PACKET_BYTES);
    forall i | 0 <= i < SMALL_PACKET_BYTES
      ensures ClearHeader(b)[i] == z[i]
    {
      SpliceAt(b, 0, z, i);
    }
  }

  /** sendFileEnd: a single EOT. */
  method SendFileEnd(modem: Modem)
    modifies modem
    ensures modem.output == old(modem.output) + [EOT]
    ensures modem.input == old(modem.input)
  {
    modem.Write([EOT]);
  }
}
