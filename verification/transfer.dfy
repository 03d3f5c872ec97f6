/**
 * The two halves together: what YModem_Transmit (transmit.c) writes for a batch of one
 * small file is what YModem_Receive (receive.c) reads, and what the receiver answers is
 * what the transmitter waited for. The receiver ends with the file's bytes, exactly.
 */
module Transfer {
  import opened Common
  import opened Codec
  import Receive
  import ReceiveProperties
  import Transmit
  import TransmitProperties

  /** The bytes a receiver answers with for a batch of one file of one small block. */
  const Replies: seq<Byte> := [C, ACK, C, ACK, ACK, C, ACK]

  /** A name the receiver can hold and a size that fits a small header keep a one-file batch small. */
  lemma SmallBatch(name: seq<Byte>, data: seq<Byte>)
    requires |name| < FILE_NAME && 1 <= |data| <= SMALL_PACKET_BYTES
    ensures TransmitProperties.SmallFile(name, data)
    ensures |SizeText(|data|)| <= 3
  {
    assert SizeText(|data|) == Digits(|data|);
    DigitsLength(|data|, 3, Pow10(3));
  }

  /**
   * A one-file batch end to end: the transmitter, fed the receiver's replies, returns
   * SUCCESS with one reply left unread; the receiver, fed the transmitter's bytes and told
   * the file's size as its ceiling, returns SUCCESS, answers with exactly those replies,
   * and stores exactly the file's bytes.
   */
  lemma OneFileTransfer(name: seq<Byte>, data: seq<Byte>)
    requires name != [] && NoNul(name) && |name| < FILE_NAME
    requires 1 <= |data| <= SMALL_PACKET_BYTES
    ensures TransmitProperties.SmallFile(name, data) &&
      var tx := Transmit.Run([Transmit.Source(name, |data|)], Transmit.Initial,
                             Transmit.World(Replies, [], [data], Zeros(DATA_SIZE)));
      var rx := Receive.Run([Receive.Entry(name, |data|)], Receive.Initial, Receive.World(tx.1.output, [], [[]]));
      && tx.0 == Success && tx.1.input == [ACK]
      && rx == (Success, Receive.World([], Replies, [data]))
  {
    SmallBatch(name, data);
    TransmitProperties.OneFileSend(name, data);
    var hb := TransmitProperties.HeaderOf(name, data);
    var db := TransmitProperties.BlockOf(name, data);
    HeaderRoundTrip(Zeros(DATA_SIZE), name, |data|);
    var header := hb[..SMALL_PACKET_BYTES];
    var block := db[..SMALL_PACKET_BYTES];
    TransmitProperties.SplicePrefix(hb, data, SMALL_PACKET_BYTES);
    assert block[..|data|] == data;
    ReceiveProperties.OneFileBatch(name, |data|, |data|, header, block);
  }
}
