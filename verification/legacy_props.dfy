/**
 * What the older YModem_Transmit (ymodem_transmit.c) promises, stated about Step and Run:
 * a refused block is sent again unchanged, the offset arithmetic stays in range when
 * readFunc keeps to its maxLen, the all-zero header is retried until ACKed, and the one
 * read past the sizes array.
 */
module LegacyProperties {
  import opened Common
  import opened Codec
  import opened Sender
  import opened Legacy

  /** The reply waitAck takes from the bytes waiting in w. */
  function Reply(w: World): Byte
  {
    AckPoll(w.input).reply
  }

  /** The data block DATA sends from session s and world w. */
  function DataFrame(b: Batch, s: Session, w: World): seq<Byte>
    requires Valid(b, s, w) && s.state == Data
  {
    var chunk := Chunk(b, s);
    Frame(s.blockNum, Splice(w.buff, 0, chunk)[..PacketSize(|chunk|)])
  }

  /*
   * One pass of the loop.
   */

  /**
   * A reply other than ACK leaves the block number, the bytes still owed and the file
   * index as they were: CAN cancels, and anything else costs a retry, or ends the batch
   * with TIMEOUT once no retry is left.
   */
  lemma RefusedReply(b: Batch, s: Session, w: World)
    requires Valid(b, s, w) && (s.state == FileName || s.state == Data || s.state == FileDone)
    requires Reply(w) != ACK
    ensures var r := Step(b, s, w);
      && r.1.input == w.input[AckPoll(w.input).used..]
      && r.0.blockNum == s.blockNum && r.0.remaining == s.remaining && r.0.fileIndex == s.fileIndex
      && (Reply(w) == CAN ==> r.0.state == Canceled)
      && (Reply(w) != CAN && s.retriesLeft == 0 ==> r.0.state == End && r.0.result == Timeout)
      && (Reply(w) != CAN && s.retriesLeft > 0 ==> r.0.state == s.state && r.0.retriesLeft == s.retriesLeft - 1)
  {
  }

  /** Writing the same bytes at the front of a buffer a second time changes nothing. */
  lemma SpliceTwice(buff: seq<Byte>, x: seq<Byte>)
    requires |x| <= |buff|
    ensures Splice(Splice(buff, 0, x), 0, x) == Splice(buff, 0, x)
  {
    var once := Splice(buff, 0, x);
    forall j | 0 <= j < |buff|
      ensures Splice(once, 0, x)[j] == once[j]
    {
      SpliceAt(once, 0, x, j);
      SpliceAt(buff, 0, x, j);
    }
  }

  /**
   * A refused data block is sent again unchanged: what is owed did not move, so readFunc
   * is asked for the same bytes at the same offset, and the block carries the same
   * number, payload and CRC.
   */
  lemma RefusedBlockIsResent(b: Batch, s: Session, w: World)
    requires Valid(b, s, w) && s.state == Data && Reply(w) != ACK && Reply(w) != CAN && s.retriesLeft > 0
    ensures var r := Step(b, s, w);
      && r.0.state == Data
      && r.1.output == w.output + DataFrame(b, s, w)
      && DataFrame(b, r.0, r.1) == DataFrame(b, s, w)
  {
    var r := Step(b, s, w);
    assert Chunk(b, r.0) == Chunk(b, s);
    SpliceTwice(w.buff, Chunk(b, s));
  }

  /**
   * When readFunc gives no more than its maxLen, remainingData -= sentbytes never wraps
   * around: an ACKed block takes exactly its bytes off what is owed, the next offset is
   * where this block ended, and what is owed stays within the file's size.
   */
  lemma HonestReadNeverUnderflows(b: Batch, s: Session, w: World)
    requires Valid(b, s, w) && s.state == Data && HonoursMax(b.read)
    requires s.remaining <= b.sizes[s.fileIndex]
    ensures var r := Step(b, s, w);
      var n := |Chunk(b, s)|;
      && n <= s.remaining
      && r.0.remaining <= b.sizes[s.fileIndex]
      && (Reply(w) == ACK ==> r.0.remaining == s.remaining - n)
      && (r.0.state == Data ==> Offset(b, r.0) == Offset(b, s) + (s.remaining - r.0.remaining))
  {
    var chunk := Chunk(b, s);
    var n := |chunk|;
    assert n <= Min(s.remaining, LARGE_PACKET_BYTES);
    assert (s.remaining - n) % UINT32 == s.remaining - n;
    var r := Step(b, s, w);
    if Reply(w) == ACK {
      assert r.0 == Accepted(s, if s.remaining - n != 0 then Data else FileDone).(remaining := s.remaining - n);
      assert Offset(b, r.0) == Offset(b, s) + n;
    } else {
      assert r.0 == Refused(s, Reply(w));
    }
  }

  /*
   * The header.
   */

  /** A header built by sendFileName gives the receiver back the name and the size, for a name the receiver can hold. */
  lemma NameHeaderRoundTrip(buff: seq<Byte>, name: seq<Byte>, size: nat)
    requires |buff| == DATA_SIZE
    requires NoNul(name) && |name| < FILE_NAME
    requires size < 0x8000_0000
    requires |name| + |SizeText(size)| + 2 <= SMALL_PACKET_BYTES
    ensures var payload := NameHeader(buff, name, size)[..SMALL_PACKET_BYTES];
      HeaderName(payload) == name && HeaderSize(payload) == size
  {
    HeaderRoundTrip(buff, name, size);
  }

  /**
   * strlen is kept in a uint8_t: a name of exactly 256 bytes is copied as no bytes at
   * all, and its header reads as the empty name that ends a batch.
   */
  lemma LongNameReadsAsBatchEnd(buff: seq<Byte>, name: seq<Byte>, size: nat)
    requires |buff| == DATA_SIZE && |name| == UINT8
    ensures HeaderName(NameHeader(buff, name, size)[..SMALL_PACKET_BYTES]) == []
  {
    var text := SizeField(size);
    assert CopiedName(name) == [];
    HeaderLayout(buff, [], text);
    var payload := NameHeader(buff, name, size)[..SMALL_PACKET_BYTES];
    assert payload[0] == 0;
  }

  /*
   * The end of the batch.
   */

  /** The end-of-batch header ACKed: after one poll for a C the batch ends with SUCCESS, and nothing is loaded from sizes. */
  lemma EndHeaderAcked(b: Batch, s: Session, w: World)
    requires Valid(b, s, w) && s.state == FileName && s.fileIndex == |b.names| && Reply(w) == ACK
    ensures var rest := w.input[AckPoll(w.input).used..];
      Run(b, s, w) == (Success, World(rest[StartUsed(rest)..],
                                      w.output + Frame(s.blockNum, Zeros(SMALL_PACKET_BYTES)),
                                      ClearHeader(w.buff)))
  {
    var r := Step(b, s, w);
    ClearedHeader(w.buff);
    assert Run(b, s, w) == Run(b, r.0, r.1);
  }

  /** Clearing the header twice is clearing it once. */
  lemma ClearTwice(buff: seq<Byte>)
    requires |buff| == DATA_SIZE
    ensures ClearHeader(ClearHeader(buff)) == ClearHeader(buff)
  {
    SpliceTwice(buff, Zeros(SMALL_PACKET_BYTES));
  }

  /** An unanswered end-of-batch header: it is sent, and one retry is spent or the batch ends with TIMEOUT. */
  lemma EndHeaderUnanswered(b: Batch, s: Session, w: World)
    requires Valid(b, s, w) && s.state == FileName && s.fileIndex == |b.names| && w.input == []
    ensures Step(b, s, w)
         == (Retried(s), w.(output := w.output + Frame(s.blockNum, Zeros(SMALL_PACKET_BYTES)), buff := ClearHeader(w.buff)))
  {
    ClearedHeader(w.buff);
  }

  /** One more copy in front of k copies. */
  lemma RepeatMore(out: seq<Byte>, f: seq<Byte>, k: nat)
    ensures out + f + Repeat(f, k) == out + Repeat(f, k + 1)
  {
    assert Repeat(f, k + 1) == f + Repeat(f, k);
  }

  /**
   * Unlike transmit.c, the all-zero header waits for its ACK: with the receiver silent it
   * is sent once and once per retry left, and the batch ends with TIMEOUT.
   */
  lemma {:induction false} SilentAtBatchEnd(b: Batch, s: Session, w: World)
    requires Valid(b, s, w) && s.state == FileName && s.fileIndex == |b.names| && w.input == []
    ensures Run(b, s, w)
         == (Timeout, w.(output := w.output + Repeat(Frame(s.blockNum, Zeros(SMALL_PACKET_BYTES)), s.retriesLeft + 1),
                         buff := ClearHeader(w.buff)))
    decreases s.retriesLeft
  {
    var f := Frame(s.blockNum, Zeros(SMALL_PACKET_BYTES));
    var w1 := w.(output := w.output + f, buff := ClearHeader(w.buff));
    EndHeaderUnanswered(b, s, w);
    assert Run(b, s, w) == Run(b, Retried(s), w1);
    RepeatMore(w.output, f, s.retriesLeft);
    if s.retriesLeft > 0 {
      SilentAtBatchEnd(b, Retried(s), w1);
      ClearTwice(w.buff);
    } else {
      assert Repeat(f, 1) == f;
    }
  }

  /**
   * Line 127 as written reads past the sizes array at the end of every batch: the ACK of
   * the all-zero header, the one that ends the batch with SUCCESS, arrives with fileIndex
   * equal to numFiles.
   */
  lemma EndOfBatchReadsPastSizes(b: Batch, s: Session, w: World)
    requires Valid(b, s, w) && s.state == FileName && s.fileIndex == |b.names| && Reply(w) == ACK
    ensures var r := Step(b, s, w);
      && r.0.state == End && r.0.result == Success
      && HeaderAckLoadAsWritten(b.sizes, s.fileIndex) == None
  {
    assert Step(b, s, w).0 == Accepted(s, End);
  }

  /** The smallest case: with no files, a receiver that sends C and then ACK makes line 127 read sizes[0] of an empty array. */
  lemma EmptyBatchReadsPastSizes(b: Batch, rest: seq<Byte>)
    requires WellFormed(b) && b.names == []
    ensures var w := World([C, ACK] + rest, [], Zeros(DATA_SIZE));
      var r := Step(b, Initial, w);
      && r.0.state == FileName && r.0.fileIndex == |b.sizes|
      && Reply(r.1) == ACK
      && HeaderAckLoadAsWritten(b.sizes, r.0.fileIndex) == None
  {
    var q := [C, ACK] + rest;
    assert StartUsed(q) == 1;
    assert q[1..] == [ACK] + rest;
  }

  /*
   * Whole runs.
   */

  /** Whatever the receiver does, a batch ends with SUCCESS, TIMEOUT or CANCEL and never with FAIL. */
  lemma {:induction false} RunNeverFails(b: Batch, s: Session, w: World)
    requires Valid(b, s, w)
    ensures Run(b, s, w).0 != Fail
    decreases |w.input|, s.retriesLeft, Rank(s.state)
  {
    if s.state != End {
      var r := Step(b, s, w);
      RunNeverFails(b, r.0, r.1);
      assert Run(b, s, w) == Run(b, r.0, r.1);
    }
  }

  /** A CAN in reply to a header, a data block or an EOT ends the batch with CANCEL at once. */
  lemma CanCancels(b: Batch, s: Session, w: World)
    requires Valid(b, s, w) && (s.state == FileName || s.state == Data || s.state == FileDone)
    requires Reply(w) == CAN
    ensures Run(b, s, w) == (Cancel, Step(b, s, w).1)
  {
    var r := Step(b, s, w);
    RefusedReply(b, s, w);
    assert r.0.state == Canceled;
    RunStep(b, s, w);
    assert Step(b, r.0, r.1) == (r.0.(state := End, result := Cancel), r.1);
    RunStep(b, r.0, r.1);
  }

  /** Run takes one pass at a time. */
  lemma RunStep(b: Batch, s: Session, w: World)
    requires Valid(b, s, w) && s.state != End
    ensures Run(b, s, w) == Run(b, Step(b, s, w).0, Step(b, s, w).1)
  {
  }
}
