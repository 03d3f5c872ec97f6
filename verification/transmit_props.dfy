/**
 * What YModem_Transmit (transmit.c) promises, stated about Step and Run: how each reply is
 * handled, what each block carries, how files follow one another, and how a batch ends.
 */
module TransmitProperties {
  import opened Common
  import opened Codec
  import opened Sender
  import opened Transmit

  /** The reply waitAck takes from the bytes waiting in w. */
  function Reply(w: World): Byte
  {
    AckPoll(w.input).reply
  }

  /** A state that sends something and then waits for the receiver's reply. */
  predicate Waiting(files: seq<Source>, s: Session)
  {
    s.state == Data || s.state == FileDone || (s.state == FileName && s.current < |files|)
  }

  /** What the state sends before it waits: the file's header, its next block, or EOT. */
  function Sent(files: seq<Source>, s: Session, w: World): seq<Byte>
    requires Valid(files, s, w) && Waiting(files, s)
  {
    match s.state
    case FileName =>
      var f := files[s.current];
      Frame(s.blockNum, FillHeader(w.buff, f.name, SizeText(f.size))[..SMALL_PACKET_BYTES])
    case Data =>
      var p := w.pending[s.current];
      var n := Min(MaxRead(files[s.current]), |p|);
      Frame(s.blockNum, Splice(w.buff, 0, p[..n])[..PacketSize(n)])
    case FileDone => [EOT]
  }

  /*
   * One pass of the loop.
   */

  /** START: a C moves on to FILENAME with block number 0 and a full retry budget; anything else costs a retry. Nothing is written. */
  lemma StartOutcome(files: seq<Source>, s: Session, w: World)
    requires Valid(files, s, w) && s.state == Start
    ensures var r := Step(files, s, w);
      && r.1.output == w.output && r.1.pending == w.pending
      && |r.1.input| <= |w.input|
      && (C in w.input ==> r.0.state == FileName && r.0.blockNum == 0 && r.0.retriesLeft == MAX_RETRIES)
      && (C !in w.input ==> r.1.input == [] && r.0.blockNum == s.blockNum)
      && (C !in w.input && s.retriesLeft == 0 ==> r.0.state == End && r.0.result == Timeout)
      && (C !in w.input && s.retriesLeft > 0 ==> r.0.state == Start && r.0.retriesLeft == s.retriesLeft - 1)
  {
  }

  /**
   * A reply other than ACK (NAK, any other byte, or none before the deadline) leaves the
   * block number, the bytes still owed and the current file as they were: CAN cancels,
   * and anything else costs a retry and sends the state's frame again, or ends the batch
   * with TIMEOUT once no retry is left.
   */
  lemma RefusedReply(files: seq<Source>, s: Session, w: World)
    requires Valid(files, s, w) && Waiting(files, s) && Reply(w) != ACK
    ensures var r := Step(files, s, w);
      && r.1.output == w.output + Sent(files, s, w)
      && r.1.input == w.input[AckPoll(w.input).used..]
      && r.0.blockNum == s.blockNum && r.0.remaining == s.remaining && r.0.current == s.current
      && (Reply(w) == CAN ==> r.0.state == Canceled)
      && (Reply(w) != CAN && s.retriesLeft == 0 ==> r.0.state == End && r.0.result == Timeout)
      && (Reply(w) != CAN && s.retriesLeft > 0 ==> r.0.state == s.state && r.0.retriesLeft == s.retriesLeft - 1)
  {
  }

  /** An ACKed header: DATA follows with the file's Size owed, at the next block number, after one byte has been polled for the receiver's C. */
  lemma AckedHeader(files: seq<Source>, s: Session, w: World)
    requires Valid(files, s, w) && s.state == FileName && s.current < |files| && Reply(w) == ACK
    ensures var r := Step(files, s, w);
      var rest := w.input[AckPoll(w.input).used..];
      && r.0 == s.(state := Data, blockNum := s.blockNum + 1, retriesLeft := MAX_RETRIES,
                   remaining := files[s.current].size)
      && r.1.output == w.output + Sent(files, s, w)
      && r.1.input == rest[StartUsed(rest)..]
  {
  }

  /**
   * An ACKed data block: the bytes read are taken off what is owed (modulo the width of
   * size_t), the block number moves on, and FILEDONE follows exactly when nothing is owed.
   */
  lemma AckedBlock(files: seq<Source>, s: Session, w: World)
    requires Valid(files, s, w) && s.state == Data && Reply(w) == ACK
    ensures var r := Step(files, s, w);
      var n := |w.pending[s.current]| - |r.1.pending[s.current]|;
      && r.0.blockNum == s.blockNum + 1 && r.0.retriesLeft == MAX_RETRIES && r.0.current == s.current
      && (r.0.remaining + n) % SIZE_T == s.remaining
      && (r.0.state == FileDone <==> r.0.remaining == 0)
      && (r.0.state == Data <==> r.0.remaining != 0)
  {
    var p := w.pending[s.current];
    var n := Min(MaxRead(files[s.current]), |p|);
    var left := (s.remaining - n) % SIZE_T;
    var r := Step(files, s, w);
    WrapBack(s.remaining, n);
    assert r.0 == Accepted(s, if left != 0 then Data else FileDone).(remaining := left);
    assert r.1.pending[s.current] == p[n..];
  }

  /** Taking n off a count modulo the width of size_t and adding it back gives the count again. */
  lemma WrapBack(x: nat, n: nat)
    requires x < SIZE_T
    ensures ((x - n) % SIZE_T + n) % SIZE_T == x
  {
    var k := (x - n) / SIZE_T;
    assert (x - n) % SIZE_T + n == x - k * SIZE_T;
    assert (x - k * SIZE_T) % SIZE_T == x by {
      assert x - k * SIZE_T == x + (-k) * SIZE_T;
    }
  }

  /** An ACKed EOT: the next file of the list is taken up, from START, where a fresh C is awaited. */
  lemma AckedEot(files: seq<Source>, s: Session, w: World)
    requires Valid(files, s, w) && s.state == FileDone && Reply(w) == ACK
    ensures var r := Step(files, s, w);
      && r.0 == s.(state := Start, current := s.current + 1, retriesLeft := MAX_RETRIES)
      && r.1.output == w.output + [EOT]
  {
  }

  /**
   * The block sendData sends: the file's Read is asked for min(Size, 1024) bytes; what it
   * gives is the start of the payload, and the payload is a large block iff more than a
   * small block was read. The bytes read are gone from the file whatever the reply.
   */
  lemma DataBlock(files: seq<Source>, s: Session, w: World)
    requires Valid(files, s, w) && s.state == Data
    ensures var r := Step(files, s, w);
      var p := w.pending[s.current];
      var n := |p| - |r.1.pending[s.current]|;
      && n == Min(Min(files[s.current].size, LARGE_PACKET_BYTES), |p|)
      && r.1.pending == w.pending[s.current := p[n..]]
      && r.1.output == w.output + Frame(s.blockNum, p[..n] + w.buff[n..PacketSize(n)])
      && (PacketSize(n) == LARGE_PACKET_BYTES <==> n > SMALL_PACKET_BYTES)
  {
    var p := w.pending[s.current];
    var n := Min(MaxRead(files[s.current]), |p|);
    var b := Splice(w.buff, 0, p[..n]);
    assert Step(files, s, w).1 == DataStep(files, s, w).1
      == World(w.input[AckPoll(w.input).used..], w.output + Frame(s.blockNum, b[..PacketSize(n)]),
               w.pending[s.current := p[n..]], b);
    assert |p| - |p[n..]| == n;
    SplicePrefix(w.buff, p[..n], PacketSize(n));
  }

  /** The first k bytes of a buffer after x was written at its front. */
  lemma SplicePrefix(b: seq<Byte>, x: seq<Byte>, k: nat)
    requires |x| <= k <= |b|
    ensures Splice(b, 0, x)[..k] == x + b[|x|..k]
  {
    assert Splice(b, 0, x) == x + b[|x|..];
  }

  /*
   * The re-read on retry, and what it leads to.
   */

  /**
   * A refused data block is not sent again: its bytes are gone from the file, the next
   * pass reads the bytes after them, and they are still counted as owed.
   */
  lemma RefusedBlockIsSkipped(files: seq<Source>, s: Session, w: World)
    requires Valid(files, s, w) && s.state == Data && Reply(w) == NAK && s.retriesLeft > 0
    ensures var r := Step(files, s, w);
      var n := Min(MaxRead(files[s.current]), |w.pending[s.current]|);
      && r.0.state == Data && r.0.remaining == s.remaining
      && r.1.pending[s.current] == w.pending[s.current][n..]
  {
  }

  /**
   * Once a file's Read has nothing left while bytes are still owed, every ACKed block is a
   * small block of what was already in the buffer and takes nothing off what is owed: the
   * file never reaches FILEDONE.
   */
  lemma ExhaustedFileRepeats(files: seq<Source>, s: Session, w: World)
    requires Valid(files, s, w) && s.state == Data && w.pending[s.current] == [] && s.remaining > 0
    requires Reply(w) == ACK
    ensures var r := Step(files, s, w);
      && r.0.state == Data && r.0.remaining == s.remaining
      && r.1.output == w.output + Frame(s.blockNum, w.buff[..SMALL_PACKET_BYTES])
      && r.1.buff == w.buff && r.1.pending == w.pending
  {
    assert Splice(w.buff, 0, []) == w.buff by {
      assert w.buff[..0] + [] + w.buff[0..] == w.buff;
    }
    assert s.remaining % SIZE_T == s.remaining;
    assert Step(files, s, w) == DataStep(files, s, w)
      == (Accepted(s, Data).(remaining := s.remaining),
          World(w.input[AckPoll(w.input).used..], w.output + Frame(s.blockNum, w.buff[..SMALL_PACKET_BYTES]),
                w.pending[s.current := []], w.buff));
  }

  /**
   * A file whose Read gives no more than is still owed keeps remainingData honest: an ACKed
   * block takes exactly the bytes read off it, it never grows, and the file still has no
   * more to give than is owed.
   */
  lemma HonestFileNeverWraps(files: seq<Source>, s: Session, w: World)
    requires Valid(files, s, w) && s.state == Data && |w.pending[s.current]| <= s.remaining
    ensures var r := Step(files, s, w);
      var n := |w.pending[s.current]| - |r.1.pending[s.current]|;
      && r.0.remaining <= s.remaining
      && (Reply(w) == ACK ==> r.0.remaining == s.remaining - n)
      && (r.0.state == Data ==> |r.1.pending[s.current]| <= r.0.remaining)
  {
    var p := w.pending[s.current];
    var n := Min(MaxRead(files[s.current]), |p|);
    assert (s.remaining - n) % SIZE_T == s.remaining - n;
    var r := Step(files, s, w);
    assert r.1.pending[s.current] == p[n..];
    if Reply(w) == ACK {
      assert r.0 == Accepted(s, if s.remaining - n != 0 then Data else FileDone).(remaining := s.remaining - n);
    } else {
      assert r.0 == Refused(s, Reply(w));
    }
  }

  /**
   * sendData caps the read at the file's Size, not at what is still owed: a 1500-byte file
   * whose Read has 1024 bytes left when 476 are owed sends all 1024, and the ACK leaves
   * remainingData wrapped around to just under 2^64.
   */
  lemma LongFileWraps(name: seq<Byte>, b: Byte, rest: seq<Byte>)
    requires |name| + 6 <= DATA_SIZE
    ensures var files := [Source(name, 1500)];
      var s := Session(Data, b, MAX_RETRIES, Success, 0, 476);
      var w := World([ACK] + rest, [], [Zeros(LARGE_PACKET_BYTES)], Zeros(DATA_SIZE));
      Valid(files, s, w) && Step(files, s, w).0.remaining == SIZE_T - 548
  {
    assert SizeText(1500) == FormatD(1500) == Digits(1500);
    DigitsLength(1500, 4, Pow10(4));
  }

  /*
   * Whole runs.
   */

  /** Whatever the receiver does, a batch ends with SUCCESS, TIMEOUT or CANCEL and never with FAIL. */
  lemma {:induction false} RunNeverFails(files: seq<Source>, s: Session, w: World)
    requires Valid(files, s, w)
    ensures Run(files, s, w).0 != Fail
    decreases |w.input|, s.retriesLeft, Rank(s.state)
  {
    if s.state != End {
      var r := Step(files, s, w);
      RunNeverFails(files, r.0, r.1);
      RunStep(files, s, w);
    }
  }

  /** The sender only appends to the link and only consumes its input and its files. */
  lemma {:induction false} RunAppends(files: seq<Source>, s: Session, w: World)
    requires Valid(files, s, w)
    ensures var f := Run(files, s, w).1;
      && w.output <= f.output
      && Suffix(f.input, w.input)
    decreases |w.input|, s.retriesLeft, Rank(s.state)
  {
    if s.state != End {
      var r := Step(files, s, w);
      StepAppends(files, s, w);
      RunAppends(files, r.0, r.1);
      RunStep(files, s, w);
      SuffixOfSuffix(w.input, r.1.input, Run(files, r.0, r.1).1.input);
    }
  }

  /** One pass only appends to the link and only consumes its input. */
  lemma StepAppends(files: seq<Source>, s: Session, w: World)
    requires Valid(files, s, w) && s.state != End
    ensures var r := Step(files, s, w);
      && w.output <= r.1.output
      && Suffix(r.1.input, w.input)
  {
    match s.state {
      case Start => DropIsSuffix(w.input, StartUsed(w.input));
      case FileName => FileNameAppends(files, s, w);
      case Data => DropIsSuffix(w.input, AckPoll(w.input).used);
      case FileDone => DropIsSuffix(w.input, AckPoll(w.input).used);
      case Canceled =>
    }
  }

  /** FILENAME only appends to the link and only consumes its input. */
  lemma FileNameAppends(files: seq<Source>, s: Session, w: World)
    requires Valid(files, s, w) && s.state == FileName
    ensures var r := FileNameStep(files, s, w);
      && w.output <= r.1.output
      && Suffix(r.1.input, w.input)
  {
    var r := FileNameStep(files, s, w);
    if s.current < |files| {
      var a := AckPoll(w.input);
      var rest := w.input[a.used..];
      DropIsSuffix(w.input, a.used);
      if a.reply == ACK {
        DropIsSuffix(rest, StartUsed(rest));
        SuffixOfSuffix(w.input, rest, r.1.input);
      }
    }
  }

  /**
   * Without a C from the receiver the sender writes nothing: the first wait reads every
   * byte there is, each further wait finds none, and after one more wait than it has
   * retries left the batch ends with TIMEOUT.
   */
  lemma {:induction false} NoStartTimesOut(files: seq<Source>, s: Session, w: World)
    requires Valid(files, s, w) && s.state == Start && C !in w.input
    ensures Run(files, s, w) == (Timeout, w.(input := []))
    decreases s.retriesLeft
  {
    var r := Step(files, s, w);
    assert r.1 == w.(input := []);
    assert Run(files, s, w) == Run(files, r.0, r.1);
    if s.retriesLeft > 0 {
      NoStartTimesOut(files, r.0, r.1);
    }
  }

  /** A fresh sender whose receiver never sends C gives up with TIMEOUT after eleven waits, having written nothing. */
  lemma SilentReceiver(files: seq<Source>, w: World)
    requires Valid(files, Initial, w) && C !in w.input
    ensures Run(files, Initial, w) == (Timeout, w.(input := []))
  {
    NoStartTimesOut(files, Initial, w);
  }

  /**
   * Past the last file, the all-zero header goes out at the current block number and the
   * batch ends with SUCCESS without a reply being read.
   */
  lemma BatchEnd(files: seq<Source>, s: Session, w: World)
    requires Valid(files, s, w) && s.state == FileName && s.current == |files|
    ensures Run(files, s, w)
         == (Success, w.(output := w.output + Frame(s.blockNum, Zeros(SMALL_PACKET_BYTES)), buff := ClearHeader(w.buff)))
  {
    var r := Step(files, s, w);
    assert Run(files, s, w) == Run(files, r.0, r.1);
  }

  /** A CAN in reply to a header, a data block or an EOT ends the batch with CANCEL at once. */
  lemma CanCancels(files: seq<Source>, s: Session, w: World)
    requires Valid(files, s, w) && Waiting(files, s) && Reply(w) == CAN
    ensures Run(files, s, w) == (Cancel, Step(files, s, w).1)
  {
    var r := Step(files, s, w);
    RefusedReply(files, s, w);
    assert r.0.state == Canceled;
    RunStep(files, s, w);
    assert Step(files, r.0, r.1) == (r.0.(state := End, result := Cancel), r.1);
    RunStep(files, r.0, r.1);
  }

  /** When the receiver falls silent after a file's last block, EOT is sent once and once per retry left, and the batch ends with TIMEOUT. */
  lemma {:induction false} SilentAfterEot(files: seq<Source>, s: Session, w: World)
    requires Valid(files, s, w) && s.state == FileDone && w.input == []
    ensures Run(files, s, w) == (Timeout, w.(output := w.output + Repeat([EOT], s.retriesLeft + 1)))
    decreases s.retriesLeft
  {
    var r := Step(files, s, w);
    assert r.1 == w.(output := w.output + [EOT]);
    assert Run(files, s, w) == Run(files, r.0, r.1);
    if s.retriesLeft > 0 {
      assert r.0.state == FileDone && r.0.retriesLeft == s.retriesLeft - 1;
      SilentAfterEot(files, r.0, r.1);
      assert Repeat([EOT], s.retriesLeft + 1) == [EOT] + Repeat([EOT], s.retriesLeft);
      assert w.output + [EOT] + Repeat([EOT], s.retriesLeft) == w.output + Repeat([EOT], s.retriesLeft + 1);
    } else {
      assert r.0.state == End && r.0.result == Timeout;
      assert Repeat([EOT], 1) == [EOT];
    }
  }

  /*
   * A whole batch of one small file.
   */

  /** Run takes one step from any state but END. */
  lemma RunStep(files: seq<Source>, s: Session, w: World)
    requires Valid(files, s, w) && s.state != End
    ensures Run(files, s, w) == Run(files, Step(files, s, w).0, Step(files, s, w).1)
  {
  }

  /** The file list of one file whose name and size fit a small header. */
  predicate SmallFile(name: seq<Byte>, data: seq<Byte>)
  {
    1 <= |data| <= SMALL_PACKET_BYTES && |name| + |SizeText(|data|)| + 2 <= SMALL_PACKET_BYTES
  }

  /** The header buffer and the data buffer of that batch. */
  function HeaderOf(name: seq<Byte>, data: seq<Byte>): (b: seq<Byte>)
    requires SmallFile(name, data)
    ensures |b| == DATA_SIZE
  {
    FillHeader(Zeros(DATA_SIZE), name, SizeText(|data|))
  }

  function BlockOf(name: seq<Byte>, data: seq<Byte>): (b: seq<Byte>)
    requires SmallFile(name, data)
    ensures |b| == DATA_SIZE
  {
    Splice(HeaderOf(name, data), 0, data)
  }

  /** A C at the head of the input: START takes it and moves on to FILENAME at block 0. */
  lemma StartsOnC(files: seq<Source>, s: Session, w: World, rest: seq<Byte>)
    requires Valid(files, s, w) && s.state == Start && w.input == [C] + rest
    ensures Run(files, s, w)
         == Run(files, s.(state := FileName, blockNum := 0, retriesLeft := MAX_RETRIES), w.(input := rest))
  {
    StartAtHead(w.input);
    assert w.input[1..] == rest;
    assert StartStep(files, s, w) == (s.(state := FileName, blockNum := 0, retriesLeft := MAX_RETRIES), w.(input := rest));
    RunStep(files, s, w);
  }

  /** A header answered by ACK and C: DATA follows at the next block, with the file's Size owed. */
  lemma HeaderTaken(files: seq<Source>, s: Session, w: World, rest: seq<Byte>)
    requires Valid(files, s, w) && s.state == FileName && s.current < |files| && w.input == [ACK, C] + rest
    ensures var f := files[s.current];
      var h := FillHeader(w.buff, f.name, SizeText(f.size));
      Run(files, s, w)
        == Run(files, Accepted(s, Data).(remaining := f.size),
               World(rest, w.output + Frame(s.blockNum, h[..SMALL_PACKET_BYTES]), w.pending, h))
  {
    ReplyAtHead(w.input);
    assert w.input[1..] == [C] + rest;
    StartAtHead([C] + rest);
    assert ([C] + rest)[1..] == rest;
    var f := files[s.current];
    var h := FillHeader(w.buff, f.name, SizeText(f.size));
    assert FileNameStep(files, s, w)
        == (Accepted(s, Data).(remaining := f.size),
            World(rest, w.output + Frame(s.blockNum, h[..SMALL_PACKET_BYTES]), w.pending, h));
    RunStep(files, s, w);
  }

  /** A file's whole remaining content as one ACKed small block: FILEDONE follows with nothing owed. */
  lemma LastBlockTaken(files: seq<Source>, s: Session, w: World, rest: seq<Byte>)
    requires Valid(files, s, w) && s.state == Data && w.input == [ACK] + rest
    requires var p := w.pending[s.current];
      0 < |p| == s.remaining <= SMALL_PACKET_BYTES && s.remaining <= files[s.current].size
    ensures var p := w.pending[s.current];
      var b := Splice(w.buff, 0, p);
      Run(files, s, w)
        == Run(files, Accepted(s, FileDone).(remaining := 0),
               World(rest, w.output + Frame(s.blockNum, b[..SMALL_PACKET_BYTES]), w.pending[s.current := []], b))
  {
    var p := w.pending[s.current];
    var n := Min(MaxRead(files[s.current]), |p|);
    assert n == |p| && p[..n] == p && p[n..] == [];
    assert PacketSize(n) == SMALL_PACKET_BYTES && (s.remaining - n) % SIZE_T == 0;
    ReplyAtHead(w.input);
    assert w.input[1..] == rest;
    var b := Splice(w.buff, 0, p);
    var w1 := World(rest, w.output + Frame(s.blockNum, b[..SMALL_PACKET_BYTES]), w.pending[s.current := []], b);
    assert DataStep(files, s, w) == (Accepted(s, FileDone).(remaining := 0), w1);
    RunStep(files, s, w);
  }

  /** An EOT answered by ACK: the next file is taken up from START. */
  lemma EotTaken(files: seq<Source>, s: Session, w: World, rest: seq<Byte>)
    requires Valid(files, s, w) && s.state == FileDone && w.input == [ACK] + rest
    ensures Run(files, s, w)
         == Run(files, s.(state := Start, current := s.current + 1, retriesLeft := MAX_RETRIES),
                w.(input := rest, output := w.output + [EOT]))
  {
    ReplyAtHead(w.input);
    assert w.input[1..] == rest;
    var next := (s.(state := Start, current := s.current + 1, retriesLeft := MAX_RETRIES),
                 w.(input := rest, output := w.output + [EOT]));
    assert FileDoneStep(files, s, w) == next;
    RunStep(files, s, w);
  }

  /** The sender's first two passes: C, then the header and its ACK and C. */
  lemma SendHeader(name: seq<Byte>, data: seq<Byte>, rest: seq<Byte>)
    requires SmallFile(name, data)
    ensures var files := [Source(name, |data|)];
      Run(files, Initial, World([C, ACK, C] + rest, [], [data], Zeros(DATA_SIZE)))
        == Run(files, Session(Data, 1, MAX_RETRIES, Success, 0, |data|),
               World(rest, Frame(0, HeaderOf(name, data)[..SMALL_PACKET_BYTES]), [data], HeaderOf(name, data)))
  {
    var files := [Source(name, |data|)];
    var h0 := Frame(0, HeaderOf(name, data)[..SMALL_PACKET_BYTES]);
    var w0 := World([C, ACK, C] + rest, [], [data], Zeros(DATA_SIZE));
    var s1 := Session(FileName, 0, MAX_RETRIES, Success, 0, 0);
    var w1 := World([ACK, C] + rest, [], [data], Zeros(DATA_SIZE));
    assert w0.input == [C] + w1.input;
    StartsOnC(files, Initial, w0, w1.input);
    HeaderTaken(files, s1, w1, rest);
    assert [] + h0 == h0;
  }

  /** A session of a one-file batch whose counters are in range is one the loop can be in. */
  lemma OneFileValid(files: seq<Source>, s: Session, w: World)
    requires |files| == 1 && Fits(files[0])
    requires |w.pending| == 1 && |w.buff| == DATA_SIZE
    requires s.retriesLeft <= MAX_RETRIES && s.remaining < SIZE_T && s.current <= 1
    requires (s.state == Data || s.state == FileDone ==> s.current == 0)
    requires s.result == Success
    ensures Valid(files, s, w)
  {
  }

  /** The third pass: the whole of a one-file batch in one small block, ACKed. */
  lemma SendBlock(files: seq<Source>, data: seq<Byte>, out: seq<Byte>, buff: seq<Byte>, rest: seq<Byte>)
    requires |files| == 1 && Fits(files[0]) && files[0].size == |data|
    requires 0 < |data| <= SMALL_PACKET_BYTES && |buff| == DATA_SIZE
    ensures var b := Splice(buff, 0, data);
      Run(files, Session(Data, 1, MAX_RETRIES, Success, 0, |data|), World([ACK] + rest, out, [data], buff))
        == Run(files, Session(FileDone, 2, MAX_RETRIES, Success, 0, 0),
               World(rest, out + Frame(1, b[..SMALL_PACKET_BYTES]), [[]], b))
  {
    var s2 := Session(Data, 1, MAX_RETRIES, Success, 0, |data|);
    var w2 := World([ACK] + rest, out, [data], buff);
    var b := Splice(buff, 0, data);
    assert Run(files, s2, w2)
        == Run(files, Session(FileDone, 2, MAX_RETRIES, Success, 0, 0),
               World(rest, out + Frame(1, b[..SMALL_PACKET_BYTES]), [[]], b)) by {
      OneFileValid(files, s2, w2);
      LastBlockTaken(files, s2, w2, rest);
      assert Accepted(s2, FileDone).(remaining := 0) == Session(FileDone, 2, MAX_RETRIES, Success, 0, 0);
      assert [data][0 := []] == [[]];
    }
  }

  /** The sender's first three passes: C, the header and its ACK and C, the data block and its ACK. */
  lemma SendOneBlock(name: seq<Byte>, data: seq<Byte>, rest: seq<Byte>)
    requires SmallFile(name, data)
    ensures var files := [Source(name, |data|)];
      Run(files, Initial, World([C, ACK, C, ACK] + rest, [], [data], Zeros(DATA_SIZE)))
        == Run(files, Session(FileDone, 2, MAX_RETRIES, Success, 0, 0),
               World(rest, Frame(0, HeaderOf(name, data)[..SMALL_PACKET_BYTES])
                             + Frame(1, BlockOf(name, data)[..SMALL_PACKET_BYTES]),
                     [[]], BlockOf(name, data)))
  {
    assert [C, ACK, C, ACK] + rest == [C, ACK, C] + ([ACK] + rest);
    SendHeader(name, data, [ACK] + rest);
    var hb := HeaderOf(name, data);
    SendBlock([Source(name, |data|)], data, Frame(0, hb[..SMALL_PACKET_BYTES]), hb, rest);
  }

  /** The sender's last passes: EOT and its ACK, the C for the next file, and the all-zero header, which ends the batch. */
  lemma CloseOneFile(files: seq<Source>, out: seq<Byte>, buff: seq<Byte>, rest: seq<Byte>)
    requires |files| == 1 && Fits(files[0]) && |buff| == DATA_SIZE
    ensures Run(files, Session(FileDone, 2, MAX_RETRIES, Success, 0, 0), World([ACK, C] + rest, out, [[]], buff))
         == (Success, World(rest, out + [EOT] + Frame(0, Zeros(SMALL_PACKET_BYTES)), [[]], ClearHeader(buff)))
  {
    var s3 := Session(FileDone, 2, MAX_RETRIES, Success, 0, 0);
    var w3 := World([ACK, C] + rest, out, [[]], buff);
    var s4 := Session(Start, 2, MAX_RETRIES, Success, 1, 0);
    var w4 := World([C] + rest, out + [EOT], [[]], buff);
    var s5 := Session(FileName, 0, MAX_RETRIES, Success, 1, 0);
    var w5 := World(rest, out + [EOT], [[]], buff);
    assert Run(files, s3, w3) == Run(files, s4, w4) by {
      assert w3.input == [ACK] + ([C] + rest);
      EotTaken(files, s3, w3, [C] + rest);
    }
    assert Run(files, s4, w4) == Run(files, s5, w5) by {
      StartsOnC(files, s4, w4, rest);
    }
    BatchEnd(files, s5, w5);
  }

  /**
   * A batch of one small file against a receiver that answers C, ACK C, ACK, ACK, C and
   * ACK: the sender writes the file's header at block 0, one small block at block 1 that
   * starts with the file's bytes, EOT, and the all-zero header at block 0, and returns
   * SUCCESS with the receiver's last ACK unread.
   */
  lemma OneFileSend(name: seq<Byte>, data: seq<Byte>)
    requires SmallFile(name, data)
    ensures var files := [Source(name, |data|)];
      var r := Run(files, Initial, World([C, ACK, C, ACK, ACK, C, ACK], [], [data], Zeros(DATA_SIZE)));
      && r.0 == Success && r.1.input == [ACK] && r.1.pending == [[]]
      && r.1.output == Frame(0, HeaderOf(name, data)[..SMALL_PACKET_BYTES])
                       + Frame(1, BlockOf(name, data)[..SMALL_PACKET_BYTES])
                       + [EOT] + Frame(0, Zeros(SMALL_PACKET_BYTES))
  {
    var files := [Source(name, |data|)];
    var rest := [ACK, C, ACK];
    var out := Frame(0, HeaderOf(name, data)[..SMALL_PACKET_BYTES]) + Frame(1, BlockOf(name, data)[..SMALL_PACKET_BYTES]);
    var s3 := Session(FileDone, 2, MAX_RETRIES, Success, 0, 0);
    var w3 := World(rest, out, [[]], BlockOf(name, data));
    assert Run(files, Initial, World([C, ACK, C, ACK, ACK, C, ACK], [], [data], Zeros(DATA_SIZE))) == Run(files, s3, w3) by {
      assert [C, ACK, C, ACK, ACK, C, ACK] == [C, ACK, C, ACK] + rest;
      SendOneBlock(name, data, rest);
    }
    assert rest == [ACK, C] + [ACK];
    CloseOneFile(files, out, BlockOf(name, data), [ACK]);
  }
}
