/**
 * The older sender (ymodem_transmit.c): the same state machine as transmit.c over a
 * different interface. Files are given as an array of names, an array of uint32 sizes and
 * their count, and the data comes from readFunc(name, buff, offset, maxLen), which reads
 * at an offset into the named file. The offset is derived from the bytes still owed, so
 * a refused block is read again from where it started. After the last file the all-zero
 * header is retried like any other until it is ACKed.
 *
 * As for transmit.c, Step is one pass of the loop, Run iterates it, and LegacyTransmit is
 * proved to end where Run ends.
 */
module Legacy {
  import opened Common
  import opened Codec
  import opened Link
  import opened Sender

  /** readFunc: the bytes the caller's function copies into the buffer for (file name, offset, maxLen). */
  type FileRead = (seq<Byte>, nat, nat) -> seq<Byte>

  /** One more than the largest uint32_t. */
  const UINT32: nat := 0x1_0000_0000

  /** One more than the largest uint8_t. */
  const UINT8: nat := 0x100

  /** A readFunc that never copies more than the scratch buffer holds. */
  ghost predicate FitsBuffer(read: FileRead)
  {
    forall name, offset, max :: |read(name, offset, max)| <= LARGE_PACKET_BYTES
  }

  /** A readFunc that never copies more than the maxLen it is given. */
  ghost predicate HonoursMax(read: FileRead)
  {
    forall name, offset, max :: |read(name, offset, max)| <= max
  }

  datatype State = Start | FileName | Data | FileDone | Canceled | End

  /** The loop variables of YModem_Transmit. */
  datatype Session = Session(state: State, blockNum: Byte, retriesLeft: nat, result: Status,
                             fileIndex: nat, remaining: nat)

  /** The link and the scratch buffer. */
  datatype World = World(input: seq<Byte>, output: seq<Byte>, buff: seq<Byte>)

  /** The caller's arguments: fileNames, sizes (numFiles is their length) and readFunc. */
  datatype Batch = Batch(names: seq<seq<Byte>>, sizes: seq<nat>, read: FileRead)

  const Initial: Session := Session(Start, 0, MAX_RETRIES, Success, 0, 0)

  /** Arguments the code can take: numFiles fits its uint8_t, every size its uint32_t, and readFunc stays inside the buffer. */
  ghost predicate WellFormed(b: Batch)
  {
    && |b.names| == |b.sizes| && |b.names| < UINT8
    && (forall i :: 0 <= i < |b.sizes| ==> b.sizes[i] < UINT32)
    && FitsBuffer(b.read)
  }

  /** What holds at the top of every pass of the loop. */
  ghost predicate Valid(b: Batch, s: Session, w: World)
  {
    && WellFormed(b)
    && |w.buff| == DATA_SIZE
    && s.retriesLeft <= MAX_RETRIES && s.remaining < UINT32
    && s.fileIndex <= |b.names|
    && (s.state == Data || s.state == FileDone ==> s.fileIndex < |b.names|)
    && (s.state != End ==> s.result == Success)
    && s.result != Fail
  }

  function Rank(state: State): nat
  {
    if state == End then 0 else 1
  }

  /** One pass made progress: fewer bytes queued, or as many and fewer retries left, or both as before and a lower rank. */
  predicate Progress(s: Session, w: World, s': Session, w': World)
  {
    || |w'.input| < |w.input|
    || (|w'.input| == |w.input| && s'.retriesLeft < s.retriesLeft)
    || (|w'.input| == |w.input| && s'.retriesLeft == s.retriesLeft && Rank(s'.state) < Rank(s.state))
  }

  /*
   * The header.
   */

  /** The bytes of the name sendFileName copies: strlen is kept in a uint8_t, so only its length modulo 256 counts. */
  function CopiedName(name: seq<Byte>): (c: seq<Byte>)
    ensures |c| < UINT8 && |c| <= |name| && c == name[..|c|]
    ensures |name| < UINT8 ==> c == name
  {
    name[..|name| % UINT8]
  }

  /** "%d" of a uint32 size: at most eleven characters. */
  function SizeField(size: nat): (t: seq<Byte>)
    ensures |t| <= 11 && t == SizeText(size)
  {
    FormatDLength(AsInt(size));
    SizeText(size)
  }

  /** The scratch buffer after sendFileName built the header for this name and size in it. */
  function NameHeader(buff: seq<Byte>, name: seq<Byte>, size: nat): (b: seq<Byte>)
    requires |buff| == DATA_SIZE
    ensures |b| == DATA_SIZE
  {
    FillHeader(buff, CopiedName(name), SizeField(size))
  }

  /*
   * One pass of the loop.
   */

  /** A failed wait: one retry is spent, or, with none left, the batch ends with TIMEOUT. */
  function Retried(s: Session): Session
  {
    if s.retriesLeft == 0 then s.(state := End, result := Timeout)
    else s.(retriesLeft := s.retriesLeft - 1)
  }

  /** Any reply other than ACK: CAN cancels, anything else is a failed wait. */
  function Refused(s: Session, reply: Byte): Session
  {
    if reply == CAN then s.(state := Canceled) else Retried(s)
  }

  /** An acknowledged block: the block number moves on and the retry budget is restored. */
  function Accepted(s: Session, next: State): Session
  {
    s.(state := next, blockNum := s.blockNum + 1, retriesLeft := MAX_RETRIES)
  }

  function StartStep(b: Batch, s: Session, w: World): (r: (Session, World))
    requires Valid(b, s, w) && s.state == Start
    ensures Valid(b, r.0, r.1) && Progress(s, w, r.0, r.1)
  {
    var w1 := w.(input := w.input[StartUsed(w.input)..]);
    if C in w.input then (s.(state := FileName, blockNum := 0, retriesLeft := MAX_RETRIES), w1)
    else (Retried(s), w1)
  }

  /** The header sent in FILENAME: the current file's, or the all-zero one once every file is sent. */
  function HeaderBuffer(b: Batch, s: Session, buff: seq<Byte>): (h: seq<Byte>)
    requires WellFormed(b) && s.fileIndex <= |b.names| && |buff| == DATA_SIZE
    ensures |h| == DATA_SIZE
  {
    if s.fileIndex < |b.names| then NameHeader(buff, b.names[s.fileIndex], b.sizes[s.fileIndex])
    else ClearHeader(buff)
  }

  /**
   * FILENAME with the read of line 127 guarded: after the ACK of the all-zero header no
   * size is loaded, and the loop goes to END.
   */
  function FileNameStep(b: Batch, s: Session, w: World): (r: (Session, World))
    requires Valid(b, s, w) && s.state == FileName
    ensures Valid(b, r.0, r.1) && Progress(s, w, r.0, r.1)
  {
    var more := s.fileIndex < |b.names|;
    var h := HeaderBuffer(b, s, w.buff);
    var a := AckPoll(w.input);
    var w1 := World(w.input[a.used..], w.output + Frame(s.blockNum, h[..SMALL_PACKET_BYTES]), h);
    if a.reply == ACK then
      var s1 := Accepted(s, if more then Data else End);
      (if more then s1.(remaining := b.sizes[s.fileIndex]) else s1, w1.(input := w1.input[StartUsed(w1.input)..]))
    else (Refused(s, a.reply), w1)
  }

  /** The offset sendData reads at: the file's size less what is still owed, as a uint32. */
  function Offset(b: Batch, s: Session): nat
    requires s.fileIndex < |b.sizes|
  {
    (b.sizes[s.fileIndex] - s.remaining) % UINT32
  }

  /** The bytes readFunc gives for the current file's next block: at most min(remainingData, 1024) asked for. */
  function Chunk(b: Batch, s: Session): (c: seq<Byte>)
    requires WellFormed(b) && s.fileIndex < |b.names|
    ensures |c| <= LARGE_PACKET_BYTES
  {
    b.read(b.names[s.fileIndex], Offset(b, s), Min(s.remaining, LARGE_PACKET_BYTES))
  }

  function DataStep(b: Batch, s: Session, w: World): (r: (Session, World))
    requires Valid(b, s, w) && s.state == Data
    ensures Valid(b, r.0, r.1) && Progress(s, w, r.0, r.1)
  {
    var chunk := Chunk(b, s);
    var n := |chunk|;
    var buff := Splice(w.buff, 0, chunk);
    var a := AckPoll(w.input);
    var w1 := World(w.input[a.used..], w.output + Frame(s.blockNum, buff[..PacketSize(n)]), buff);
    if a.reply == ACK then
      var left := (s.remaining - n) % UINT32;
      (Accepted(s, if left != 0 then Data else FileDone).(remaining := left), w1)
    else (Refused(s, a.reply), w1)
  }

  /** The frame size for a block of n bytes read: large iff more than a small block was read. */
  function PacketSize(n: nat): nat
  {
    if n > SMALL_PACKET_BYTES then LARGE_PACKET_BYTES else SMALL_PACKET_BYTES
  }

  function FileDoneStep(b: Batch, s: Session, w: World): (r: (Session, World))
    requires Valid(b, s, w) && s.state == FileDone
    ensures Valid(b, r.0, r.1) && Progress(s, w, r.0, r.1)
  {
    var a := AckPoll(w.input);
    var w1 := w.(input := w.input[a.used..], output := w.output + [EOT]);
    if a.reply == ACK then (s.(state := Start, fileIndex := s.fileIndex + 1, retriesLeft := MAX_RETRIES), w1)
    else (Refused(s, a.reply), w1)
  }

  /** One pass of the while (state != END) loop. */
  function Step(b: Batch, s: Session, w: World): (r: (Session, World))
    requires Valid(b, s, w) && s.state != End
    ensures Valid(b, r.0, r.1)
    ensures Progress(s, w, r.0, r.1)
  {
    match s.state
    case Start => StartStep(b, s, w)
    case FileName => FileNameStep(b, s, w)
    case Data => DataStep(b, s, w)
    case FileDone => FileDoneStep(b, s, w)
    case Canceled => (s.(state := End, result := Cancel), w)
  }

  /** The result and the final world of the loop, from session s and world w on. */
  function Run(b: Batch, s: Session, w: World): (Status, World)
    requires Valid(b, s, w)
    decreases |w.input|, s.retriesLeft, Rank(s.state)
  {
    if s.state == End then (s.result, w)
    else
      var r := Step(b, s, w);
      Run(b, r.0, r.1)
  }

  /*
   * Line 127 as written.
   */

  /**
   * What line 127 loads into remainingData after an ACKed header: sizes[fileIndex], read
   * even when fileIndex has reached numFiles; None stands for a read past the array.
   */
  function HeaderAckLoadAsWritten(sizes: seq<nat>, fileIndex: nat): (r: Option<nat>)
    ensures r.Some? <==> fileIndex < |sizes|
    ensures r.Some? ==> r.value == sizes[fileIndex]
  {
    if fileIndex < |sizes| then Some(sizes[fileIndex]) else None
  }

  /*
   * The code, working on the link and the buffer in place.
   */

  /** sendFileName: the header block for this name and size at block blockNum. */
  method SendFileName(modem: Modem, fileName: seq<Byte>, fileSize: nat, buff: array<Byte>, blockNum: Byte)
    requires buff.Length == DATA_SIZE
    modifies modem, buff
    ensures buff[..] == NameHeader(old(buff[..]), fileName, fileSize)
    ensures modem.output == old(modem.output) + Frame(blockNum, buff[..SMALL_PACKET_BYTES])
    ensures modem.input == old(modem.input)
  {
    var fileNameLength := |fileName| % UINT8;
    Put(buff, 0, Zeros(SMALL_PACKET_BYTES));
    Put(buff, 0, fileName[..fileNameLength]);
    Put(buff, fileNameLength + 1, SizeField(fileSize) + [0]);
    SendPacket(modem, buff, SMALL_PACKET_BYTES, blockNum);
  }

  /** sendData: readFunc's bytes for (fileName, offset, min(remainingData, 1024)), framed at block blockNum; returns how many there were. */
  method SendData(modem: Modem, fileName: seq<Byte>, readFunc: FileRead, buff: array<Byte>, offset: nat,
                  remainingData: nat, blockNum: Byte) returns (readBytes: nat)
    requires buff.Length == DATA_SIZE && FitsBuffer(readFunc)
    modifies modem, buff
    ensures var chunk := readFunc(fileName, offset, Min(remainingData, LARGE_PACKET_BYTES));
      && readBytes == |chunk|
      && buff[..] == Splice(old(buff[..]), 0, chunk)
      && modem.output == old(modem.output) + Frame(blockNum, buff[..PacketSize(readBytes)])
      && modem.input == old(modem.input)
  {
    var maxRead := Min(remainingData, LARGE_PACKET_BYTES);
    var chunk := readFunc(fileName, offset, maxRead);
    Put(buff, 0, chunk);
    readBytes := |chunk|;
    SendPacket(modem, buff, if readBytes > SMALL_PACKET_BYTES then LARGE_PACKET_BYTES else SMALL_PACKET_BYTES, blockNum);
  }

  /** The FILENAME case of the loop, with the read of line 127 guarded. */
  method FileNameState(modem: Modem, batch: Batch, buff: array<Byte>, s: Session) returns (t: Session)
    requires buff.Length == DATA_SIZE && s.state == FileName
    requires Valid(batch, s, World(modem.input, modem.output, buff[..]))
    modifies modem, buff
    ensures (t, World(modem.input, modem.output, buff[..]))
         == FileNameStep(batch, s, World(old(modem.input), old(modem.output), old(buff[..])))
  {
    var numFiles := |batch.names|;
    if s.fileIndex < numFiles {
      SendFileName(modem, batch.names[s.fileIndex], batch.sizes[s.fileIndex], buff, s.blockNum);
    } else {
      SendDone(modem, buff, s.blockNum);
      ClearedHeader(old(buff[..]));
    }
    var reply := WaitAck(modem);
    if reply == ACK {
      var _ := WaitStart(modem);
      t := Accepted(s, if s.fileIndex < numFiles then Data else End);
      if s.fileIndex < numFiles {
        t := t.(remaining := batch.sizes[s.fileIndex]);
      }
    } else {
      t := Refused(s, reply);
    }
  }

  /** The DATA case of the loop: the block at the current offset is sent and its reply awaited. */
  method DataState(modem: Modem, batch: Batch, buff: array<Byte>, s: Session) returns (t: Session)
    requires buff.Length == DATA_SIZE && s.state == Data
    requires Valid(batch, s, World(modem.input, modem.output, buff[..]))
    modifies modem, buff
    ensures (t, World(modem.input, modem.output, buff[..]))
         == DataStep(batch, s, World(old(modem.input), old(modem.output), old(buff[..])))
  {
    var i := s.fileIndex;
    var offset := (batch.sizes[i] - s.remaining) % UINT32;
    var sentbytes := SendData(modem, batch.names[i], batch.read, buff, offset, s.remaining, s.blockNum);
    assert sentbytes == |Chunk(batch, s)| && buff[..] == Splice(old(buff[..]), 0, Chunk(batch, s));
    ghost var sent := modem.output;
    var reply := WaitAck(modem);
    assert modem.output == sent;
    if reply == ACK {
      var left := (s.remaining - sentbytes) % UINT32;
      t := Accepted(s, if left != 0 then Data else FileDone).(remaining := left);
    } else {
      t := Refused(s, reply);
    }
  }

  /** The START and FILEDONE cases of the loop: waiting for C, and sending EOT and waiting for its ACK. */
  method WaitState(modem: Modem, batch: Batch, s: Session, ghost buff: seq<Byte>) returns (t: Session)
    requires (s.state == Start || s.state == FileDone) && Valid(batch, s, World(modem.input, modem.output, buff))
    modifies modem
    ensures (t, World(modem.input, modem.output, buff))
         == Step(batch, s, World(old(modem.input), old(modem.output), buff))
  {
    if s.state == Start {
      var found := WaitStart(modem);
      if found {
        t := s.(state := FileName, blockNum := 0, retriesLeft := MAX_RETRIES);
      } else {
        t := Retried(s);
      }
    } else {
      SendFileEnd(modem);
      var reply := WaitAck(modem);
      if reply == ACK {
        t := s.(state := Start, fileIndex := s.fileIndex + 1, retriesLeft := MAX_RETRIES);
      } else {
        t := Refused(s, reply);
      }
    }
  }

  /**
   * YModem_Transmit(fileNames, sizes, numFiles, readFunc): sends the files in order and
   * returns the batch's result. The scratch buffer starts out zeroed.
   */
  method LegacyTransmit(modem: Modem, batch: Batch) returns (result: Status)
    requires WellFormed(batch)
    modifies modem
    ensures var r := Run(batch, Initial, World(old(modem.input), old(modem.output), Zeros(DATA_SIZE)));
      result == r.0 && modem.input == r.1.input && modem.output == r.1.output
  {
    var buff := new Byte[DATA_SIZE](_ => 0);
    var s := Initial;
    ghost var start := World(modem.input, modem.output, buff[..]);
    assert buff[..] == Zeros(DATA_SIZE);
    while s.state != End
      invariant buff.Length == DATA_SIZE
      invariant Valid(batch, s, World(modem.input, modem.output, buff[..]))
      invariant Run(batch, s, World(modem.input, modem.output, buff[..])) == Run(batch, Initial, start)
      decreases |modem.input|, s.retriesLeft, Rank(s.state)
    {
      ghost var w := World(modem.input, modem.output, buff[..]);
      ghost var next := Step(batch, s, w);
      match s.state {
        case Start =>
          s := WaitState(modem, batch, s, buff[..]);
        case FileName =>
          s := FileNameState(modem, batch, buff, s);
        case Data =>
          s := DataState(modem, batch, buff, s);
        case FileDone =>
          s := WaitState(modem, batch, s, buff[..]);
        case Canceled =>
          s := s.(state := End, result := Cancel);
      }
      assert (s, World(modem.input, modem.output, buff[..])) == next;
    }
    result := s.result;
  }
}
