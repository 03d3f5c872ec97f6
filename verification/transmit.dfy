/**
 * The sending side of a batch (transmit.c). YModem_Transmit waits for the receiver's C,
 * sends each file of its list as a header block and data blocks read through the file's
 * Read capability, closes each file with EOT, and ends the batch with an all-zero header
 * once it reaches the entry whose name is NULL.
 *
 * As on the receiving side, one pass of the loop is Step, a function of the session (the
 * loop's variables) and the world (the link, what each file still has to give, and the
 * scratch buffer); Run iterates it until END, and the method Transmit is proved to end
 * where Run ends.
 */
module Transmit {
  import opened Common
  import opened Codec
  import opened Link
  import opened Sender

  /** Where sent files come from: pending[i] is what the Read capability of list entry i has still to give. */
  class Sources {
    var pending: seq<seq<Byte>>

    constructor (contents: seq<seq<Byte>>)
      ensures pending == contents
    {
      pending := contents;
    }

    /** file->Read(buff, max) for list entry i: the next bytes of the file, at most max of them, into the front of buff. */
    method Read(i: nat, buff: array<Byte>, max: nat) returns (n: nat)
      requires i < |pending| && max <= buff.Length
      modifies this, buff
      ensures n == Min(max, |old(pending)[i]|)
      ensures pending == old(pending)[i := old(pending)[i][n..]]
      ensures buff[..] == Splice(old(buff[..]), 0, old(pending)[i][..n])
    {
      n := Min(max, |pending[i]|);
      Put(buff, 0, pending[i][..n]);
      pending := pending[i := pending[i][n..]];
    }
  }

  /** An entry of the file list: its name (the bytes before the NUL) and its Size. */
  datatype Source = Source(name: seq<Byte>, size: nat)

  datatype State = Start | FileName | Data | FileDone | Canceled | End

  /** The loop variables of YModem_Transmit; current is the index currentFile points at. */
  datatype Session = Session(state: State, blockNum: Byte, retriesLeft: nat, result: Status,
                             current: nat, remaining: nat)

  /** The link, what each file's Read has still to give, and the scratch buffer. */
  datatype World = World(input: seq<Byte>, output: seq<Byte>, pending: seq<seq<Byte>>, buff: seq<Byte>)

  const Initial: Session := Session(Start, 0, MAX_RETRIES, Success, 0, 0)

  /** One more than the largest size_t, taken to be 64 bits wide. */
  const SIZE_T: nat := 0x1_0000_0000_0000_0000

  /**
   * An entry sendFileInfo can handle: its Size is a size_t, and the name, a NUL, the size
   * text and the NUL sprintf writes after it fit in the scratch buffer.
   */
  predicate Fits(f: Source)
  {
    f.size < SIZE_T && |f.name| + |SizeText(f.size)| + 2 <= DATA_SIZE
  }

  /** What holds at the top of every pass of the loop. */
  predicate Valid(files: seq<Source>, s: Session, w: World)
  {
    && (forall i :: 0 <= i < |files| ==> Fits(files[i]))
    && |w.pending| == |files| && |w.buff| == DATA_SIZE
    && s.retriesLeft <= MAX_RETRIES && s.remaining < SIZE_T
    && s.current <= |files|
    && (s.state == Data || s.state == FileDone ==> s.current < |files|)
    && (s.state != End ==> s.result == Success)
    && s.result != Fail
  }

  function Rank(state: State): nat
  {
    if state == End then 0 else 1
  }

  /** One pass made progress: fewer bytes queued, or as many and fewer retries left, or both as before and a lower rank. */
  predicate Progress(s: Session, w: World, s': Session, w': World)
  {
    || |w'.input| < |w.input|
    || (|w'.input| == |w.input| && s'.retriesLeft < s.retriesLeft)
    || (|w'.input| == |w.input| && s'.retriesLeft == s.retriesLeft && Rank(s'.state) < Rank(s.state))
  }

  /*
   * One pass of the loop.
   */

  /** A failed wait: one retry is spent, or, with none left, the batch ends with TIMEOUT. */
  function Retried(s: Session): Session
  {
    if s.retriesLeft == 0 then s.(state := End, result := Timeout)
    else s.(retriesLeft := s.retriesLeft - 1)
  }

  /** Any reply to a frame or an EOT other than ACK: CAN cancels, anything else (NAK, another byte, none) is a failed wait. */
  function Refused(s: Session, reply: Byte): Session
  {
    if reply == CAN then s.(state := Canceled) else Retried(s)
  }

  /** An acknowledged block: the block number moves on and the retry budget is restored. */
  function Accepted(s: Session, next: State): Session
  {
    s.(state := next, blockNum := s.blockNum + 1, retriesLeft := MAX_RETRIES)
  }

  function StartStep(files: seq<Source>, s: Session, w: World): (r: (Session, World))
    requires Valid(files, s, w) && s.state == Start
    ensures Valid(files, r.0, r.1) && Progress(s, w, r.0, r.1)
  {
    var w1 := w.(input := w.input[StartUsed(w.input)..]);
    if C in w.input then (s.(state := FileName, blockNum := 0, retriesLeft := MAX_RETRIES), w1)
    else (Retried(s), w1)
  }

  function FileNameStep(files: seq<Source>, s: Session, w: World): (r: (Session, World))
    requires Valid(files, s, w) && s.state == FileName
    ensures Valid(files, r.0, r.1) && Progress(s, w, r.0, r.1)
  {
    if s.current == |files| then
      var b := ClearHeader(w.buff);
      (s.(state := End), w.(output := w.output + Frame(s.blockNum, Zeros(SMALL_PACKET_BYTES)), buff := b))
    else
      var f := files[s.current];
      var b := FillHeader(w.buff, f.name, SizeText(f.size));
      var a := AckPoll(w.input);
      var w1 := w.(input := w.input[a.used..], output := w.output + Frame(s.blockNum, b[..SMALL_PACKET_BYTES]), buff := b);
      if a.reply == ACK then
        (Accepted(s, Data).(remaining := f.size), w1.(input := w1.input[StartUsed(w1.input)..]))
      else (Refused(s, a.reply), w1)
  }

  /** The bytes sendData asks the current file for: at most its Size, at most a large block. */
  function MaxRead(f: Source): nat
  {
    Min(f.size, LARGE_PACKET_BYTES)
  }

  /** The frame size for a block of n bytes read: large iff more than a small block was read. */
  function PacketSize(n: nat): nat
  {
    if n > SMALL_PACKET_BYTES then LARGE_PACKET_BYTES else SMALL_PACKET_BYTES
  }

  function DataStep(files: seq<Source>, s: Session, w: World): (r: (Session, World))
    requires Valid(files, s, w) && s.state == Data
    ensures Valid(files, r.0, r.1) && Progress(s, w, r.0, r.1)
  {
    var p := w.pending[s.current];
    var n := Min(MaxRead(files[s.current]), |p|);
    var b := Splice(w.buff, 0, p[..n]);
    var a := AckPoll(w.input);
    var w1 := World(w.input[a.used..], w.output + Frame(s.blockNum, b[..PacketSize(n)]),
                    w.pending[s.current := p[n..]], b);
    if a.reply == ACK then
      var left := (s.remaining - n) % SIZE_T;
      (Accepted(s, if left != 0 then Data else FileDone).(remaining := left), w1)
    else (Refused(s, a.reply), w1)
  }

  function FileDoneStep(files: seq<Source>, s: Session, w: World): (r: (Session, World))
    requires Valid(files, s, w) && s.state == FileDone
    ensures Valid(files, r.0, r.1) && Progress(s, w, r.0, r.1)
  {
    var a := AckPoll(w.input);
    var w1 := w.(input := w.input[a.used..], output := w.output + [EOT]);
    if a.reply == ACK then (s.(state := Start, current := s.current + 1, retriesLeft := MAX_RETRIES), w1)
    else (Refused(s, a.reply), w1)
  }

  /** One pass of the while (state != END) loop. */
  function Step(files: seq<Source>, s: Session, w: World): (r: (Session, World))
    requires Valid(files, s, w) && s.state != End
    ensures Valid(files, r.0, r.1)
    ensures Progress(s, w, r.0, r.1)
  {
    match s.state
    case Start => StartStep(files, s, w)
    case FileName => FileNameStep(files, s, w)
    case Data => DataStep(files, s, w)
    case FileDone => FileDoneStep(files, s, w)
    case Canceled => (s.(state := End, result := Cancel), w)
  }

  /** The result and the final world of the loop, from session s and world w on. */
  function Run(files: seq<Source>, s: Session, w: World): (Status, World)
    requires Valid(files, s, w)
    decreases |w.input|, s.retriesLeft, Rank(s.state)
  {
    if s.state == End then (s.result, w)
    else
      var r := Step(files, s, w);
      Run(files, r.0, r.1)
  }

  /*
   * The code, working on the link, the files and the buffer in place.
   */

  /** sendFileInfo: the header block for file f (name, NUL, "%d" of its size, zeros) at block blockNum. */
  method SendFileInfo(modem: Modem, f: Source, buff: array<Byte>, blockNum: Byte)
    requires buff.Length == DATA_SIZE && Fits(f)
    modifies modem, buff
    ensures buff[..] == FillHeader(old(buff[..]), f.name, SizeText(f.size))
    ensures modem.output == old(modem.output) + Frame(blockNum, buff[..SMALL_PACKET_BYTES])
    ensures modem.input == old(modem.input)
  {
    Put(buff, 0, Zeros(SMALL_PACKET_BYTES));
    Put(buff, 0, f.name);
    Put(buff, |f.name| + 1, SizeText(f.size) + [0]);
    SendPacket(modem, buff, SMALL_PACKET_BYTES, blockNum);
  }

  /** sendData: the next chunk of file i, at most min(Size, 1024) bytes, framed at block blockNum; returns how many bytes were read. */
  method SendData(modem: Modem, sources: Sources, i: nat, f: Source, buff: array<Byte>, blockNum: Byte)
    returns (readBytes: nat)
    requires buff.Length == DATA_SIZE && i < |sources.pending|
    modifies modem, sources, buff
    ensures readBytes == Min(MaxRead(f), |old(sources.pending)[i]|)
    ensures sources.pending == old(sources.pending)[i := old(sources.pending)[i][readBytes..]]
    ensures buff[..] == Splice(old(buff[..]), 0, old(sources.pending)[i][..readBytes])
    ensures modem.output == old(modem.output) + Frame(blockNum, buff[..PacketSize(readBytes)])
    ensures modem.input == old(modem.input)
  {
    var maxRead := Min(f.size, LARGE_PACKET_BYTES);
    readBytes := sources.Read(i, buff, maxRead);
    SendPacket(modem, buff, if readBytes > SMALL_PACKET_BYTES then LARGE_PACKET_BYTES else SMALL_PACKET_BYTES, blockNum);
  }

  /** The START case of the loop: the receiver's C is awaited. */
  method StartState(modem: Modem, files: seq<Source>, s: Session, ghost pending: seq<seq<Byte>>, ghost buff: seq<Byte>)
    returns (t: Session)
    requires s.state == Start && Valid(files, s, World(modem.input, modem.output, pending, buff))
    modifies modem
    ensures (t, World(modem.input, modem.output, pending, buff))
         == StartStep(files, s, World(old(modem.input), old(modem.output), pending, buff))
  {
    var found := WaitStart(modem);
    if found {
      t := s.(state := FileName, blockNum := 0, retriesLeft := MAX_RETRIES);
    } else {
      t := Retried(s);
    }
  }

  /** The FILENAME case of the loop: the current file's header, or the end-of-batch header after the last file. */
  method FileNameState(modem: Modem, files: seq<Source>, buff: array<Byte>, s: Session, ghost pending: seq<seq<Byte>>)
    returns (t: Session)
    requires buff.Length == DATA_SIZE && s.state == FileName
    requires Valid(files, s, World(modem.input, modem.output, pending, buff[..]))
    modifies modem, buff
    ensures (t, World(modem.input, modem.output, pending, buff[..]))
         == FileNameStep(files, s, World(old(modem.input), old(modem.output), pending, old(buff[..])))
  {
    if s.current == |files| {
      SendDone(modem, buff, s.blockNum);
      t := s.(state := End);
      return;
    }
    var f := files[s.current];
    SendFileInfo(modem, f, buff, s.blockNum);
    var reply := WaitAck(modem);
    if reply == ACK {
      var _ := WaitStart(modem);
      t := Accepted(s, Data).(remaining := f.size);
    } else {
      t := Refused(s, reply);
    }
  }

  /** The DATA case of the loop: the next chunk of the current file is sent and its reply awaited. */
  method DataState(modem: Modem, sources: Sources, files: seq<Source>, buff: array<Byte>, s: Session)
    returns (t: Session)
    requires buff.Length == DATA_SIZE && s.state == Data
    requires Valid(files, s, World(modem.input, modem.output, sources.pending, buff[..]))
    modifies modem, sources, buff
    ensures (t, World(modem.input, modem.output, sources.pending, buff[..]))
         == DataStep(files, s, World(old(modem.input), old(modem.output), old(sources.pending), old(buff[..])))
  {
    var sentbytes := SendData(modem, sources, s.current, files[s.current], buff, s.blockNum);
    var reply := WaitAck(modem);
    if reply == ACK {
      var left := (s.remaining - sentbytes) % SIZE_T;
      t := Accepted(s, if left != 0 then Data else FileDone).(remaining := left);
    } else {
      t := Refused(s, reply);
    }
  }

  /** The FILEDONE case of the loop: EOT is sent and its acknowledgement awaited. */
  method FileDoneState(modem: Modem, files: seq<Source>, s: Session, ghost pending: seq<seq<Byte>>, ghost buff: seq<Byte>)
    returns (t: Session)
    requires s.state == FileDone && Valid(files, s, World(modem.input, modem.output, pending, buff))
    modifies modem
    ensures (t, World(modem.input, modem.output, pending, buff))
         == FileDoneStep(files, s, World(old(modem.input), old(modem.output), pending, buff))
  {
    SendFileEnd(modem);
    var reply := WaitAck(modem);
    if reply == ACK {
      t := s.(state := Start, current := s.current + 1, retriesLeft := MAX_RETRIES);
    } else {
      t := Refused(s, reply);
    }
  }

  /**
   * YModem_Transmit: sends the files of the list in order and returns the batch's result.
   * The scratch buffer starts out zeroed.
   */
  method Transmit(modem: Modem, sources: Sources, files: seq<Source>) returns (result: Status)
    requires |sources.pending| == |files|
    requires forall i :: 0 <= i < |files| ==> Fits(files[i])
    modifies modem, sources
    ensures var r := Run(files, Initial, World(old(modem.input), old(modem.output), old(sources.pending), Zeros(DATA_SIZE)));
      && result == r.0
      && modem.input == r.1.input && modem.output == r.1.output && sources.pending == r.1.pending
  {
    var buff := new Byte[DATA_SIZE](_ => 0);
    var s := Initial;
    ghost var start := World(modem.input, modem.output, sources.pending, buff[..]);
    assert buff[..] == Zeros(DATA_SIZE);
    while s.state != End
      invariant buff.Length == DATA_SIZE
      invariant Valid(files, s, World(modem.input, modem.output, sources.pending, buff[..]))
      invariant Run(files, s, World(modem.input, modem.output, sources.pending, buff[..])) == Run(files, Initial, start)
      decreases |modem.input|, s.retriesLeft, Rank(s.state)
    {
      ghost var w := World(modem.input, modem.output, sources.pending, buff[..]);
      ghost var next := Step(files, s, w);
      match s.state {
        case Start =>
          s := StartState(modem, files, s, sources.pending, buff[..]);
        case FileName =>
          s := FileNameState(modem, files, buff, s, sources.pending);
        case Data =>
          s := DataState(modem, sources, files, buff, s);
        case FileDone =>
          s := FileDoneState(modem, files, s, sources.pending, buff[..]);
        case Canceled =>
          s := s.(state := End, result := Cancel);
      }
      assert (s, World(modem.input, modem.output, sources.pending, buff[..])) == next;
    }
    result := s.result;
  }
}
