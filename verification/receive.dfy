/**
 * The receiving side of a batch (receive.c). YModem_Receive asks for a header, matches it
 * against the caller's manifest, takes data blocks into the matched file's Write capability
 * and acknowledges the end of each file, until the empty header, a cancel, or a run of
 * failures ends the batch.
 *
 * The loop's bookkeeping for one pass is given by Step, a function of the session (the
 * loop's local variables) and the world (the link and the files); Run iterates it until
 * END. The method Receive does the same work on the link and the files in place and is
 * proved to end where Run ends.
 */
module Receive {
  import opened Common
  import opened Codec
  import opened Link

  /** Where received files go: files[i] is everything the Write capability of manifest entry i was given. */
  class Sinks {
    var files: seq<seq<Byte>>

    constructor (count: nat)
      ensures files == seq(count, _ => [])
    {
      files := seq(count, _ => []);
    }

    /** file->Write for manifest entry i; it takes all the bytes it is given. */
    method Write(i: nat, bytes: seq<Byte>) returns (n: nat)
      requires i < |files|
      modifies this
      ensures n == |bytes|
      ensures files == old(files)[i := old(files)[i] + bytes]
    {
      files := files[i := files[i] + bytes];
      n := |bytes|;
    }
  }

  /** A manifest entry: a file name and the largest size accepted under that name. */
  datatype Entry = Entry(name: seq<Byte>, size: nat)

  datatype State = Start | FileName | Data | FileDone | Canceled | End

  /**
   * The loop variables of YModem_Receive. currentFile is a copy of one manifest entry:
   * target says which one, remaining is the copy's Size.
   */
  datatype Session = Session(state: State, blockNum: Byte, retriesLeft: nat, result: Status,
                             target: nat, remaining: nat)

  /** The link (bytes still to read, bytes written) and the contents of the manifest's files. */
  datatype World = World(input: seq<Byte>, output: seq<Byte>, files: seq<seq<Byte>>)

  const Initial: Session := Session(Start, 0, MAX_RETRIES, Success, 0, 0)

  /** What holds at the top of every pass of the loop. */
  predicate Valid(m: seq<Entry>, s: Session, w: World)
  {
    && |w.files| == |m|
    && s.retriesLeft <= MAX_RETRIES
    && (s.state == Data ==> s.target < |m|)
    && (s.state != End ==> s.result == Success)
    && s.result != Fail
  }

  function Rank(state: State): nat
  {
    match state
    case Start => 2
    case End => 0
    case _ => 1
  }

  /** One pass made progress: fewer bytes queued, or as many and fewer retries left, or both as before and a lower rank. */
  predicate Progress(s: Session, w: World, s': Session, w': World)
  {
    || |w'.input| < |w.input|
    || (|w'.input| == |w.input| && s'.retriesLeft < s.retriesLeft)
    || (|w'.input| == |w.input| && s'.retriesLeft == s.retriesLeft && Rank(s'.state) < Rank(s.state))
  }

  /*
   * The manifest.
   */

  /** Entry e takes a file of this name and declared size. */
  predicate Admits(e: Entry, name: seq<Byte>, size: nat)
  {
    e.name == name && size <= e.size
  }

  /** The first entry, from index from on, that takes the file. */
  function FindEntry(m: seq<Entry>, name: seq<Byte>, size: nat, from: nat := 0): (r: Option<nat>)
    requires from <= |m|
    ensures r.Some? ==> from <= r.value < |m| && Admits(m[r.value], name, size)
    ensures r.Some? ==> forall j :: from <= j < r.value ==> !Admits(m[j], name, size)
    ensures r.None? ==> forall j :: from <= j < |m| ==> !Admits(m[j], name, size)
    decreases |m| - from
  {
    if from == |m| then None
    else if Admits(m[from], name, size) then Some(from)
    else FindEntry(m, name, size, from + 1)
  }

  /*
   * One pass of the loop.
   */

  /** A packet or EOT was accepted: the block number moves on and the retry budget is restored. */
  function Accepted(s: Session, next: State): Session
  {
    s.(state := next, blockNum := s.blockNum + 1, retriesLeft := MAX_RETRIES)
  }

  /** A failure or timeout: one retry is spent and the loop goes to again, or, with none left, the batch ends with TIMEOUT. */
  function Retried(s: Session, again: State): Session
  {
    if s.retriesLeft == 0 then s.(state := End, result := Timeout)
    else s.(state := again, retriesLeft := s.retriesLeft - 1)
  }

  function StartStep(s: Session, w: World): (Session, World)
  {
    (s.(state := FileName, blockNum := 0), w.(output := w.output + [C]))
  }

  function FileNameStep(m: seq<Entry>, s: Session, w: World): (r: (Session, World))
    requires Valid(m, s, w) && s.state == FileName
    ensures Valid(m, r.0, r.1) && Progress(s, w, r.0, r.1)
  {
    var p := ParsePacket(w.input, s.blockNum);
    var w1 := w.(input := w.input[p.used..]);
    match p.status
    case Success =>
      var acked := Accepted(s, End);
      var w2 := w1.(output := w1.output + [ACK]);
      (match FindEntry(m, HeaderName(p.payload), HeaderSize(p.payload))
       case Some(i) =>
         (acked.(state := Data, target := i, remaining := m[i].size), w2.(output := w2.output + [C]))
       case None =>
         (acked, w2))
    case Cancel =>
      (s.(state := Canceled), w1)
    case _ =>
      (Retried(s, Start), w1.(output := w1.output + [NAK]))
  }

  function DataStep(s: Session, w: World): (r: (Session, World))
    requires s.state == Data && s.target < |w.files| && s.result == Success && s.retriesLeft <= MAX_RETRIES
    ensures |r.1.files| == |w.files| && r.0.target == s.target && r.0.retriesLeft <= MAX_RETRIES
    ensures r.0.state != End ==> r.0.result == Success
    ensures r.0.result != Fail
    ensures Progress(s, w, r.0, r.1)
  {
    var p := ParsePacket(w.input, s.blockNum);
    var w1 := w.(input := w.input[p.used..]);
    match p.status
    case Success =>
      var n := Min(p.size, s.remaining);
      var left := s.remaining - n;
      (Accepted(s, if left != 0 then Data else FileDone).(remaining := left),
       w1.(output := w1.output + [ACK],
           files := w1.files[s.target := w1.files[s.target] + p.payload[..n]]))
    case Cancel =>
      (s.(state := Canceled), w1)
    case _ =>
      (Retried(s, Data), w1.(output := w1.output + [NAK]))
  }

  function FileDoneStep(s: Session, w: World): (r: (Session, World))
    requires s.state == FileDone && s.result == Success && s.retriesLeft <= MAX_RETRIES
    ensures |r.1.files| == |w.files| && r.0.retriesLeft <= MAX_RETRIES
    ensures r.0.state != Data && (r.0.state != End ==> r.0.result == Success) && r.0.result != Fail
    ensures Progress(s, w, r.0, r.1)
  {
    var e := ParseFileEnd(w.input);
    var w1 := w.(input := w.input[e.used..]);
    if e.status == Success then (Accepted(s, Start), w1.(output := w1.output + [ACK]))
    else (Retried(s, FileDone), w1.(output := w1.output + [NAK]))
  }

  /** One pass of the while (state != END) loop. */
  function Step(m: seq<Entry>, s: Session, w: World): (r: (Session, World))
    requires Valid(m, s, w) && s.state != End
    ensures Valid(m, r.0, r.1)
    ensures Progress(s, w, r.0, r.1)
  {
    match s.state
    case Start => StartStep(s, w)
    case FileName => FileNameStep(m, s, w)
    case Data => DataStep(s, w)
    case FileDone => FileDoneStep(s, w)
    case Canceled => (s.(state := End, result := Cancel), w)
  }

  /** The result and the final world of the loop, from session s and world w on. */
  function Run(m: seq<Entry>, s: Session, w: World): (Status, World)
    requires Valid(m, s, w)
    decreases |w.input|, s.retriesLeft, Rank(s.state)
  {
    if s.state == End then (s.result, w)
    else
      var r := Step(m, s, w);
      Run(m, r.0, r.1)
  }

  /*
   * The code, working on the link and the files in place.
   */

  /** receiveTimeout: reads until recvLen bytes have arrived or nothing more comes; succeeds iff all of them arrived. */
  method ReceiveTimeout(modem: Modem, buff: array<Byte>, recvLen: nat) returns (ok: bool)
    requires recvLen <= buff.Length
    modifies modem, buff
    ensures var k := Min(recvLen, |old(modem.input)|);
      && ok == (k == recvLen)
      && modem.input == old(modem.input)[k..]
      && modem.output == old(modem.output)
      && buff[..] == Splice(old(buff[..]), 0, old(modem.input)[..k])
  {
    ghost var q, b := modem.input, buff[..];
    var recved := 0;
    while recved != recvLen && modem.input != []
      invariant recved <= recvLen && recved <= |q|
      invariant modem.input == q[recved..]
      invariant modem.output == old(modem.output)
      invariant buff[..] == Splice(b, 0, q[..recved])
      decreases recvLen - recved
    {
      ghost var before := buff[..];
      var n := modem.Read(buff, recved, recvLen - recved);
      ReadOn(b, q, recved, n);
      assert buff[..] == Splice(before, recved, q[recved..recved + n]);
      recved := recved + n;
    }
    assert recved == Min(recvLen, |q|) by {
      assert recved == recvLen || |q[recved..]| == 0;
    }
    ok := recved == recvLen;
  }

  /** The next n queued bytes, read in after the first done of them, extend what the buffer holds. */
  lemma ReadOn(b: seq<Byte>, q: seq<Byte>, done: nat, n: nat)
    requires done + n <= |q| && done + n <= |b|
    ensures q[done..][..n] == q[done..done + n] && q[done..][n..] == q[done + n..]
    ensures Splice(Splice(b, 0, q[..done]), done, q[done..done + n]) == Splice(b, 0, q[..done + n])
  {
    SpliceAfter(b, q[..done], q[done..done + n]);
    assert q[..done] + q[done..done + n] == q[..done + n];
  }

  /** What is left of q after the bytes before position at were read and a flush was started there. */
  lemma FlushFrom(q: seq<Byte>, at: nat)
    requires at <= |q|
    ensures q[at..][Min(DATA_SIZE, |q[at..]|)..] == q[Flushed(q, at)..]
  {
  }

  /** receivePacket: one frame, expected to carry block blockNum. */
  method ReceivePacket(modem: Modem, buff: array<Byte>, blockNum: Byte) returns (status: Status, dataSize: nat)
    requires buff.Length == DATA_SIZE
    modifies modem, buff
    ensures var r := ParsePacket(old(modem.input), blockNum);
      && status == r.status && dataSize == r.size
      && modem.input == old(modem.input)[r.used..]
      && modem.output == old(modem.output)
      && (status == Success ==> buff[..dataSize] == r.payload)
  {
    ghost var q := modem.input;
    dataSize := 0;
    var ok := ReceiveTimeout(modem, buff, 1);
    if !ok {
      return Timeout, dataSize;
    }
    SpliceAt(old(buff[..]), 0, q[..1], 0);
    var control := buff[0];
    assert control == q[0] && modem.input == q[1..];
    if control == CAN {
      ok := ReceiveTimeout(modem, buff, DATA_SIZE);  // flush
      FlushFrom(q, 1);
      return Cancel, dataSize;
    } else if control == STX {
      dataSize := LARGE_PACKET_BYTES;
    } else if control == SOH {
      dataSize := SMALL_PACKET_BYTES;
    } else {
      ok := ReceiveTimeout(modem, buff, DATA_SIZE);  // flush
      FlushFrom(q, 1);
      return Timeout, dataSize;
    }
    status := ReceiveBlock(modem, buff, blockNum, dataSize, q);
  }

  /** The rest of receivePacket once the control byte q[0] announced a block of dataSize bytes. */
  method ReceiveBlock(modem: Modem, buff: array<Byte>, blockNum: Byte, dataSize: nat, ghost q: seq<Byte>)
    returns (status: Status)
    requires buff.Length == DATA_SIZE
    requires q != [] && (q[0] == STX || q[0] == SOH) && dataSize == BlockSize(q[0])
    requires modem.input == q[1..]
    modifies modem, buff
    ensures var r := ParsePacket(q, blockNum);
      && status == r.status && dataSize == r.size
      && modem.input == q[r.used..]
      && modem.output == old(modem.output)
      && (status == Success ==> buff[..dataSize] == r.payload)
  {
    ghost var b0 := buff[..];
    var ok := ReceiveTimeout(modem, buff, 2);
    if !ok {
      return Timeout;
    }
    assert q[1..][..2] == q[1..3] && q[1..][2..] == q[3..];
    SpliceAt(b0, 0, q[1..3], 0);
    SpliceAt(b0, 0, q[1..3], 1);
    if buff[0] != blockNum && buff[1] != !blockNum {
      ok := ReceiveTimeout(modem, buff, DATA_SIZE);  // flush
      FlushFrom(q, 3);
      return Fail;
    }
    status := ReceivePayload(modem, buff, dataSize, q);
  }

  /** The payload and CRC reads of receivePacket, once the block number was let through. */
  method ReceivePayload(modem: Modem, buff: array<Byte>, dataSize: nat, ghost q: seq<Byte>)
    returns (status: Status)
    requires buff.Length == DATA_SIZE
    requires |q| >= 3 && (q[0] == STX || q[0] == SOH) && dataSize == BlockSize(q[0])
    requires modem.input == q[3..]
    modifies modem, buff
    ensures status != Cancel
    ensures |q| < 5 + dataSize ==> status == Timeout && modem.input == []
    ensures |q| >= 5 + dataSize && Crc16(q[3..3 + dataSize]) != Word(q[3 + dataSize], q[4 + dataSize]) ==>
      status == Fail && modem.input == q[Flushed(q, 5 + dataSize)..]
    ensures |q| >= 5 + dataSize && Crc16(q[3..3 + dataSize]) == Word(q[3 + dataSize], q[4 + dataSize]) ==>
      status == Success && modem.input == q[5 + dataSize..] && buff[..dataSize] == q[3..3 + dataSize]
    ensures modem.output == old(modem.output)
  {
    ghost var b0 := buff[..];
    var ok := ReceiveTimeout(modem, buff, dataSize);
    if !ok {
      return Timeout;
    }
    assert q[3..][..dataSize] == q[3..3 + dataSize] && q[3..][dataSize..] == q[3 + dataSize..];
    assert buff[..dataSize] == q[3..3 + dataSize];
    var crcBytes := new Byte[2];
    ghost var c0 := crcBytes[..];
    ok := ReceiveTimeout(modem, crcBytes, 2);
    if !ok {
      return Timeout;
    }
    assert q[3 + dataSize..][..2] == q[3 + dataSize..5 + dataSize];
    assert q[3 + dataSize..][2..] == q[5 + dataSize..];
    SpliceAt(c0, 0, q[3 + dataSize..5 + dataSize], 0);
    SpliceAt(c0, 0, q[3 + dataSize..5 + dataSize], 1);
    var crc := Word(crcBytes[0], crcBytes[1]);
    if Crc16(buff[..dataSize]) != crc {
      ok := ReceiveTimeout(modem, buff, DATA_SIZE);  // flush
      FlushFrom(q, 5 + dataSize);
      return Fail;
    }
    return Success;
  }

  /** receiveFileInfo: a header block, split into the file name and the declared size. */
  method ReceiveFileInfo(modem: Modem, buff: array<Byte>, blockNum: Byte)
    returns (status: Status, name: seq<Byte>, size: nat)
    requires buff.Length == DATA_SIZE
    modifies modem, buff
    ensures var r := ParsePacket(old(modem.input), blockNum);
      && status == r.status
      && modem.input == old(modem.input)[r.used..]
      && modem.output == old(modem.output)
      && (status == Success ==> name == HeaderName(r.payload) && size == HeaderSize(r.payload))
  {
    var dataSize;
    status, dataSize := ReceivePacket(modem, buff, blockNum);
    name, size := [], 0;
    if status == Success {
      name := HeaderName(buff[..dataSize]);
      size := HeaderSize(buff[..dataSize]);
    }
  }

  /**
   * receiveData: a data block, of which at most the remaining size of the current file is
   * handed to its Write capability; the remaining size drops by what Write took.
   */
  method ReceiveData(modem: Modem, sinks: Sinks, target: nat, remaining: nat, buff: array<Byte>, blockNum: Byte)
    returns (status: Status, left: nat)
    requires buff.Length == DATA_SIZE && target < |sinks.files|
    modifies modem, sinks, buff
    ensures var r := ParsePacket(old(modem.input), blockNum);
      && status == r.status
      && modem.input == old(modem.input)[r.used..]
      && modem.output == old(modem.output)
      && (status == Success ==>
            var n := Min(r.size, remaining);
            && left == remaining - n
            && sinks.files == old(sinks.files)[target := old(sinks.files)[target] + r.payload[..n]])
      && (status != Success ==> left == remaining && sinks.files == old(sinks.files))
  {
    ghost var r := ParsePacket(modem.input, blockNum);
    var dataSize;
    status, dataSize := ReceivePacket(modem, buff, blockNum);
    left := remaining;
    if status == Success {
      var n := Min(dataSize, remaining);
      assert buff[..n] == r.payload[..n];
      var written := sinks.Write(target, buff[..n]);
      left := remaining - written;
    }
  }

  /** receiveFileEnd: one byte, which must be EOT; anything else is flushed and fails. */
  method ReceiveFileEnd(modem: Modem, buff: array<Byte>) returns (status: Status)
    requires buff.Length == DATA_SIZE
    modifies modem, buff
    ensures var r := ParseFileEnd(old(modem.input));
      && status == r.status
      && modem.input == old(modem.input)[r.used..]
      && modem.output == old(modem.output)
  {
    var ok := ReceiveTimeout(modem, buff, 1);
    if !ok {
      return Timeout;
    }
    if buff[0] == EOT {
      return Success;
    }
    ok := ReceiveTimeout(modem, buff, DATA_SIZE);  // flush
    return Fail;
  }

  /** The manifest scan after an accepted header: the first entry that takes the file, if any. */
  method MatchFile(m: seq<Entry>, name: seq<Byte>, size: nat) returns (found: Option<nat>)
    ensures found == FindEntry(m, name, size)
  {
    var i := 0;
    while i < |m|
      invariant 0 <= i <= |m|
      invariant forall j :: 0 <= j < i ==> !Admits(m[j], name, size)
    {
      if m[i].name == name && size <= m[i].size {
        return Some(i);
      }
      i := i + 1;
    }
    return None;
  }

  /** The FILENAME case of the loop: a header is awaited and matched against the manifest. */
  method FileNameState(modem: Modem, buff: array<Byte>, manifest: seq<Entry>, s: Session, ghost files: seq<seq<Byte>>)
    returns (t: Session)
    requires buff.Length == DATA_SIZE && s.state == FileName
    requires Valid(manifest, s, World(modem.input, modem.output, files))
    modifies modem, buff
    ensures (t, World(modem.input, modem.output, files))
         == FileNameStep(manifest, s, World(old(modem.input), old(modem.output), files))
  {
    var status, name, size := ReceiveFileInfo(modem, buff, s.blockNum);
    if status == Success {
      t := Accepted(s, End);
      modem.Write([ACK]);
      var found := MatchFile(manifest, name, size);
      if found.Some? {
        t := t.(state := Data, target := found.value, remaining := manifest[found.value].size);
        modem.Write([C]);
      }
    } else if status == Cancel {
      t := s.(state := Canceled);
    } else {
      t := Retried(s, Start);
      modem.Write([NAK]);
    }
  }

  /** The DATA case of the loop: a data block is awaited and its owed part written to the current file. */
  method DataState(modem: Modem, sinks: Sinks, buff: array<Byte>, s: Session) returns (t: Session)
    requires buff.Length == DATA_SIZE && s.state == Data && s.target < |sinks.files|
    requires s.result == Success && s.retriesLeft <= MAX_RETRIES
    modifies modem, sinks, buff
    ensures (t, World(modem.input, modem.output, sinks.files))
         == DataStep(s, World(old(modem.input), old(modem.output), old(sinks.files)))
  {
    var status, left := ReceiveData(modem, sinks, s.target, s.remaining, buff, s.blockNum);
    if status == Success {
      t := Accepted(s, if left != 0 then Data else FileDone).(remaining := left);
      modem.Write([ACK]);
    } else if status == Cancel {
      t := s.(state := Canceled);
    } else {
      t := Retried(s, Data);
      modem.Write([NAK]);
    }
  }

  /** The FILEDONE case of the loop: the EOT that closes the current file is awaited. */
  method FileDoneState(modem: Modem, buff: array<Byte>, s: Session, ghost files: seq<seq<Byte>>) returns (t: Session)
    requires buff.Length == DATA_SIZE && s.state == FileDone
    requires s.result == Success && s.retriesLeft <= MAX_RETRIES
    modifies modem, buff
    ensures (t, World(modem.input, modem.output, files))
         == FileDoneStep(s, World(old(modem.input), old(modem.output), files))
  {
    var status := ReceiveFileEnd(modem, buff);
    if status == Success {
      t := Accepted(s, Start);
      modem.Write([ACK]);
    } else {
      t := Retried(s, FileDone);
      modem.Write([NAK]);
    }
  }

  /** YModem_Receive: runs the batch to its end and returns its result. */
  method Receive(modem: Modem, sinks: Sinks, manifest: seq<Entry>) returns (result: Status)
    requires |sinks.files| == |manifest|
    modifies modem, sinks
    ensures (result, World(modem.input, modem.output, sinks.files))
         == Run(manifest, Initial, World(old(modem.input), old(modem.output), old(sinks.files)))
  {
    var buff := new Byte[DATA_SIZE];
    var s := Initial;
    ghost var start := World(modem.input, modem.output, sinks.files);
    while s.state != End
      invariant Valid(manifest, s, World(modem.input, modem.output, sinks.files))
      invariant Run(manifest, s, World(modem.input, modem.output, sinks.files)) == Run(manifest, Initial, start)
      decreases |modem.input|, s.retriesLeft, Rank(s.state)
    {
      ghost var w := World(modem.input, modem.output, sinks.files);
      ghost var next := Step(manifest, s, w);
      match s.state {
        case Start =>
          s := s.(state := FileName, blockNum := 0);
          modem.Write([C]);
        case FileName =>
          s := FileNameState(modem, buff, manifest, s, sinks.files);
        case Data =>
          s := DataState(modem, sinks, buff, s);
        case FileDone =>
          s := FileDoneState(modem, buff, s, sinks.files);
        case Canceled =>
          s := s.(state := End, result := Cancel);
      }
      assert (s, World(modem.input, modem.output, sinks.files)) == next;
    }
    result := s.result;
  }
}
