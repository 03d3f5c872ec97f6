/**
 * What YModem_Receive promises, stated about Step and Run: how each reception is answered,
 * how retries and block numbers are counted, when a file is taken, what reaches the
 * files, and how a batch ends.
 */
module ReceiveProperties {
  import opened Common
  import opened Codec
  import opened Receive

  /** Every byte of out from index k on is one the receiver answers with: C, ACK or NAK. */
  predicate RepliesAfter(out: seq<Byte>, k: nat)
  {
    forall i :: k <= i < |out| ==> out[i] == C || out[i] == ACK || out[i] == NAK
  }

  /** Each file of after starts with the same file of before: files are only appended to. */
  predicate Extends(before: seq<seq<Byte>>, after: seq<seq<Byte>>)
  {
    |after| == |before| && forall i :: 0 <= i < |before| ==> before[i] <= after[i]
  }

  /** What the reception made in state s, on the bytes waiting in w, returned. */
  function Received(s: Session, w: World): Reception
  {
    if s.state == FileDone then ParseFileEnd(w.input) else ParsePacket(w.input, s.blockNum)
  }

  predicate Receiving(s: Session)
  {
    s.state == FileName || s.state == Data || s.state == FileDone
  }

  /*
   * One pass of the loop.
   */

  /** START resets the block number to 0, writes C and goes on to FILENAME; nothing is read. */
  lemma StartStepFacts(m: seq<Entry>, s: Session, w: World)
    requires Valid(m, s, w) && s.state == Start
    ensures var r := Step(m, s, w);
      && r.0.state == FileName && r.0.blockNum == 0 && r.0.retriesLeft == s.retriesLeft
      && r.1 == w.(output := w.output + [C])
  {
  }

  /**
   * A failed or timed-out reception is answered with NAK and costs one retry: the loop
   * asks again (FILENAME from START, DATA and FILEDONE in place) while retries are left, and
   * otherwise ends the batch with TIMEOUT. The block number and the files stay as they were.
   */
  lemma FailedReception(m: seq<Entry>, s: Session, w: World)
    requires Valid(m, s, w) && Receiving(s)
    requires Received(s, w).status == Fail || Received(s, w).status == Timeout
    ensures var r := Step(m, s, w);
      && r.1.output == w.output + [NAK]
      && r.1.input == w.input[Received(s, w).used..]
      && r.1.files == w.files
      && r.0.blockNum == s.blockNum
      && (s.retriesLeft == 0 ==> r.0.state == End && r.0.result == Timeout)
      && (s.retriesLeft > 0 ==>
            && r.0.retriesLeft == s.retriesLeft - 1
            && r.0.state == (if s.state == FileName then Start else s.state))
  {
  }

  /**
   * An accepted packet or EOT is answered with ACK (and, for a header that names a file to
   * take, a C after it), moves the block number on by one, modulo 256, and restores the
   * full retry budget.
   */
  lemma AcceptedReception(m: seq<Entry>, s: Session, w: World)
    requires Valid(m, s, w) && Receiving(s)
    requires Received(s, w).status == Success
    ensures var r := Step(m, s, w);
      && r.0.blockNum == s.blockNum + 1
      && r.0.retriesLeft == MAX_RETRIES
      && r.1.input == w.input[Received(s, w).used..]
      && (r.1.output == w.output + [ACK] || (s.state == FileName && r.1.output == w.output + [ACK, C]))
  {
    if s.state == FileName {
      HeaderAccepted(m, s, w);
    } else if s.state == Data {
      BlockAccepted(m, s, w);
    } else {
      EndAccepted(m, s, w);
    }
  }

  lemma HeaderAccepted(m: seq<Entry>, s: Session, w: World)
    requires Valid(m, s, w) && s.state == FileName
    requires ParsePacket(w.input, s.blockNum).status == Success
    ensures var r := Step(m, s, w);
      && r.0.blockNum == s.blockNum + 1
      && r.0.retriesLeft == MAX_RETRIES
      && r.1.input == w.input[ParsePacket(w.input, s.blockNum).used..]
      && (r.1.output == w.output + [ACK] || r.1.output == w.output + [ACK, C])
  {
  }

  lemma BlockAccepted(m: seq<Entry>, s: Session, w: World)
    requires Valid(m, s, w) && s.state == Data
    requires ParsePacket(w.input, s.blockNum).status == Success
    ensures var r := Step(m, s, w);
      && r.0.blockNum == s.blockNum + 1
      && r.0.retriesLeft == MAX_RETRIES
      && r.1.input == w.input[ParsePacket(w.input, s.blockNum).used..]
      && r.1.output == w.output + [ACK]
  {
  }

  lemma EndAccepted(m: seq<Entry>, s: Session, w: World)
    requires Valid(m, s, w) && s.state == FileDone
    requires ParseFileEnd(w.input).status == Success
    ensures var r := Step(m, s, w);
      && r.0.blockNum == s.blockNum + 1
      && r.0.retriesLeft == MAX_RETRIES
      && r.1.input == w.input[1..]
      && r.1.output == w.output + [ACK]
  {
  }

  /** A cancel is not answered: the loop goes to CANCELED and writes nothing. An EOT wait never sees one. */
  lemma CanceledReception(m: seq<Entry>, s: Session, w: World)
    requires Valid(m, s, w) && Receiving(s)
    requires Received(s, w).status == Cancel
    ensures s.state != FileDone
    ensures var r := Step(m, s, w);
      && r.0.state == Canceled
      && r.1 == w.(input := w.input[Received(s, w).used..])
  {
  }

  /**
   * The manifest match after an accepted header: DATA is entered, with a C written after
   * the ACK, exactly when some entry has the header's name and a size ceiling at least the
   * declared size. The first such entry is taken and the bytes still owed are its ceiling,
   * not the declared size. Otherwise the batch ends with SUCCESS after the ACK.
   */
  lemma HeaderMatch(m: seq<Entry>, s: Session, w: World)
    requires Valid(m, s, w) && s.state == FileName
    requires Received(s, w).status == Success
    ensures var p := Received(s, w);
      var name := HeaderName(p.payload);
      var size := HeaderSize(p.payload);
      var r := Step(m, s, w);
      && r.1.files == w.files
      && (r.0.state == Data <==> exists j :: 0 <= j < |m| && Admits(m[j], name, size))
      && (r.0.state == Data ==>
            && r.1.output == w.output + [ACK, C]
            && r.0.target < |m|
            && Admits(m[r.0.target], name, size)
            && (forall j :: 0 <= j < r.0.target ==> !Admits(m[j], name, size))
            && r.0.remaining == m[r.0.target].size)
      && (r.0.state != Data ==>
            r.0.state == End && r.0.result == Success && r.1.output == w.output + [ACK])
  {
  }

  /**
   * An accepted data block hands the first min(block size, bytes still owed) payload bytes
   * to the current file and to no other; the bytes owed drop by exactly that many, so they
   * never grow, and FILEDONE is entered exactly when none are left.
   */
  lemma DataDelivery(m: seq<Entry>, s: Session, w: World)
    requires Valid(m, s, w) && s.state == Data
    requires Received(s, w).status == Success
    ensures var p := Received(s, w);
      var n := Min(p.size, s.remaining);
      var r := Step(m, s, w);
      && r.1.files == w.files[s.target := w.files[s.target] + p.payload[..n]]
      && r.0.remaining == s.remaining - n
      && r.0.target == s.target
      && (r.0.state == FileDone <==> r.0.remaining == 0)
      && (r.0.state == Data <==> r.0.remaining != 0)
  {
  }

  /** One pass only consumes input: what is left is a suffix of what was queued. */
  lemma StepConsumes(m: seq<Entry>, s: Session, w: World)
    requires Valid(m, s, w) && s.state != End
    ensures Suffix(Step(m, s, w).1.input, w.input)
  {
    if Receiving(s) {
      var p := Received(s, w);
      assert Step(m, s, w).1.input == w.input[p.used..];
      DropIsSuffix(w.input, p.used);
    } else {
      assert Step(m, s, w).1.input == w.input[0..];
    }
  }

  /** One pass writes nothing but C, ACK and NAK after what was already written. */
  lemma StepReplies(m: seq<Entry>, s: Session, w: World)
    requires Valid(m, s, w) && s.state != End
    ensures var r := Step(m, s, w);
      w.output <= r.1.output && RepliesAfter(r.1.output, |w.output|)
  {
    var r := Step(m, s, w);
    match s.state {
      case Start => ReplyTail(w.output, [C], r.1.output);
      case Canceled => ReplyTail(w.output, [], r.1.output);
      case FileDone =>
        ReplyTail(w.output, if ParseFileEnd(w.input).status == Success then [ACK] else [NAK], r.1.output);
      case Data =>
        var p := ParsePacket(w.input, s.blockNum);
        ReplyTail(w.output, if p.status == Success then [ACK] else if p.status == Cancel then [] else [NAK], r.1.output);
      case FileName =>
        var p := ParsePacket(w.input, s.blockNum);
        if p.status == Success {
          if FindEntry(m, HeaderName(p.payload), HeaderSize(p.payload)).Some? {
            assert r.1.output == w.output + [ACK] + [C];
            ReplyTail(w.output, [ACK, C], r.1.output);
          } else {
            ReplyTail(w.output, [ACK], r.1.output);
          }
        } else {
          ReplyTail(w.output, if p.status == Cancel then [] else [NAK], r.1.output);
        }
    }
  }

  /** Writing one of the receiver's answers after out keeps out and adds only replies (a case split kept apart to keep StepReplies small). */
  lemma ReplyTail(out: seq<Byte>, x: seq<Byte>, res: seq<Byte>)
    requires x == [] || x == [C] || x == [ACK] || x == [ACK, C] || x == [NAK]
    requires res == out + x
    ensures out <= res && RepliesAfter(res, |out|)
  {
  }

  /** One pass only appends to the files, and at most to the one being received. */
  lemma StepExtends(m: seq<Entry>, s: Session, w: World)
    requires Valid(m, s, w) && s.state != End
    ensures Extends(w.files, Step(m, s, w).1.files)
  {
    var r := Step(m, s, w);
    var p := Received(s, w);
    if s.state == Data && p.status == Success {
      var n := Min(p.size, s.remaining);
      assert r.1.files == w.files[s.target := w.files[s.target] + p.payload[..n]];
    } else {
      assert r.1.files == w.files;
    }
  }

  /*
   * Whole runs.
   */

  /** Whatever arrives, a batch ends with SUCCESS, TIMEOUT or CANCEL and never with FAIL. */
  lemma {:induction false} RunNeverFails(m: seq<Entry>, s: Session, w: World)
    requires Valid(m, s, w)
    ensures Run(m, s, w).0 != Fail
    decreases |w.input|, s.retriesLeft, Rank(s.state)
  {
    if s.state != End {
      var r := Step(m, s, w);
      RunNeverFails(m, r.0, r.1);
      RunStep(m, s, w);
    }
  }

  /** The receiver only consumes its input: what is left at the end is a suffix of what was there. */
  lemma {:induction false} RunConsumes(m: seq<Entry>, s: Session, w: World)
    requires Valid(m, s, w)
    ensures var f := Run(m, s, w).1;
      Suffix(f.input, w.input)
    decreases |w.input|, s.retriesLeft, Rank(s.state)
  {
    if s.state != End {
      var r := Step(m, s, w);
      StepConsumes(m, s, w);
      RunConsumes(m, r.0, r.1);
      RunStep(m, s, w);
      SuffixOfSuffix(w.input, r.1.input, Run(m, r.0, r.1).1.input);
    }
  }

  /** The receiver writes nothing but C, ACK and NAK. */
  lemma {:induction false} RunRepliesOnly(m: seq<Entry>, s: Session, w: World)
    requires Valid(m, s, w)
    ensures var f := Run(m, s, w).1;
      w.output <= f.output && RepliesAfter(f.output, |w.output|)
    decreases |w.input|, s.retriesLeft, Rank(s.state)
  {
    if s.state != End {
      var r := Step(m, s, w);
      StepReplies(m, s, w);
      RunRepliesOnly(m, r.0, r.1);
      RunStep(m, s, w);
    }
  }

  /** The receiver only appends to the files, and to no file outside the manifest. */
  lemma {:induction false} RunAppends(m: seq<Entry>, s: Session, w: World)
    requires Valid(m, s, w)
    ensures Extends(w.files, Run(m, s, w).1.files)
    decreases |w.input|, s.retriesLeft, Rank(s.state)
  {
    if s.state != End {
      var r := Step(m, s, w);
      StepExtends(m, s, w);
      RunAppends(m, r.0, r.1);
      RunStep(m, s, w);
      var f := Run(m, r.0, r.1).1;
      forall i | 0 <= i < |w.files|
        ensures w.files[i] <= f.files[i]
      {
        assert w.files[i] <= r.1.files[i] && r.1.files[i] <= f.files[i];
      }
    }
  }

  /**
   * With nobody sending, the receiver writes C and then NAK for the header it waited for,
   * once and then once per retry, and gives up with TIMEOUT.
   */
  lemma {:induction false} SilentSenderFrom(m: seq<Entry>, s: Session, w: World)
    requires Valid(m, s, w) && s.state == Start && w.input == []
    ensures Run(m, s, w) == (Timeout, w.(output := w.output + Repeat([C, NAK], s.retriesLeft + 1)))
    decreases s.retriesLeft
  {
    var r1 := Step(m, s, w);
    var r2 := Step(m, r1.0, r1.1);
    assert r2.1 == w.(output := w.output + [C, NAK]);
    assert Run(m, s, w) == Run(m, r2.0, r2.1);
    if s.retriesLeft > 0 {
      assert r2.0.state == Start && r2.0.retriesLeft == s.retriesLeft - 1;
      SilentSenderFrom(m, r2.0, r2.1);
      assert Repeat([C, NAK], s.retriesLeft + 1) == [C, NAK] + Repeat([C, NAK], s.retriesLeft);
      assert w.output + [C, NAK] + Repeat([C, NAK], s.retriesLeft)
          == w.output + Repeat([C, NAK], s.retriesLeft + 1);
    } else {
      assert r2.0.state == End && r2.0.result == Timeout;
      assert Repeat([C, NAK], 1) == [C, NAK];
    }
  }

  /** A fresh receiver with nobody sending writes eleven C/NAK pairs and returns TIMEOUT. */
  lemma SilentSender(m: seq<Entry>, w: World)
    requires |w.files| == |m| && w.input == []
    ensures Run(m, Initial, w) == (Timeout, w.(output := w.output + Repeat([C, NAK], MAX_RETRIES + 1)))
  {
    SilentSenderFrom(m, Initial, w);
  }

  /**
   * When the sender falls silent in the middle of a file or before its EOT, the receiver
   * answers each empty wait with NAK, one more time than it has retries left, and ends
   * with TIMEOUT; from a fresh retry budget that is the eleventh failure in a row.
   */
  lemma {:induction false} SilentMidFile(m: seq<Entry>, s: Session, w: World)
    requires Valid(m, s, w) && (s.state == Data || s.state == FileDone) && w.input == []
    ensures Run(m, s, w) == (Timeout, w.(output := w.output + Repeat([NAK], s.retriesLeft + 1)))
    decreases s.retriesLeft
  {
    var r := Step(m, s, w);
    assert r.1 == w.(output := w.output + [NAK]);
    assert Run(m, s, w) == Run(m, r.0, r.1);
    if s.retriesLeft > 0 {
      assert r.0.state == s.state && r.0.retriesLeft == s.retriesLeft - 1;
      SilentMidFile(m, r.0, r.1);
      assert Repeat([NAK], s.retriesLeft + 1) == [NAK] + Repeat([NAK], s.retriesLeft);
      assert w.output + [NAK] + Repeat([NAK], s.retriesLeft)
          == w.output + Repeat([NAK], s.retriesLeft + 1);
    } else {
      assert r.0.state == End && r.0.result == Timeout;
      assert Repeat([NAK], 1) == [NAK];
    }
  }

  /** A cancel while a header or a data block is awaited ends the batch with CANCEL, and neither ACK nor NAK is written. */
  lemma CancelEndsBatch(m: seq<Entry>, s: Session, w: World)
    requires Valid(m, s, w) && (s.state == FileName || s.state == Data)
    requires Received(s, w).status == Cancel
    ensures Run(m, s, w) == (Cancel, w.(input := w.input[Received(s, w).used..]))
  {
    var r1 := Step(m, s, w);
    var r2 := Step(m, r1.0, r1.1);
    assert Run(m, s, w) == Run(m, r2.0, r2.1);
  }

  /** In particular a CAN byte where a frame should start ends the batch that way, after the rest is flushed. */
  lemma CanByteEndsBatch(m: seq<Entry>, s: Session, w: World)
    requires Valid(m, s, w) && (s.state == FileName || s.state == Data)
    requires w.input != [] && w.input[0] == CAN
    ensures Run(m, s, w) == (Cancel, w.(input := w.input[Flushed(w.input, 1)..]))
  {
    ControlByteDispatch(w.input, s.blockNum);
    CancelEndsBatch(m, s, w);
  }

  /** Run takes one step from any state but END. */
  lemma RunStep(m: seq<Entry>, s: Session, w: World)
    requires Valid(m, s, w) && s.state != End
    ensures Run(m, s, w) == Run(m, Step(m, s, w).0, Step(m, s, w).1)
  {
  }

  /** The all-zero header that ends a batch is answered with ACK alone when no manifest entry has the empty name. */
  lemma EndHeaderStep(m: seq<Entry>, s: Session, w: World, rest: seq<Byte>)
    requires Valid(m, s, w) && s.state == FileName
    requires w.input == Frame(s.blockNum, Zeros(SMALL_PACKET_BYTES)) + rest
    requires forall j :: 0 <= j < |m| ==> m[j].name != []
    ensures Step(m, s, w)
         == (s.(state := End, blockNum := s.blockNum + 1, retriesLeft := MAX_RETRIES),
             w.(input := rest, output := w.output + [ACK]))
  {
    FrameRoundTrip(s.blockNum, Zeros(SMALL_PACKET_BYTES), rest);
    EndOfBatchHeader();
    assert FindEntry(m, [], 0).None?;
    assert w.input[SMALL_PACKET_BYTES + 5..] == rest;
  }

  /**
   * The all-zero header that ends a batch ends the receiver's run with SUCCESS after one
   * ACK, as long as no manifest entry has the empty name.
   */
  lemma EndOfBatch(m: seq<Entry>, s: Session, w: World, rest: seq<Byte>)
    requires Valid(m, s, w) && s.state == FileName
    requires w.input == Frame(s.blockNum, Zeros(SMALL_PACKET_BYTES)) + rest
    requires forall j :: 0 <= j < |m| ==> m[j].name != []
    ensures Run(m, s, w) == (Success, w.(input := rest, output := w.output + [ACK]))
  {
    EndHeaderStep(m, s, w, rest);
    RunStep(m, s, w);
  }

  /**
   * A manifest entry with the empty name (a non-NULL "") matches that all-zero header: the
   * receiver answers it with ACK and C and waits for data instead of ending the batch.
   */
  lemma EmptyNameCatchesEndOfBatch(m: seq<Entry>, s: Session, w: World, rest: seq<Byte>, j: nat)
    requires Valid(m, s, w) && s.state == FileName
    requires w.input == Frame(s.blockNum, Zeros(SMALL_PACKET_BYTES)) + rest
    requires j < |m| && m[j].name == []
    ensures var r := Step(m, s, w);
      r.0.state == Data && r.1.output == w.output + [ACK, C]
  {
    FrameRoundTrip(s.blockNum, Zeros(SMALL_PACKET_BYTES), rest);
    EndOfBatchHeader();
    assert Admits(m[j], [], 0);
  }

  /** START writes C and the run goes on in FILENAME with block number 0. */
  lemma RunFromStart(m: seq<Entry>, s: Session, w: World)
    requires Valid(m, s, w) && s.state == Start
    ensures Run(m, s, w) == Run(m, s.(state := FileName, blockNum := 0), w.(output := w.output + [C]))
  {
    StartStepFacts(m, s, w);
    RunStep(m, s, w);
  }

  /** A header frame for the expected block that names manifest entry i is answered with ACK and C, and entry i's ceiling is owed. */
  lemma HeaderStep(m: seq<Entry>, s: Session, w: World, header: seq<Byte>, rest: seq<Byte>, i: nat)
    requires Valid(m, s, w) && s.state == FileName
    requires |header| == SMALL_PACKET_BYTES || |header| == LARGE_PACKET_BYTES
    requires w.input == Frame(s.blockNum, header) + rest
    requires FindEntry(m, HeaderName(header), HeaderSize(header)) == Some(i)
    ensures i < |m|
    ensures Step(m, s, w)
         == (s.(state := Data, blockNum := s.blockNum + 1, retriesLeft := MAX_RETRIES,
                target := i, remaining := m[i].size),
             w.(input := rest, output := w.output + [ACK, C]))
  {
    FrameRoundTrip(s.blockNum, header, rest);
    var p := ParsePacket(w.input, s.blockNum);
    assert p == Reception(Success, |header|, header, |header| + 5);
    assert w.input[p.used..] == rest;
    assert Step(m, s, w) == FileNameStep(m, s, w);
    assert w.output + [ACK] + [C] == w.output + [ACK, C];
  }

  /**
   * A header frame for the expected block that names a manifest entry is taken: ACK and C
   * are written, and the run goes on in DATA for that entry, owing its ceiling.
   */
  lemma RunTakesHeader(m: seq<Entry>, s: Session, w: World, header: seq<Byte>, rest: seq<Byte>, i: nat)
    requires Valid(m, s, w) && s.state == FileName
    requires |header| == SMALL_PACKET_BYTES || |header| == LARGE_PACKET_BYTES
    requires w.input == Frame(s.blockNum, header) + rest
    requires FindEntry(m, HeaderName(header), HeaderSize(header)) == Some(i)
    ensures i < |m|
    ensures Run(m, s, w)
         == Run(m, s.(state := Data, blockNum := s.blockNum + 1, retriesLeft := MAX_RETRIES,
                      target := i, remaining := m[i].size),
                w.(input := rest, output := w.output + [ACK, C]))
  {
    HeaderStep(m, s, w, header, rest, i);
    RunStep(m, s, w);
  }

  /** A data frame for the expected block is answered with ACK and its owed part goes to the current file. */
  lemma BlockStep(m: seq<Entry>, s: Session, w: World, block: seq<Byte>, rest: seq<Byte>)
    requires Valid(m, s, w) && s.state == Data
    requires |block| == SMALL_PACKET_BYTES || |block| == LARGE_PACKET_BYTES
    requires w.input == Frame(s.blockNum, block) + rest
    ensures var n := Min(|block|, s.remaining);
      Step(m, s, w)
        == (s.(state := if s.remaining - n != 0 then Data else FileDone, blockNum := s.blockNum + 1,
               retriesLeft := MAX_RETRIES, remaining := s.remaining - n),
            w.(input := rest, output := w.output + [ACK],
               files := w.files[s.target := w.files[s.target] + block[..n]]))
  {
    FrameRoundTrip(s.blockNum, block, rest);
    var p := ParsePacket(w.input, s.blockNum);
    assert p == Reception(Success, |block|, block, |block| + 5);
    assert w.input[p.used..] == rest;
    assert Step(m, s, w) == DataStep(s, w);
  }

  /**
   * A data frame for the expected block is taken: ACK is written, the owed part of its
   * payload goes to the current file, and the run goes on in DATA or, when nothing more is
   * owed, in FILEDONE.
   */
  lemma RunTakesBlock(m: seq<Entry>, s: Session, w: World, block: seq<Byte>, rest: seq<Byte>)
    requires Valid(m, s, w) && s.state == Data
    requires |block| == SMALL_PACKET_BYTES || |block| == LARGE_PACKET_BYTES
    requires w.input == Frame(s.blockNum, block) + rest
    ensures var n := Min(|block|, s.remaining);
      Run(m, s, w)
        == Run(m, s.(state := if s.remaining - n != 0 then Data else FileDone, blockNum := s.blockNum + 1,
                     retriesLeft := MAX_RETRIES, remaining := s.remaining - n),
               w.(input := rest, output := w.output + [ACK],
                  files := w.files[s.target := w.files[s.target] + block[..n]]))
  {
    BlockStep(m, s, w, block, rest);
    RunStep(m, s, w);
  }

  /** An EOT where the end of a file is awaited is answered with ACK, and START follows. */
  lemma EotStep(m: seq<Entry>, s: Session, w: World, rest: seq<Byte>)
    requires Valid(m, s, w) && s.state == FileDone
    requires w.input == [EOT] + rest
    ensures Step(m, s, w)
         == (s.(state := Start, blockNum := s.blockNum + 1, retriesLeft := MAX_RETRIES),
             w.(input := rest, output := w.output + [ACK]))
  {
    assert w.input[1..] == rest;
  }

  /** An EOT where the end of a file is awaited is taken: ACK is written and the run goes back to START. */
  lemma RunTakesEot(m: seq<Entry>, s: Session, w: World, rest: seq<Byte>)
    requires Valid(m, s, w) && s.state == FileDone
    requires w.input == [EOT] + rest
    ensures Run(m, s, w)
         == Run(m, s.(state := Start, blockNum := s.blockNum + 1, retriesLeft := MAX_RETRIES),
                w.(input := rest, output := w.output + [ACK]))
  {
    EotStep(m, s, w, rest);
    RunStep(m, s, w);
  }

  /**
   * The close of a file followed by the close of the batch: the EOT is acknowledged, a
   * fresh C asks for the next header, and the all-zero header ends the run with SUCCESS.
   */
  lemma CloseFileThenBatch(m: seq<Entry>, s: Session, w: World, rest: seq<Byte>)
    requires Valid(m, s, w) && s.state == FileDone
    requires w.input == [EOT] + (Frame(0, Zeros(SMALL_PACKET_BYTES)) + rest)
    requires forall j :: 0 <= j < |m| ==> m[j].name != []
    ensures Run(m, s, w) == (Success, w.(input := rest, output := w.output + [ACK, C, ACK]))
  {
    var tail := Frame(0, Zeros(SMALL_PACKET_BYTES)) + rest;
    RunTakesEot(m, s, w, tail);
    var s1 := s.(state := Start, blockNum := s.blockNum + 1, retriesLeft := MAX_RETRIES);
    var w1 := w.(input := tail, output := w.output + [ACK]);
    RunFromStart(m, s1, w1);
    var s2 := s1.(state := FileName, blockNum := 0);
    var w2 := w1.(output := w1.output + [C]);
    EndOfBatch(m, s2, w2, rest);
    ThreeReplies(w.output, w2.output);
  }

  /*
   * Sequence identities the one-file lemmas use. They say nothing about the receiver; each
   * is stated apart so that the proofs around it do not have to work it out on large terms.
   */

  lemma ThreeReplies(before: seq<Byte>, out: seq<Byte>)
    requires out == before + [ACK] + [C]
    ensures out + [ACK] == before + [ACK, C, ACK]
  {
  }

  lemma AppendToEmpty(a: seq<Byte>, b: seq<Byte>)
    requires a == []
    ensures a + b == b
  {
  }

  lemma Replies4(out: seq<Byte>)
    requires out == [] + [C] + [ACK, C]
    ensures out + [ACK] == [C, ACK, C, ACK]
  {
  }

  lemma Replies7(out: seq<Byte>)
    requires out == [C, ACK, C, ACK]
    ensures out + [ACK, C, ACK] == [C, ACK, C, ACK, ACK, C, ACK]
  {
  }

  lemma BatchBytes(f0: seq<Byte>, f1: seq<Byte>, f2: seq<Byte>)
    ensures f0 + f1 + [EOT] + f2 == f0 + (f1 + ([EOT] + (f2 + [])))
  {
  }

  /**
   * A batch of one file that fits in one small block, sent without errors: header at block
   * 0, data at block 1, EOT, and the end-of-batch header at block 0 again. The receiver
   * answers C, ACK C, ACK, ACK, C, ACK, returns SUCCESS, and its file holds the first
   * `ceiling` bytes of the block: the declared size when the ceiling equals it, and
   * padding beyond it when the ceiling is larger.
   */
  lemma OneFileBatch(name: seq<Byte>, declared: nat, ceiling: nat, header: seq<Byte>, block: seq<Byte>)
    requires name != [] && declared <= ceiling && 1 <= ceiling <= SMALL_PACKET_BYTES
    requires |header| == SMALL_PACKET_BYTES && HeaderName(header) == name && HeaderSize(header) == declared
    requires |block| == SMALL_PACKET_BYTES
    ensures var q := Frame(0, header) + Frame(1, block) + [EOT] + Frame(0, Zeros(SMALL_PACKET_BYTES));
      Run([Entry(name, ceiling)], Initial, World(q, [], [[]]))
        == (Success, World([], [C, ACK, C, ACK, ACK, C, ACK], [block[..ceiling]]))
  {
    var m := [Entry(name, ceiling)];
    var rest := [EOT] + (Frame(0, Zeros(SMALL_PACKET_BYTES)) + []);
    BatchBytes(Frame(0, header), Frame(1, block), Frame(0, Zeros(SMALL_PACKET_BYTES)));
    var w3 := World(rest, [C, ACK, C, ACK], [block[..ceiling]]);
    OneFileUntilEot(m, name, declared, ceiling, header, block, rest);
    CloseFileThenBatch(m, Session(FileDone, 2, MAX_RETRIES, Success, 0, 0), w3, []);
    Replies7(w3.output);
  }

  /** The first part of that batch: the header and the one data block are taken, and the file's EOT is awaited. */
  lemma OneFileUntilEot(m: seq<Entry>, name: seq<Byte>, declared: nat, ceiling: nat, header: seq<Byte>,
                        block: seq<Byte>, rest: seq<Byte>)
    requires m == [Entry(name, ceiling)]
    requires declared <= ceiling && 1 <= ceiling <= SMALL_PACKET_BYTES
    requires |header| == SMALL_PACKET_BYTES && HeaderName(header) == name && HeaderSize(header) == declared
    requires |block| == SMALL_PACKET_BYTES
    ensures Run(m, Initial, World(Frame(0, header) + (Frame(1, block) + rest), [], [[]]))
         == Run(m, Session(FileDone, 2, MAX_RETRIES, Success, 0, 0),
                World(rest, [C, ACK, C, ACK], [block[..ceiling]]))
  {
    var q2 := Frame(1, block) + rest;
    var w0 := World(Frame(0, header) + q2, [], [[]]);

    RunFromStart(m, Initial, w0);
    var s1, w1 := Initial.(state := FileName, blockNum := 0), w0.(output := w0.output + [C]);

    assert FindEntry(m, name, declared) == Some(0);
    RunTakesHeader(m, s1, w1, header, q2, 0);
    var s2 := s1.(state := Data, blockNum := s1.blockNum + 1, retriesLeft := MAX_RETRIES,
                  target := 0, remaining := m[0].size);
    var w2 := w1.(input := q2, output := w1.output + [ACK, C]);

    RunTakesBlock(m, s2, w2, block, rest);
    var n := Min(|block|, s2.remaining);
    assert n == ceiling && w2.files[0] == [];
    var s3 := s2.(state := if s2.remaining - n != 0 then Data else FileDone, blockNum := s2.blockNum + 1,
                  retriesLeft := MAX_RETRIES, remaining := s2.remaining - n);
    var w3 := w2.(input := rest, output := w2.output + [ACK],
                  files := w2.files[s2.target := w2.files[s2.target] + block[..n]]);
    assert s3 == Session(FileDone, 2, MAX_RETRIES, Success, 0, 0);
    AppendToEmpty(w2.files[0], block[..n]);
    Replies4(w2.output);
    assert w3 == World(rest, [C, ACK, C, ACK], [block[..ceiling]]);
  }
}
