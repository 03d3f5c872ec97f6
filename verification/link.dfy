/**
 * The byte transport a session runs over (the Read and Write capabilities of the YModem
 * struct). The peer's bytes that have arrived and not yet been read form a finite queue;
 * everything the core writes is appended to a log. The millisecond clock is not modelled:
 * a read that finds the queue empty stands for a read that reaches its deadline.
 */
module Link {
  import opened Common

  class Modem {
    /** Bytes sent by the peer that the core has not read yet. */
    var input: seq<Byte>
    /** Every byte the core has written to the link, oldest first. */
    var output: seq<Byte>

    constructor (arriving: seq<Byte>)
      ensures input == arriving && output == []
    {
      input := arriving;
      output := [];
    }

    /** modem->Write: the link accepts every byte it is given. */
    method Write(bytes: seq<Byte>)
      modifies this
      ensures output == old(output) + bytes
      ensures input == old(input)
    {
      output := output + bytes;
    }

    /**
     * modem->Read(&buff[at], max): copies as many queued bytes as are available, up to
     * max, into buff starting at index at, and returns how many it copied.
     */
    method Read(buff: array<Byte>, at: nat, max: nat) returns (n: nat)
      requires at + max <= buff.Length
      modifies this, buff
      ensures n == Min(max, |old(input)|)
      ensures input == old(input)[n..] && output == old(output)
      ensures buff[..] == Splice(old(buff[..]), at, old(input)[..n])
    {
      n := Min(max, |input|);
      var i := 0;
      while i < n
        invariant 0 <= i <= n
        invariant input == old(input) && output == old(output)
        invariant forall j :: 0 <= j < buff.Length ==>
          buff[j] == if at <= j < at + i then input[j - at] else old(buff[j])
      {
        buff[at + i] := input[i];
        i := i + 1;
      }
      SpliceIndex(old(buff[..]), at, input[..n], buff[..]);
      input := input[n..];
    }
  }
}
