/**
 * Definitions shared by the receiver and both transmitters: the control bytes and
 * limits of ymodem_common.h, the result codes of ymodem.h, the CRC-16 used on every
 * block, and the small pieces of the C library the protocol code leans on (MIN,
 * memset, strlen/strcpy, atoi and the "%d" conversion of sprintf).
 */
module Common {

  /** One octet on the link, in a file or in a scratch buffer. */
  type Byte = bv8

  // Control bytes.
  const SOH: Byte := 0x01  // 128-byte block follows
  const STX: Byte := 0x02  // 1024-byte block follows
  const EOT: Byte := 0x04  // end of file
  const ACK: Byte := 0x06  // acknowledged, continue
  const NAK: Byte := 0x15  // not acknowledged, retry
  const CAN: Byte := 0x18  // cancel the transfer
  const C: Byte := 0x43    // receiver ready, CRC-16 mode

  // Limits.
  const MAX_RETRIES: nat := 10
  const DATA_SIZE: nat := 1024
  const FILE_NAME: nat := 32
  const LARGE_PACKET_BYTES: nat := 1024
  const SMALL_PACKET_BYTES: nat := 128

  /** The YModemReturn codes. */
  datatype Status = Success | Fail | Timeout | Cancel

  datatype Option<T> = None | Some(value: T)

  /** The MIN macro. */
  function Min(x: nat, y: nat): (m: nat)
    ensures m <= x && m <= y
    ensures m == x || m == y
  {
    if x > y then y else x
  }

  /** What memset(buff, 0, n) leaves in the first n bytes. */
  function Zeros(n: nat): (z: seq<Byte>)
    ensures |z| == n
    ensures forall i :: 0 <= i < n ==> z[i] == 0
  {
    seq(n, _ => 0)
  }

  /** The bytes of b with the ones from index at on replaced by bytes. */
  function Splice(b: seq<Byte>, at: nat, bytes: seq<Byte>): (r: seq<Byte>)
    requires at + |bytes| <= |b|
    ensures |r| == |b|
  {
    b[..at] + bytes + b[at + |bytes|..]
  }

  /** memcpy(&buff[at], bytes, |bytes|), and memset when bytes are all zero. */
  method Put(buff: array<Byte>, at: nat, bytes: seq<Byte>)
    requires at + |bytes| <= buff.Length
    modifies buff
    ensures buff[..] == Splice(old(buff[..]), at, bytes)
  {
    var i := 0;
    while i < |bytes|
      invariant 0 <= i <= |bytes|
      invariant forall j :: 0 <= j < buff.Length ==>
        buff[j] == if at <= j < at + i then bytes[j - at] else old(buff[j])
    {
      buff[at + i] := bytes[i];
      i := i + 1;
    }
    SpliceIndex(old(buff[..]), at, bytes, buff[..]);
  }

  /** A sequence that agrees with the spliced one at every index is the spliced one. */
  lemma SpliceIndex(b: seq<Byte>, at: nat, bytes: seq<Byte>, r: seq<Byte>)
    requires at + |bytes| <= |b| && |r| == |b|
    requires forall j :: 0 <= j < |r| ==> r[j] == if at <= j < at + |bytes| then bytes[j - at] else b[j]
    ensures r == Splice(b, at, bytes)
  {
    forall j | 0 <= j < |r|
      ensures r[j] == Splice(b, at, bytes)[j]
    {
      SpliceAt(b, at, bytes, j);
    }
  }

  /** Writing x at the front and then y right after it is writing x + y at the front. */
  lemma SpliceAfter(b: seq<Byte>, x: seq<Byte>, y: seq<Byte>)
    requires |x| + |y| <= |b|
    ensures Splice(Splice(b, 0, x), |x|, y) == Splice(b, 0, x + y)
  {
    var r := Splice(Splice(b, 0, x), |x|, y);
    forall j | 0 <= j < |r|
      ensures r[j] == if 0 <= j < |x + y| then (x + y)[j - 0] else b[j]
    {
      SpliceAt(Splice(b, 0, x), |x|, y, j);
      SpliceAt(b, 0, x, j);
    }
    SpliceIndex(b, 0, x + y, r);
  }

  /** The byte at index j of a spliced sequence. */
  lemma SpliceAt(b: seq<Byte>, at: nat, bytes: seq<Byte>, j: nat)
    requires at + |bytes| <= |b| && j < |b|
    ensures Splice(b, at, bytes)[j] == if at <= j < at + |bytes| then bytes[j - at] else b[j]
  {
    var s := Splice(b, at, bytes);
    if j < at {
      assert s[j] == b[..at][j];
    } else if j < at + |bytes| {
      assert s[j] == (b[..at] + bytes)[j];
    } else {
      assert s[j] == b[at + |bytes|..][j - at - |bytes|];
    }
  }

  /** k copies of t. */
  function Repeat(t: seq<Byte>, k: nat): (r: seq<Byte>)
    ensures |r| == k * |t|
  {
    if k == 0 then [] else t + Repeat(t, k - 1)
  }

  /** t is what is left of q once some bytes were taken from its front. */
  predicate Suffix(t: seq<Byte>, q: seq<Byte>)
  {
    |t| <= |q| && t == q[|q| - |t|..]
  }

  /** Dropping k bytes from the front leaves a suffix. */
  lemma DropIsSuffix(q: seq<Byte>, k: nat)
    requires k <= |q|
    ensures Suffix(q[k..], q)
  {
    assert |q| - |q[k..]| == k;
  }

  /** What is left after consuming from what is left is what is left of the whole. */
  lemma SuffixOfSuffix(a: seq<Byte>, b: seq<Byte>, c: seq<Byte>)
    requires Suffix(b, a) && Suffix(c, b)
    ensures Suffix(c, a)
  {
    assert a[|a| - |b|..][|b| - |c|..] == a[|a| - |c|..];
  }

  /*
   * CRC-16 of a block. The CRC routine itself is not part of this model; it is taken to
   * be CRC-16/XMODEM: polynomial 0x1021, initial register 0, most significant bit first,
   * no reflection and no final XOR.
   */

  /** One register shift of the CRC, feeding back the polynomial when the top bit falls out. */
  function CrcShift(reg: bv16): bv16
  {
    if reg & 0x8000 != 0 then (reg << 1) ^ 0x1021 else reg << 1
  }

  /** The register after one more byte has been fed in. */
  function CrcByte(reg: bv16, b: Byte): bv16
  {
    var r := reg ^ ((b as bv16) << 8);
    CrcShift(CrcShift(CrcShift(CrcShift(CrcShift(CrcShift(CrcShift(CrcShift(r))))))))
  }

  /** The register after the bytes of s have been fed in, starting from reg. */
  function CrcFrom(reg: bv16, s: seq<Byte>): bv16
    decreases |s|
  {
    if s == [] then reg else CrcFrom(CrcByte(reg, s[0]), s[1..])
  }

  function Crc16(s: seq<Byte>): bv16
  {
    CrcFrom(0, s)
  }

  /** The CRC is sent most significant byte first. */
  function HighByte(w: bv16): Byte
  {
    (w >> 8) as Byte
  }

  function LowByte(w: bv16): Byte
  {
    (w & 0xFF) as Byte
  }

  /** The 16-bit value of two bytes read high byte first (BIG_ENDIAN_16 on the received pair). */
  function Word(hi: Byte, lo: Byte): (w: bv16)
    ensures HighByte(w) == hi && LowByte(w) == lo
  {
    ((hi as bv16) << 8) | (lo as bv16)
  }

  /** Splitting a word into its two wire bytes and joining them again gives the word back. */
  lemma WordOfBytes(w: bv16)
    ensures Word(HighByte(w), LowByte(w)) == w
  {
  }

  /*
   * Decimal text, as written by sprintf("%d") and read back by atoi.
   */

  predicate IsDigit(b: Byte)
  {
    0x30 <= b <= 0x39
  }

  predicate AllDigits(s: seq<Byte>)
  {
    forall i :: 0 <= i < |s| ==> IsDigit(s[i])
  }

  function DigitByte(d: nat): (b: Byte)
    requires d < 10
    ensures IsDigit(b)
  {
    (0x30 + d) as Byte
  }

  function DigitValue(b: Byte): (d: nat)
    requires IsDigit(b)
    ensures d < 10
  {
    (b - 0x30) as nat
  }

  /** The decimal digits of n, most significant first, without leading zeros. */
  function Digits(n: nat): (d: seq<Byte>)
    ensures 1 <= |d| && AllDigits(d)
    decreases n
  {
    if n < 10 then [DigitByte(n)] else Digits(n / 10) + [DigitByte(n % 10)]
  }

  /** The number a string of digits denotes. */
  function DecimalValue(d: seq<Byte>): nat
    requires AllDigits(d)
    decreases |d|
  {
    if d == [] then 0 else 10 * DecimalValue(d[..|d| - 1]) + DigitValue(d[|d| - 1])
  }

  /** The longest run of digits at the start of s: what atoi consumes. */
  function LeadingDigits(s: seq<Byte>): (p: seq<Byte>)
    ensures |p| <= |s| && p == s[..|p|]
    ensures AllDigits(p)
    ensures |p| < |s| ==> !IsDigit(s[|p|])
    decreases |s|
  {
    if s != [] && IsDigit(s[0]) then [s[0]] + LeadingDigits(s[1..]) else []
  }

  /** atoi, for text without leading blanks or a sign. */
  function Atoi(s: seq<Byte>): nat
  {
    DecimalValue(LeadingDigits(s))
  }

  /** The (int) conversion of a size: its low 32 bits read as a two's-complement number. */
  function AsInt(n: nat): (v: int)
    ensures -0x8000_0000 <= v < 0x8000_0000
    ensures n < 0x8000_0000 ==> v == n
  {
    var low := n % 0x1_0000_0000;
    if low < 0x8000_0000 then low else low - 0x1_0000_0000
  }

  /** What sprintf("%d") writes for v, without the terminating NUL. */
  function FormatD(v: int): seq<Byte>
  {
    if v < 0 then [0x2D] + Digits(-v) else Digits(v)
  }

  /*
   * C strings.
   */

  predicate NoNul(s: seq<Byte>)
  {
    forall i :: 0 <= i < |s| ==> s[i] != 0
  }

  /** The bytes strcpy copies out of s: everything before the first NUL. */
  function CString(s: seq<Byte>): (p: seq<Byte>)
    ensures |p| <= |s| && p == s[..|p|]
    ensures NoNul(p)
    ensures |p| < |s| ==> s[|p|] == 0
    decreases |s|
  {
    if s == [] || s[0] == 0 then [] else [s[0]] + CString(s[1..])
  }

  lemma DigitOfDigitByte(d: nat)
    requires d < 10
    ensures DigitValue(DigitByte(d)) == d
  {
  }

  /** Reading back the digits of n gives n. */
  lemma {:induction false} DigitsValue(n: nat)
    ensures DecimalValue(Digits(n)) == n
    decreases n
  {
    var d := Digits(n);
    if n < 10 {
      assert d[..|d| - 1] == [];
      DigitOfDigitByte(n);
    } else {
      assert d[..|d| - 1] == Digits(n / 10);
      DigitsValue(n / 10);
      DigitOfDigitByte(n % 10);
      assert DecimalValue(d) == 10 * (n / 10) + n % 10;
    }
  }

  /** atoi stops at the first byte after the digits when that byte is not a digit. */
  lemma {:induction false} LeadingDigitsOf(d: seq<Byte>, rest: seq<Byte>)
    requires AllDigits(d)
    requires rest == [] || !IsDigit(rest[0])
    ensures LeadingDigits(d + rest) == d
    decreases |d|
  {
    if d != [] {
      assert (d + rest)[1..] == d[1..] + rest;
      LeadingDigitsOf(d[1..], rest);
    }
  }

  /** atoi inverts the "%d" conversion of a number that fits in an int. */
  lemma AtoiOfFormatD(n: nat, rest: seq<Byte>)
    requires n < 0x8000_0000
    requires rest == [] || !IsDigit(rest[0])
    ensures Atoi(FormatD(AsInt(n)) + rest) == n
  {
    LeadingDigitsOf(Digits(n), rest);
    DigitsValue(n);
  }

  /** A number below 10^k has at most k digits. */
  lemma {:induction false} DigitsLength(n: nat, k: nat, bound: nat)
    requires 1 <= k && bound == Pow10(k) && n < bound
    ensures |Digits(n)| <= k
    decreases k
  {
    if n >= 10 {
      assert Pow10(1) == 10;
      DigitsLength(n / 10, k - 1, Pow10(k - 1));
    }
  }

  function Pow10(k: nat): nat
  {
    if k == 0 then 1 else 10 * Pow10(k - 1)
  }

  /** "%d" of any int takes at most eleven characters: a sign and ten digits. */
  lemma FormatDLength(v: int)
    requires -0x8000_0000 <= v < 0x8000_0000
    ensures |FormatD(v)| <= 11
  {
    assert Pow10(10) == 10_000_000_000;
    if v < 0 {
      DigitsLength(-v, 10, Pow10(10));
    } else {
      DigitsLength(v, 10, Pow10(10));
    }
  }
}
