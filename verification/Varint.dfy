/**
 * Zigzag base-128 varints ("Base 128 Varints" and "Signed Integers" of the Protocol Buffers
 * encoding guide): the six encoders, two size functions and three decoders of
 * kafka/benchmarks/varint_speed.py against one recursive definition each.
 */
module Varint {
  import opened Common
  import opened Bits

  /** No 64-bit number takes more bytes. */
  const MAX_BYTES: nat := 10

  const MIN_INT64: int := -0x8000_0000_0000_0000
  const MAX_INT64: int := 0x7fff_ffff_ffff_ffff

  predicate IsInt64(n: int) { MIN_INT64 <= n <= MAX_INT64 }

  // ----- what the bytes are ------------------------------------------------------------

  /** The sign moved to the lowest bit, as every encoder does first. */
  function ZigZag(num: int): int { BitXor(Shl(num, 1), Shr(num, 63)) }

  function UnZigZag(value: int): int { BitXor(Shr(value, 1), -BitAnd(value, 1)) }

  /** Seven bits a byte, lowest first, the eighth set on all but the last. */
  function Base128(z: nat): (bs: seq<byte>)
    ensures |bs| >= 1
  {
    if z < 128 then [z] else [128 + z % 128] + Base128(z / 128)
  }

  datatype DecodeError = EndOfStream | OutOfRange

  /** Reading a base-128 number of at most `left` bytes. */
  function ReadBase128(buffer: seq<byte>, pos: nat, left: nat): Outcome<(nat, nat), DecodeError>
    decreases left
  {
    if left == 0 then Raises(OutOfRange)
    else if pos >= |buffer| then Raises(EndOfStream)
    else if buffer[pos] < 128 then Returns((buffer[pos], pos + 1))
    else Above(buffer[pos] - 128, 128, ReadBase128(buffer, pos + 1, left - 1))
  }

  /** The low bits read so far below what is read next. */
  function Above(low: nat, weight: nat, r: Outcome<(nat, nat), DecodeError>): Outcome<(nat, nat), DecodeError> {
    match r
    case Returns((high, end)) => Returns((low + weight * high, end))
    case Raises(e) => Raises(e)
  }

  function Decoded(r: Outcome<(nat, nat), DecodeError>): Outcome<(int, nat), DecodeError> {
    match r
    case Returns((value, end)) => Returns((UnZigZag(value), end))
    case Raises(e) => Raises(e)
  }

  function Decode(buffer: seq<byte>, pos: nat): Outcome<(int, nat), DecodeError> {
    Decoded(ReadBase128(buffer, pos, MAX_BYTES))
  }

  // ----- bit facts ---------------------------------------------------------------------

  lemma Powers()
    ensures Pow2(1) == 2 && Pow2(6) == 64 && Pow2(7) == 128 && Pow2(14) == 0x4000 && Pow2(21) == 0x20_0000
    ensures Pow2(28) == 0x1000_0000
    ensures Pow2(35) == 0x8_0000_0000 && Pow2(63) == 0x8000_0000_0000_0000 && Pow2(70) == 0x40_0000_0000_0000_0000
    ensures Pow2(42) == 0x400_0000_0000 && Pow2(49) == 0x2_0000_0000_0000 && Pow2(56) == 0x100_0000_0000_0000
  {
    assert Pow2(2) == 4 && Pow2(4) == 16 && Pow2(6) == 64 && Pow2(7) == 128;
    Pow2Adds(7, 7);
    Pow2Adds(14, 7);
    Pow2Adds(21, 7);
    Pow2Adds(28, 7);
    Pow2Adds(35, 7);
    Pow2Adds(42, 7);
    Pow2Adds(49, 7);
    Pow2Adds(56, 7);
    Pow2Adds(63, 7);
  }

  /** The seven lowest bits, and the rest. */
  lemma LowBits(value: nat)
    ensures BitAnd(value, 0x7f) == value % 128 && Shr(value, 7) == value / 128
    ensures BitOr(0x80, value % 128) == 128 + value % 128 == BitOr(value % 128, 0x80)
    ensures BitOr(value % 128, 0) == value % 128
  {
    Powers();
    MaskIsModulo(value, 7);
    OrIsSum(value % 128, 1, 7);
    OrCommutes(0x80, value % 128);
  }

  lemma {:induction false} TopBit(b: nat, k: nat)
    requires b < Pow2(k + 1)
    ensures BitAnd(b, Pow2(k)) == if b >= Pow2(k) then Pow2(k) else 0
    decreases k
  {
    if k > 0 && b > 0 {
      TopBit(b / 2, k - 1);
      assert Pow2(k) / 2 == Pow2(k - 1) && Pow2(k) % 2 == 0;
    }
  }

  /** The tests the decoders make on a byte. */
  lemma ByteTests(b: byte)
    ensures BitAnd(b, 0x80) != 0 <==> b >= 128
    ensures BitAnd(b, 0x7f) == b % 128
    ensures BitAnd(b, 0x81) == 0 <==> b < 128 && b % 2 == 0
  {
    Powers();
    assert Pow2(8) == 256;
    TopBit(b, 7);
    MaskIsModulo(b, 7);
    TopBit(b / 2, 6);
    assert b > 0 ==> BitAnd(b, 0x81) == 2 * BitAnd(b / 2, 64) + b % 2;
  }

  lemma ZigZagIsNatural(num: int)
    ensures ZigZag(num) >= 0
  {
    XorSign(2 * num, Shr(num, 63));
    assert Shl(num, 1) == 2 * num by { assert Pow2(1) == 2; }
    ShrSign(num, 63);
  }

  lemma ShrSign(n: int, k: nat)
    ensures Shr(n, k) >= 0 <==> n >= 0
  {
    var p := Pow2(k);
    var d := n / p;
    assert n == d * p + n % p && 0 <= n % p < p;
    if d <= -1 {
      AtLeastOnce(-d, p);
      assert -d * p == -(d * p);
    } else {
      assert d * p >= 0;
    }
  }

  /** On 64-bit numbers: 0, -1, 1, -2, 2, ... become 0, 1, 2, 3, 4, ... */
  lemma ZigZagIs(num: int)
    requires IsInt64(num)
    ensures ZigZag(num) == if num >= 0 then 2 * num else -2 * num - 1
    ensures 0 <= ZigZag(num) < 0x1_0000_0000_0000_0000
  {
    Powers();
    if num >= 0 {
      DivModIs(num, Pow2(63), 0, num);
    } else {
      DivModIs(num, Pow2(63), -1, num + Pow2(63));
    }
    XorWithSign(2 * num);
  }

  lemma UnZigZagIs(value: nat)
    ensures UnZigZag(value) == if value % 2 == 0 then value / 2 else -(value / 2) - 1
  {
    Powers();
    MaskIsModulo(value, 1);
    XorWithSign(value / 2);
  }

  lemma ZigZagRoundTrip(num: int)
    requires IsInt64(num)
    ensures UnZigZag(ZigZag(num)) == num
  {
    ZigZagIs(num);
    UnZigZagIs(ZigZag(num));
  }

  /** The encoding of a number. */
  function Encode(num: int): seq<byte> {
    ZigZagIsNatural(num);
    Base128(ZigZag(num))
  }

  // ----- sizes -------------------------------------------------------------------------

  /** A number has at most k bytes exactly if it has at most 7k bits. */
  lemma {:induction false} SizeIs(z: nat, k: nat)
    requires k >= 1
    ensures |Base128(z)| <= k <==> z < Pow2(7 * k)
    decreases k
  {
    Powers();
    if k > 1 {
      assert 7 * k == 7 + 7 * (k - 1);
      Pow2Adds(7, 7 * (k - 1));
      var p := Pow2(7 * (k - 1));
      assert p >= 128 by {
        Pow2Adds(7, 7 * (k - 2));
        assert 7 * (k - 1) == 7 + 7 * (k - 2);
        AtLeastOnce(Pow2(7 * (k - 2)), 128);
      }
      if z >= 128 {
        SizeIs(z / 128, k - 1);
        Below(z, p);
      }
    }
  }

  lemma Below(z: nat, p: nat)
    ensures z / 128 < p <==> z < 128 * p
  {
  }

  /** A 64-bit number takes 1 to 10 bytes. */
  lemma Int64Size(num: int)
    requires IsInt64(num)
    ensures 1 <= |Encode(num)| <= 10
  {
    ZigZagIs(num);
    Powers();
    SizeIs(ZigZag(num), 10);
  }

  method SizeOfVarint1(num: int) returns (res: nat)
    ensures res == |Encode(num)|
  {
    ZigZagIsNatural(num);
    var value: nat := ZigZag(num);
    res := 0;
    while true
      invariant res + |Base128(value)| == |Encode(num)|
      decreases value
    {
      LowBits(value);
      res := res + 1;
      value := Shr(value, 7);
      if value == 0 { break; }
    }
  }

  /** The ladder of thresholds; beyond ten bytes it stops counting. */
  function SizeOfVarint2(num: int): nat {
    var value := ZigZag(num);
    if value <= 0x7f then 1
    else if value <= 0x3fff then 2
    else if value <= 0x1f_ffff then 3
    else if value <= 0xfff_ffff then 4
    else if value <= 0x7_ffff_ffff then 5
    else if value <= 0x3ff_ffff_ffff then 6
    else if value <= 0x1_ffff_ffff_ffff then 7
    else if value <= 0xff_ffff_ffff_ffff then 8
    else if value <= 0x7fff_ffff_ffff_ffff then 9
    else 10
  }

  lemma LadderIsSize(num: int)
    ensures SizeOfVarint2(num) == |Encode(num)| <==> ZigZag(num) < Pow2(70)
    ensures IsInt64(num) ==> SizeOfVarint2(num) == |Encode(num)|
  {
    ZigZagIsNatural(num);
    var z := ZigZag(num);
    Powers();
    SizeIs(z, 1);
    SizeIs(z, 2);
    SizeIs(z, 3);
    SizeIs(z, 4);
    SizeIs(z, 5);
    SizeIs(z, 6);
    SizeIs(z, 7);
    SizeIs(z, 8);
    SizeIs(z, 9);
    SizeIs(z, 10);
    if IsInt64(num) { Int64Size(num); }
  }

  lemma ZigZagOfPower(k: nat)
    requires k >= 63
    ensures ZigZag(Pow2(k)) == Pow2(k + 1) + Pow2(k - 63)
  {
    ShrOfPower(k - 63, 63);
    Doubled(k);
    Pow2Grows(k - 63, k);
    XorIsSum(k + 1, Pow2(k - 63));
  }

  lemma Doubled(k: nat)
    ensures Shl(Pow2(k), 1) == Pow2(k + 1)
  {
    assert Pow2(1) == 2 * Pow2(0);
  }

  /** The ladder is wrong about 2^69 and every higher power: they take more than ten bytes. */
  lemma BeyondTheLadder(k: nat)
    requires k >= 69
    ensures |Encode(Pow2(k))| > 10 && SizeOfVarint2(Pow2(k)) == 10
  {
    PowerIsPast(k, 70);
    PastTheTop(Pow2(k));
  }

  lemma PowerIsPast(k: nat, top: nat)
    requires k >= 63 && top <= k + 1
    ensures ZigZag(Pow2(k)) >= Pow2(top)
  {
    ZigZagOfPower(k);
    Pow2Grows(top, k + 1);
  }

  lemma PastTheTop(num: int)
    requires ZigZag(num) >= Pow2(70)
    ensures |Encode(num)| > 10 && SizeOfVarint2(num) == 10
  {
    SizeIs(ZigZag(num), 10);
    Powers();
  }

  // ----- encoders ----------------------------------------------------------------------

  /** A buffer that is appended to. */
  class ByteBuffer {
    var bytes: seq<byte>

    constructor ()
      ensures bytes == []
    {
      bytes := [];
    }

    method Append(b: byte)
      modifies this
      ensures bytes == old(bytes) + [b]
    {
      bytes := bytes + [b];
    }
  }

  lemma FirstByte(num: nat)
    ensures 0 <= BitOr(BitAnd(num, 0x7f), if num > 0x7f then 0x80 else 0) < 256
    ensures Shr(num, 7) == num / 128 && (num / 128 == 0 <==> num < 128)
    ensures Base128(num) ==
              [BitOr(BitAnd(num, 0x7f), if num > 0x7f then 0x80 else 0)] + if num / 128 == 0 then []
                else Base128(num / 128)
  {
    LowBits(num);
  }

  /** Ten bytes are allocated, and a number that needs more raises. */
  method EncodeVarint1(num0: int) returns (r: Outcome<seq<byte>, DecodeError>)
    ensures r == if |Encode(num0)| <= 10 then Returns(Encode(num0)) else Raises(OutOfRange)
  {
    ZigZagIsNatural(num0);
    var num: nat := ZigZag(num0);
    var buf := new byte[10](_ => 0);
    for i := 0 to 10
      invariant buf[..i] + Base128(num) == Encode(num0)
    {
      FirstByte(num);
      ghost var before := buf[..i];
      buf[i] := BitOr(BitAnd(num, 0x7f), if num > 0x7f then 0x80 else 0);
      assert buf[..i + 1] == before + [buf[i]];
      if Shr(num, 7) == 0 {
        assert [buf[i]] + [] == [buf[i]];
        assert Encode(num0) == buf[..i + 1];
        return Returns(buf[..i + 1]);
      }
      Shift(before, buf[i], Base128(num / 128));
      num := Shr(num, 7);
    }
    return Raises(OutOfRange);
  }

  /** The bytes still to be written when `bits` were taken off and `value` is left. */
  function Left(bits: nat, value: nat): seq<byte>
    requires bits < 128
  {
    if value == 0 then [bits] else [128 + bits] + Base128(value)
  }

  lemma TakesOff(z: nat)
    ensures 0 <= BitAnd(z, 0x7f) < 128 && 0 <= Shr(z, 7) <= z && Base128(z) == Left(BitAnd(z, 0x7f), Shr(z, 7))
    ensures z > 0 ==> Shr(z, 7) < z
  {
    LowBits(z);
  }

  lemma Shift(a: seq<byte>, b: byte, c: seq<byte>)
    ensures a + ([b] + c) == (a + [b]) + c
  {
  }

  /** bits = value & 0x7f; value >>= 7 */
  method TakeOff(z: nat) returns (bits: nat, value: nat)
    ensures bits < 128 && Base128(z) == Left(bits, value) && value <= z && (z > 0 ==> value < z)
  {
    TakesOff(z);
    bits, value := BitAnd(z, 0x7f), Shr(z, 7);
  }

  lemma SetsTopBit(bits: nat)
    requires bits < 128
    ensures BitOr(0x80, bits) == 128 + bits
  {
    TopBitAdds(bits, 7, Pow2(7));
    Powers();
  }

  lemma TopBitAdds(bits: nat, k: nat, p: nat)
    requires p == Pow2(k) && bits < p
    ensures BitOr(p, bits) == p + bits
  {
    OrIsSum(bits, 1, k);
    OrCommutes(p, bits);
  }

  /** 0x80 | bits */
  method Continued(bits: nat) returns (b: byte)
    requires bits < 128
    ensures b == 128 + bits
  {
    SetsTopBit(bits);
    b := BitOr(0x80, bits);
  }

  /** The general algorithm of encoders 2 and 4. */
  method EncodeLoop(z: nat) returns (res: seq<byte>)
    ensures res == Base128(z)
  {
    var bits, value := TakeOff(z);
    res := [];
    while value != 0
      invariant bits < 128 && res + Left(bits, value) == Base128(z)
      decreases value
    {
      var b := Continued(bits);
      Shift(res, b, Base128(value));
      res := res + [b];
      bits, value := TakeOff(value);
    }
    res := res + [bits];
  }

  method EncodeVarint2(value: int) returns (res: seq<byte>)
    ensures res == Encode(value)
  {
    ZigZagIsNatural(value);
    res := EncodeLoop(ZigZag(value));
  }

  /** The general algorithm of encoders 3 and 6, on a buffer; count is how many bytes it wrote before the last. */
  method AppendLoop(z: nat, buf: ByteBuffer) returns (count: nat, value: nat)
    modifies buf
    ensures buf.bytes == old(buf.bytes) + Base128(z)
    ensures count == |Base128(z)| - 1 && value == 0
  {
    var bits;
    bits, value := TakeOff(z);
    count := 0;
    while value != 0
      invariant bits < 128 && buf.bytes + Left(bits, value) == old(buf.bytes) + Base128(z)
      invariant count + |Left(bits, value)| == |Base128(z)|
      decreases value
    {
      var b := Continued(bits);
      Shift(buf.bytes, b, Base128(value));
      buf.Append(b);
      bits, value := TakeOff(value);
      count := count + 1;
    }
    buf.Append(bits);
  }

  method EncodeVarint3(value0: int, buf: ByteBuffer) returns (value: nat)
    modifies buf
    ensures buf.bytes == old(buf.bytes) + Encode(value0) && value == 0
  {
    ZigZagIsNatural(value0);
    var count;
    count, value := AppendLoop(ZigZag(value0), buf);
  }

  /** The unrolled branches of encoders 4 and 6. */
  function Unrolled(z: nat): seq<int>
    requires z <= 0x7_ffff_ffff
  {
    if z <= 0x7f then [z]
    else if z <= 0x3fff then [BitOr(0x80, BitAnd(z, 0x7f)), Shr(z, 7)]
    else if z <= 0x1f_ffff then [BitOr(0x80, BitAnd(z, 0x7f)), BitOr(0x80, BitAnd(Shr(z, 7), 0x7f)), Shr(z, 14)]
    else if z <= 0xfff_ffff then
      [BitOr(0x80, BitAnd(z, 0x7f)), BitOr(0x80, BitAnd(Shr(z, 7), 0x7f)), BitOr(0x80, BitAnd(Shr(z, 14), 0x7f)),
        Shr(z, 21)]
    else
      [BitOr(0x80, BitAnd(z, 0x7f)), BitOr(0x80, BitAnd(Shr(z, 7), 0x7f)), BitOr(0x80, BitAnd(Shr(z, 14), 0x7f)),
       BitOr(0x80, BitAnd(Shr(z, 21), 0x7f)), Shr(z, 28)]
  }

  lemma Shifts(z: nat)
    ensures Shr(z, 7) == z / 128 && Shr(z, 14) == z / 128 / 128 && Shr(z, 21) == z / 128 / 128 / 128
    ensures Shr(z, 28) == z / 128 / 128 / 128 / 128
  {
    Powers();
  }

  /** The unrolled branches write the same bytes as the loop. */
  lemma UnrolledIsBase128(z: nat)
    requires z <= 0x7_ffff_ffff
    ensures Unrolled(z) == Base128(z)
  {
    Shifts(z);
    LowBits(z);
    LowBits(z / 128);
    LowBits(z / 128 / 128);
    LowBits(z / 128 / 128 / 128);
    Digits(z, BitOr(0x80, BitAnd(z, 0x7f)), BitOr(0x80, BitAnd(Shr(z, 7), 0x7f)), BitOr(0x80, BitAnd(Shr(z, 14), 0x7f)),
           BitOr(0x80, BitAnd(Shr(z, 21), 0x7f)), Shr(z, 7), Shr(z, 14), Shr(z, 21), Shr(z, 28));
  }

  /** The digits of a number of at most five bytes. */
  lemma Digits(z: nat, b0: int, b1: int, b2: int, b3: int, s1: int, s2: int, s3: int, s4: int)
    requires z <= 0x7_ffff_ffff && s1 == z / 128 && s2 == s1 / 128 && s3 == s2 / 128 && s4 == s3 / 128
    requires b0 == 128 + z % 128 && b1 == 128 + s1 % 128 && b2 == 128 + s2 % 128 && b3 == 128 + s3 % 128
    ensures Base128(z) ==
              if z <= 0x7f then [z] else if z <= 0x3fff then [b0, s1] else if z <= 0x1f_ffff then [b0, b1, s2]
              else if z <= 0xfff_ffff then [b0, b1, b2, s3] else [b0, b1, b2, b3, s4]
  {
    if z >= 128 {
      assert Base128(z) == [b0] + Base128(s1);
      if s1 >= 128 {
        assert Base128(s1) == [b1] + Base128(s2);
        if s2 >= 128 {
          assert Base128(s2) == [b2] + Base128(s3);
          if s3 >= 128 {
            assert Base128(s3) == [b3] + Base128(s4);
          }
        }
      }
    }
  }

  method EncodeVarint4(value: int) returns (res: seq<byte>)
    ensures res == Encode(value)
  {
    ZigZagIsNatural(value);
    var z: nat := ZigZag(value);
    if z <= 0x7_ffff_ffff {
      UnrolledIsBase128(z);
      res := Unrolled(z);
    } else {
      res := EncodeLoop(z);
    }
  }

  /** The rest of the code from position k on. */
  ghost predicate EndsWith(code: seq<byte>, k: nat, rest: seq<byte>) {
    k + |rest| == |code| && forall j :: 0 <= j < |rest| ==> code[k + j] == rest[j]
  }

  lemma EndsAfter(code: seq<byte>, k: nat, b: byte, rest: seq<byte>)
    requires EndsWith(code, k, [b] + rest)
    ensures code[k] == b && EndsWith(code, k + 1, rest)
  {
    assert code[k + 0] == ([b] + rest)[0];
    forall j | 0 <= j < |rest| ensures code[k + 1 + j] == rest[j] { assert code[k + (j + 1)] == ([b] + rest)[j + 1]; }
  }

  /** The buffer holds the code's bytes from pos0 up to pos, and is otherwise what it was. */
  ghost predicate Written(now: seq<byte>, was: seq<byte>, code: seq<byte>, pos0: nat, pos: nat) {
    && |now| == |was| && pos0 <= pos <= pos0 + |code|
    && forall k :: 0 <= k < |now| ==> now[k] == if pos0 <= k < pos then code[k - pos0] else was[k]
  }

  lemma WrittenMore(now: seq<byte>, next: seq<byte>, was: seq<byte>, code: seq<byte>, pos0: nat, pos: nat)
    requires Written(now, was, code, pos0, pos) && pos < |now| && pos < pos0 + |code|
    requires next == now[pos := code[pos - pos0]]
    ensures Written(next, was, code, pos0, pos + 1)
  {
  }

  method PutByte(buf: array<byte>, pos: nat, b: byte, ghost was: seq<byte>, ghost code: seq<byte>, ghost pos0: nat,
          ghost rest: seq<byte>)
    requires pos < buf.Length && Written(buf[..], was, code, pos0, pos) && EndsWith(code, pos - pos0, [b] + rest)
    modifies buf
    ensures Written(buf[..], was, code, pos0, pos + 1) && EndsWith(code, pos + 1 - pos0, rest)
  {
    EndsAfter(code, pos - pos0, b, rest);
    WrittenMore(buf[..], buf[..][pos := b], was, code, pos0, pos);
    buf[pos] := b;
  }

  /** Writes into an array from pos on; one that is too short raises. */
  method EncodeVarint5(value0: int, buf: array<byte>, pos0: nat) returns (r: Outcome<nat, DecodeError>)
    modifies buf
    ensures r.Returns? <==> pos0 + |Encode(value0)| <= buf.Length
    ensures r.Returns? ==> r.value == pos0 + |Encode(value0)|
    ensures r.Returns? ==> Written(buf[..], old(buf[..]), Encode(value0), pos0, r.value)
  {
    ZigZagIsNatural(value0);
    var z: nat := ZigZag(value0);
    ghost var code, was := Encode(value0), buf[..];
    var pos := pos0;
    var bits, value := TakeOff(z);
    while value != 0
      invariant bits < 128 && pos0 <= pos && (pos == pos0 || pos <= buf.Length)
      invariant EndsWith(code, pos - pos0, Left(bits, value)) && Written(buf[..], was, code, pos0, pos)
      decreases value
    {
      if pos >= buf.Length { return Raises(EndOfStream); }
      var b := Continued(bits);
      PutByte(buf, pos, b, was, code, pos0, Base128(value));
      bits, value := TakeOff(value);
      pos := pos + 1;
    }
    if pos >= buf.Length { return Raises(EndOfStream); }
    assert Left(bits, value) == [bits] + [];
    PutByte(buf, pos, bits, was, code, pos0, []);
    return Returns(pos + 1);
  }

  /**
   * Encoder 6 appends the same bytes; what it returns is their number, except in the general
   * branch, where it is one less.
   */
  method EncodeVarint6(value: int, buf: ByteBuffer) returns (count: nat)
    modifies buf
    ensures buf.bytes == old(buf.bytes) + Encode(value)
    ensures count == if ZigZag(value) <= 0x7_ffff_ffff then |Encode(value)| else |Encode(value)| - 1
  {
    ZigZagIsNatural(value);
    var z: nat := ZigZag(value);
    if z <= 0x7_ffff_ffff {
      UnrolledIsBase128(z);
      buf.bytes := buf.bytes + Unrolled(z);
      count := |Unrolled(z)|;
    } else {
      var rest;
      count, rest := AppendLoop(z, buf);
    }
  }

  // ----- decoders ----------------------------------------------------------------------

  /** What is left to read once i - pos bytes were read into value. */
  ghost predicate Reading(buffer: seq<byte>, pos: nat, i: nat, value: nat, shift: nat) {
    && pos <= i <= pos + MAX_BYTES && shift == 7 * (i - pos) && value < Pow2(shift)
    && ReadBase128(buffer, pos, MAX_BYTES) == Above(value, Pow2(shift), ReadBase128(buffer, i, MAX_BYTES - (i - pos)))
  }

  lemma StartReading(buffer: seq<byte>, pos: nat)
    ensures Reading(buffer, pos, pos, 0, 0)
  {
  }

  /** What the decoders compute from a byte: its tests, and its seven bits above the bits read so far. */
  lemma ByteAbove(b: byte, value: nat, shift: nat)
    requires value < Pow2(shift)
    ensures b >= 128 <==> BitAnd(b, 0x80) != 0
    ensures BitOr(value, Shl(BitAnd(b, 0x7f), shift)) == value + Pow2(shift) * (b % 128) >= 0
    ensures b < 128 ==> BitOr(value, Shl(b, shift)) == value + Pow2(shift) * b >= 0
  {
    ByteTests(b);
    var low := BitAnd(b, 0x7f);
    PutsAbove(value, low, shift);
    PutsAbove(value, b, shift);
  }

  lemma PutsAbove(value: nat, b: nat, shift: nat)
    requires value < Pow2(shift)
    ensures BitOr(value, Shl(b, shift)) == value + Pow2(shift) * b >= 0
  {
    OrIsSum(value, b, shift);
    Product(b, Pow2(shift));
  }

  lemma Product(b: nat, p: nat)
    ensures b * p == p * b >= 0
  {
  }

  lemma ReadLast(buffer: seq<byte>, pos: nat, i: nat, value: nat, shift: nat)
    requires Reading(buffer, pos, i, value, shift) && i < pos + MAX_BYTES && i < |buffer| && buffer[i] < 128
    ensures ReadBase128(buffer, pos, MAX_BYTES) == Returns((value + Pow2(shift) * buffer[i], i + 1))
  {
    assert ReadBase128(buffer, i, MAX_BYTES - (i - pos)) == Returns((buffer[i], i + 1));
  }

  lemma ReadMore(buffer: seq<byte>, pos: nat, i: nat, value: nat, shift: nat)
    requires Reading(buffer, pos, i, value, shift) && i < pos + MAX_BYTES && i < |buffer| && buffer[i] >= 128
    ensures Reading(buffer, pos, i + 1, value + Pow2(shift) * (buffer[i] % 128), shift + 7)
  {
    var p, b, r := Pow2(shift), buffer[i] % 128, ReadBase128(buffer, i + 1, MAX_BYTES - (i - pos) - 1);
    OneDigit(buffer, i, MAX_BYTES - (i - pos));
    MoreBits(shift);
    Nested(value, p, b, r);
    BelowNext(value, p, b);
  }

  lemma OneDigit(buffer: seq<byte>, i: nat, left: nat)
    requires i < |buffer| && buffer[i] >= 128 && left > 0
    ensures ReadBase128(buffer, i, left) == Above(buffer[i] % 128, 128, ReadBase128(buffer, i + 1, left - 1))
  {
  }

  lemma MoreBits(shift: nat)
    ensures Pow2(shift + 7) == Pow2(shift) * 128
  {
    Powers();
    Pow2Adds(shift, 7);
  }

  lemma Nested(value: nat, p: nat, b: nat, r: Outcome<(nat, nat), DecodeError>)
    ensures Above(value, p, Above(b, 128, r)) == Above(value + p * b, p * 128, r)
  {
    if r.Returns? {
      var high := r.value.0;
      assert p * (b + 128 * high) == p * b + p * 128 * high;
    }
  }

  lemma BelowNext(value: nat, p: nat, b: nat)
    requires value < p && b < 128
    ensures value + p * b < p * 128
  {
    assert p * (b + 1) <= p * 128;
    assert p * (b + 1) == p * b + p;
  }

  lemma ReadByte(buffer: seq<byte>, pos: nat, i: nat, value: nat, shift: nat, next: nat)
    requires Reading(buffer, pos, i, value, shift) && i < pos + MAX_BYTES && i < |buffer|
    requires next == value + Pow2(shift) * (buffer[i] % 128)
    ensures buffer[i] >= 128 ==> Reading(buffer, pos, i + 1, next, shift + 7)
    ensures buffer[i] < 128 ==> ReadBase128(buffer, pos, MAX_BYTES) == Returns((next, i + 1))
  {
    if buffer[i] < 128 { ReadLast(buffer, pos, i, value, shift); } else { ReadMore(buffer, pos, i, value, shift); }
  }

  /**
   * Test the byte's highest bit and put the others above the bits read so far; decoder 1 does
   * not mask the last byte.
   */
  method AddBits(b: byte, value: nat, shift: nat, mask: bool) returns (more: bool, next: nat)
    requires value < Pow2(shift)
    ensures more <==> b >= 128
    ensures next == value + Pow2(shift) * (b % 128)
  {
    ByteAbove(b, value, shift);
    more := BitAnd(b, 0x80) != 0;
    next := if more || mask then BitOr(value, Shl(BitAnd(b, 0x7f), shift)) else BitOr(value, Shl(b, shift));
  }

  method DecodeVarint1(buffer: seq<byte>, pos: nat) returns (r: Outcome<(int, nat), DecodeError>)
    ensures r == Decode(buffer, pos)
  {
    var value: nat, shift: nat := 0, 0;
    StartReading(buffer, pos);
    for i := pos to pos + MAX_BYTES
      invariant Reading(buffer, pos, i, value, shift)
    {
      if i >= |buffer| { return Raises(EndOfStream); }
      var more, next := AddBits(buffer[i], value, shift, false);
      ReadByte(buffer, pos, i, value, shift, next);
      value := next;
      if !more { return Returns((UnZigZag(value), i + 1)); }
      shift := shift + 7;
    }
    return Raises(OutOfRange);
  }

  /** The loop of decoders 2 and 3. */
  method DecodeLoop(buffer: seq<byte>, ghost start: nat, pos0: nat, result0: nat, shift0: nat)
    returns (r: Outcome<(int, nat), DecodeError>)
    requires Reading(buffer, start, pos0, result0, shift0) && shift0 < 64
    ensures r == Decode(buffer, start)
  {
    var result: nat, shift: nat, pos: nat := result0, shift0, pos0;
    while true
      invariant Reading(buffer, start, pos, result, shift) && shift < 64
      decreases start + MAX_BYTES - pos
    {
      if pos >= |buffer| { return Raises(EndOfStream); }
      var more, next := AddBits(buffer[pos], result, shift, true);
      ReadByte(buffer, start, pos, result, shift, next);
      result := next;
      pos := pos + 1;
      if !more { return Returns((UnZigZag(result), pos)); }
      shift := shift + 7;
      if shift >= 64 { return Raises(OutOfRange); }
    }
  }

  method DecodeVarint2(buffer: seq<byte>, pos: nat) returns (r: Outcome<(int, nat), DecodeError>)
    ensures r == Decode(buffer, pos)
  {
    StartReading(buffer, pos);
    r := DecodeLoop(buffer, pos, pos, 0, 0);
  }

  /** The two shortcuts for a byte without the continuation bit. */
  lemma SingleByte(b: byte)
    ensures b % 2 == 0 ==> UnZigZag(b) == Shr(b, 1)
    ensures b % 2 == 1 ==> UnZigZag(b) == BitXor(Shr(b, 1), -1)
  {
    assert Pow2(1) == 2;
    UnZigZagIs(b);
    XorWithSign(Shr(b, 1));
  }

  /** A single byte is decoded without the loop. */
  method DecodeVarint3(buffer: seq<byte>, pos: nat) returns (r: Outcome<(int, nat), DecodeError>)
    ensures r == Decode(buffer, pos)
  {
    if pos >= |buffer| { return Raises(EndOfStream); }
    var result := buffer[pos];
    ByteTests(result);
    SingleByte(result);
    if BitAnd(result, 0x81) == 0 { return Returns((Shr(result, 1), pos + 1)); }
    if BitAnd(result, 0x80) == 0 {
      return Returns((BitXor(Shr(result, 1), -1), pos + 1));
    }
    StartReading(buffer, pos);
    ReadMore(buffer, pos, pos, 0, 0);
    r := DecodeLoop(buffer, pos, pos + 1, BitAnd(result, 0x7f), 7);
  }

  // ----- round trip --------------------------------------------------------------------

  lemma {:induction false} ReadsBack(buffer: seq<byte>, pos: nat, z: nat, left: nat)
    requires pos + |Base128(z)| <= |buffer| && buffer[pos..pos + |Base128(z)|] == Base128(z) && |Base128(z)| <= left
    ensures ReadBase128(buffer, pos, left) == Returns((z, pos + |Base128(z)|))
    decreases left
  {
    var code := Base128(z);
    assert buffer[pos] == code[0];
    if z >= 128 {
      var rest := Base128(z / 128);
      assert code == [128 + z % 128] + rest;
      assert buffer[pos + 1..pos + 1 + |rest|] == buffer[pos..pos + |code|][1..] == rest;
      ReadsBack(buffer, pos + 1, z / 128, left - 1);
    }
  }

  /**
   * Every 64-bit number, wherever its encoding stands in a buffer, is decoded to itself and to
   * the exact end position.
   */
  lemma RoundTrip(num: int, prefix: seq<byte>, suffix: seq<byte>)
    requires IsInt64(num)
    ensures Decode(prefix + Encode(num) + suffix, |prefix|) == Returns((num, |prefix| + |Encode(num)|))
  {
    var buffer := prefix + Encode(num) + suffix;
    assert buffer[|prefix|..|prefix| + |Encode(num)|] == Encode(num);
    Int64Size(num);
    ZigZagIsNatural(num);
    ReadsBack(buffer, |prefix|, ZigZag(num), MAX_BYTES);
    ZigZagRoundTrip(num);
  }
}
