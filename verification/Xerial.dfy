/**
 * The xerial block framing of snappy streams in kafka/codec.py: a 16-byte header, then blocks
 * of a big-endian int32 length and that many compressed bytes. The snappy library is a pair of
 * functions of which only what is stated is known.
 */
module Xerial {
  import opened Common

  type Bytes = seq<byte>

  const MAX_INT32: int := 0x7fff_ffff

  /** Marker, "SNAPPY", pad; then version and compat, both 1, as big-endian int32. */
  const MAGIC: Bytes := [130, 83, 78, 65, 80, 80, 89, 0]
  const HEADER: Bytes := MAGIC + [0, 0, 0, 1] + [0, 0, 0, 1]

  datatype Problem =
    | LengthNotInt32            // struct.pack('!i', n)
    | ZeroBlockSize             // range() with step 0
    | TruncatedLength           // struct.unpack_from on fewer than four bytes
    | Corrupt                   // snappy.decompress

  type Result = Outcome<Bytes, Problem>

  datatype Snappy = Snappy(compress: Bytes -> Bytes, decompress: Bytes -> Option<Bytes>)
  {
    /** What is relied on: decompress inverts compress. */
    ghost predicate Inverse() {
      forall x :: decompress(compress(x)) == Some(x)
    }
  }

  // ----- int32 -------------------------------------------------------------------------

  function Pack(n: nat): Bytes
    requires n <= MAX_INT32
  {
    var b3: int, b2: int, b1: int, b0: int := n / 0x100_0000, (n / 0x1_0000) % 256, (n / 0x100) % 256, n % 256;
    [b3, b2, b1, b0]
  }

  /** struct.unpack('!i'): signed. */
  function Unpack(bs: Bytes): int
    requires |bs| == 4
  {
    var b3: int, b2: int, b1: int, b0: int := bs[0], bs[1], bs[2], bs[3];
    var u := ((b3 * 256 + b2) * 256 + b1) * 256 + b0;
    if u > MAX_INT32 then u - 0x1_0000_0000 else u
  }

  lemma PackRoundTrip(n: nat)
    requires n <= MAX_INT32
    ensures Unpack(Pack(n)) == n
  {
    var a := n / 256;
    var b := a / 256;
    assert n / 0x1_0000 == b && n / 0x100_0000 == b / 256;
    assert n == a * 256 + n % 256 && a == b * 256 + a % 256 && b == b / 256 * 256 + b % 256;
  }

  /** A length is a 32-bit number in two's complement, big-endian: the first bit counts -2^31. */
  lemma UnpackIsSigned(bs: Bytes)
    requires |bs| == 4
    ensures var b3: int, b2: int, b1: int, b0: int := bs[0], bs[1], bs[2], bs[3];
            Unpack(bs) == b3 % 128 * 0x100_0000 + b2 * 0x1_0000 + b1 * 0x100 + b0
                          - if b3 >= 128 then 0x8000_0000 else 0
  {
    var b3: int := bs[0];
    assert b3 == b3 % 128 + if b3 >= 128 then 128 else 0;
  }

  // ----- what the streams are ----------------------------------------------------------

  function Chunk(p: Bytes, size: nat): Bytes {
    if size <= |p| then p[..size] else p
  }

  function Block(s: Snappy, chunk: Bytes): Result {
    var block := s.compress(chunk);
    if |block| > MAX_INT32 then Raises(LengthNotInt32) else Returns(Pack(|block|) + block)
  }

  /** The blocks of a payload cut every `size` bytes. */
  function Blocks(s: Snappy, p: Bytes, size: nat): Result
    requires size > 0
    decreases |p|
  {
    if p == [] then Returns([])
    else
      var block := Block(s, Chunk(p, size));
      if block.Raises? then block
      else
        var rest := Blocks(s, p[|Chunk(p, size)|..], size);
        if rest.Raises? then rest else Returns(block.value + rest.value)
  }

  function Encoded(s: Snappy, p: Bytes, size: int): Result {
    if size == 0 then Raises(ZeroBlockSize)
    else if size < 0 then Returns(HEADER)
    else
      var blocks := Blocks(s, p, size);
      if blocks.Raises? then blocks else Returns(HEADER + blocks.value)
  }

  /** With or without the framing. */
  function Compressed(s: Snappy, p: Bytes, compatible: bool, size: int): Result {
    if compatible then Encoded(s, p, size) else Returns(s.compress(p))
  }

  predicate DetectXerialStream(p: Bytes) {
    |p| > 16 && p[..8] == MAGIC
  }

  function Upto(bs: Bytes, end: nat): nat { if end <= |bs| then end else |bs| }

  /** A Python slice index: from the end if negative, and never outside. */
  function Index(n: nat, i: int): nat {
    if i >= n then n else if i >= 0 then i else if n + i > 0 then n + i else 0
  }

  /** bs[a:b] */
  function Slice(bs: Bytes, a: int, b: int): Bytes {
    var lo, hi := Index(|bs|, a), Index(|bs|, b);
    if lo < hi then bs[lo..hi] else []
  }

  /** Python's slices: a negative end counts from the end of the bytes, and what lies outside is left out. */
  lemma SliceHas(bs: Bytes, a: int, b: int)
    ensures 0 <= a <= b <= |bs| ==> Slice(bs, a, b) == bs[a..b]
    ensures -|bs| <= a < 0 ==> Slice(bs, a, b) == Slice(bs, a + |bs|, b)
    ensures -|bs| <= b < 0 ==> Slice(bs, a, b) == Slice(bs, a, b + |bs|)
    ensures a < -|bs| ==> Slice(bs, a, b) == Slice(bs, 0, b)
    ensures b < -|bs| ==> Slice(bs, a, b) == []
    ensures a > |bs| ==> Slice(bs, a, b) == []
    ensures b > |bs| ==> Slice(bs, a, b) == Slice(bs, a, |bs|)
    ensures 0 <= b < a ==> Slice(bs, a, b) == []
  {
  }

  /** bs[a:] */
  function Tail(bs: Bytes, a: int): Bytes { bs[Index(|bs|, a)..] }

  /** One turn of the loop: the payload of the block at the cursor, and where its length puts the cursor. */
  function ReadBlock(s: Snappy, bs: Bytes, cursor: int): Outcome<(Bytes, int), Problem> {
    if |Tail(bs, cursor)| < 4 then Raises(TruncatedLength)
    else
      var end := cursor + 4 + Unpack(Tail(bs, cursor)[..4]);
      match s.decompress(Slice(bs, cursor + 4, end))
      case None => Raises(Corrupt)
      case Some(chunk) => Returns((chunk, end))
  }

  /** The payloads of the blocks from the cursor on, if the loop ends within n turns. */
  function Unblocked(s: Snappy, bs: Bytes, cursor: int, n: nat): Option<Result>
    decreases n
  {
    if cursor >= |bs| then Some(Returns([]))
    else if n == 0 then None
    else
      match ReadBlock(s, bs, cursor)
      case Raises(e) => Some(Raises(e))
      case Returns((chunk, end)) => Prefixed(chunk, Unblocked(s, bs, end, n - 1))
  }

  function Prefixed(out: Bytes, r: Option<Result>): Option<Result> {
    if r.None? then None else Some(Appended(out, r.value))
  }

  function Decoded(s: Snappy, p: Bytes, n: nat): Option<Result> {
    if DetectXerialStream(p) then Unblocked(s, p[16..], 0, n)
    else if s.decompress(p).Some? then Some(Returns(s.decompress(p).value))
    else Some(Raises(Corrupt))
  }

  // ----- when decoding ends ------------------------------------------------------------

  /** Once the loop has ended, more turns change nothing. */
  lemma {:induction false} MoreTurns(s: Snappy, bs: Bytes, cursor: int, n: nat, m: nat)
    requires n <= m && Unblocked(s, bs, cursor, n).Some?
    ensures Unblocked(s, bs, cursor, m) == Unblocked(s, bs, cursor, n)
    decreases n
  {
    if cursor < |bs| && ReadBlock(s, bs, cursor).Returns? {
      MoreTurns(s, bs, ReadBlock(s, bs, cursor).value.1, n - 1, m - 1);
    }
  }

  /** No length read in the first n turns puts the cursor before the beginning. */
  predicate StaysInside(s: Snappy, bs: Bytes, cursor: int, n: nat)
    decreases n
  {
    cursor >= 0 && (cursor < |bs| && n > 0 && ReadBlock(s, bs, cursor).Returns? ==>
                      StaysInside(s, bs, ReadBlock(s, bs, cursor).value.1, n - 1))
  }

  /** A length below -3 that keeps the cursor inside makes the slice empty. */
  lemma BackwardIsEmpty(bs: Bytes, cursor: nat, start: nat)
    requires start == cursor + 4
    ensures forall end {:trigger Slice(bs, start, end)} :: 0 <= end <= cursor ==> Slice(bs, start, end) == []
  {
  }

  /**
   * If the decompressor refuses the empty string, as nothing compresses to it, decoding ends on
   * every stream in which no length puts the cursor before the beginning: each turn moves the
   * cursor on or raises.
   */
  lemma {:induction false} DecodingEnds(s: Snappy, bs: Bytes, cursor: nat, n: nat)
    requires s.decompress([]).None? && n >= |bs| - cursor && StaysInside(s, bs, cursor, n)
    ensures Unblocked(s, bs, cursor, n).Some?
    decreases n
  {
    BackwardIsEmpty(bs, cursor, cursor + 4);
    if cursor < |bs| && ReadBlock(s, bs, cursor).Returns? {
      DecodingEnds(s, bs, ReadBlock(s, bs, cursor).value.1, n - 1);
    }
  }

  /** A length of -4 leaves the cursor where it is: decoding ends there exactly if the empty string is refused. */
  lemma {:induction false} StandsStill(s: Snappy, bs: Bytes, cursor: nat, n: nat)
    requires cursor + 4 <= |bs| && Unpack(bs[cursor..cursor + 4]) == -4 && n > 0
    ensures Unblocked(s, bs, cursor, n).Some? <==> s.decompress([]).None?
    ensures s.decompress([]).None? ==> Unblocked(s, bs, cursor, n) == Some(Raises(Corrupt))
    decreases n
  {
    assert Tail(bs, cursor)[..4] == bs[cursor..cursor + 4];
    BackwardIsEmpty(bs, cursor, cursor + 4);
    if n > 1 && s.decompress([]).Some? { StandsStill(s, bs, cursor, n - 1); }
  }

  // ----- the code ----------------------------------------------------------------------

  method SnappyEncode(s: Snappy, payload: Bytes, compatible: bool, blockSize: int) returns (r: Result)
    ensures r == Compressed(s, payload, compatible, blockSize)
  {
    if !compatible { return Returns(s.compress(payload)); }
    var out := HEADER;
    if blockSize == 0 { return Raises(ZeroBlockSize); }
    if blockSize < 0 { return Returns(out); }
    var i: nat := 0;
    while i < |payload|
      invariant Encoded(s, payload, blockSize) == Appended(out, Blocks(s, From(payload, i), blockSize))
      decreases |payload| - i
    {
      var chunk := payload[i..Upto(payload, i + blockSize)];
      assert chunk == Chunk(From(payload, i), blockSize);
      assert From(payload, i)[|chunk|..] == From(payload, i + blockSize);
      var block := s.compress(chunk);
      if |block| > MAX_INT32 { return Raises(LengthNotInt32); }
      AppendBlock(out, Pack(|block|) + block, Blocks(s, From(payload, i + blockSize), blockSize));
      assert out + Pack(|block|) + block == out + (Pack(|block|) + block);
      out := out + Pack(|block|) + block;
      i := i + blockSize;
    }
    assert From(payload, i) == [] && out + [] == out;
    return Returns(out);
  }

  function From(p: Bytes, i: nat): Bytes { p[Upto(p, i)..] }

  function Appended(out: Bytes, r: Result): Result {
    if r.Raises? then r else Returns(out + r.value)
  }

  lemma AppendBlock(out: Bytes, block: Bytes, rest: Result)
    ensures Appended(out, Appended(block, rest)) == Appended(out + block, rest)
    ensures Appended([], rest) == rest
  {
    if rest.Returns? {
      assert out + (block + rest.value) == (out + block) + rest.value;
      assert [] + rest.value == rest.value;
    }
  }

  lemma PrefixBlock(out: Bytes, block: Bytes, rest: Option<Result>)
    ensures Prefixed(out, Prefixed(block, rest)) == Prefixed(out + block, rest)
    ensures Prefixed([], rest) == rest
  {
    if rest.Some? { AppendBlock(out, block, rest.value); }
  }

  lemma OneTurn(s: Snappy, bs: Bytes, cursor: int, n: nat, chunk: Bytes, end: int)
    requires cursor < |bs| && n > 0 && ReadBlock(s, bs, cursor) == Returns((chunk, end))
    ensures Unblocked(s, bs, cursor, n) == Prefixed(chunk, Unblocked(s, bs, end, n - 1))
  {
  }

  lemma LastTurn(s: Snappy, bs: Bytes, cursor: int, n: nat, out: Bytes, e: Problem)
    requires cursor < |bs| && n > 0 && ReadBlock(s, bs, cursor) == Raises(e)
    ensures Prefixed(out, Unblocked(s, bs, cursor, n)) == Some(Raises(e))
  {
  }

  /** From the cursor on the loop ends within n turns with p. */
  predicate Yields(s: Snappy, bs: Bytes, cursor: int, n: nat, p: Bytes) {
    Unblocked(s, bs, cursor, n) == Some(Returns(p))
  }

  /** One turn, and the rest as known. */
  lemma TurnAndRest(s: Snappy, bs: Bytes, cursor: int, n: nat, chunk: Bytes, end: int, rest: Bytes)
    requires cursor < |bs| && ReadBlock(s, bs, cursor) == Returns((chunk, end)) && Yields(s, bs, end, n, rest)
    ensures Yields(s, bs, cursor, n + 1, chunk + rest)
  {
    OneTurn(s, bs, cursor, n + 1, chunk, end);
  }

  lemma NoTurn(s: Snappy, bs: Bytes, cursor: int, n: nat, out: Bytes)
    requires cursor >= |bs|
    ensures Prefixed(out, Unblocked(s, bs, cursor, n)) == Some(Returns(out))
  {
    assert out + [] == out;
  }

  /** One block: its length, then its data, with Python's slices. */
  method ReadOne(s: Snappy, byt: Bytes, cursor: int) returns (r: Outcome<(Bytes, int), Problem>)
    ensures r == ReadBlock(s, byt, cursor)
  {
    var rest := Tail(byt, cursor);
    if |rest| < 4 { return Raises(TruncatedLength); }
    var blockSize := Unpack(rest[..4]);
    var start := cursor + 4;
    var end := start + blockSize;
    var chunk := s.decompress(Slice(byt, start, end));
    return if chunk.Some? then Returns((chunk.value, end)) else Raises(Corrupt);
  }

  /** For a stream on which the loop ends within n turns. */
  method SnappyDecode(s: Snappy, payload: Bytes, ghost n: nat) returns (r: Result)
    requires Decoded(s, payload, n).Some?
    ensures Decoded(s, payload, n) == Some(r)
  {
    if !DetectXerialStream(payload) {
      var plain := s.decompress(payload);
      return if plain.Some? then Returns(plain.value) else Raises(Corrupt);
    }
    r := DecodeBlocks(s, payload[16..], n);
  }

  method DecodeBlocks(s: Snappy, byt: Bytes, ghost n: nat) returns (r: Result)
    requires Unblocked(s, byt, 0, n).Some?
    ensures Unblocked(s, byt, 0, n) == Some(r)
  {
    var out: Bytes, cursor: int := [], 0;
    ghost var left, goal := n, Unblocked(s, byt, 0, n);
    PrefixBlock([], [], goal);
    while cursor < |byt|
      invariant LeadsTo(s, byt, cursor, left, out, goal)
      decreases left
    {
      var turn := ReadOne(s, byt, cursor);
      ghost var m := TurnGoesOn(s, byt, cursor, left, out, goal);
      if turn.Raises? { return Raises(turn.error); }
      out := out + turn.value.0;
      cursor, left := turn.value.1, m;
    }
    NoTurn(s, byt, cursor, left, out);
    return Returns(out);
  }

  /** With this much read, and as many turns left, the loop ends with the goal. */
  ghost predicate LeadsTo(s: Snappy, bs: Bytes, cursor: int, left: nat, out: Bytes, goal: Option<Result>) {
    goal == Prefixed(out, Unblocked(s, bs, cursor, left)) && Unblocked(s, bs, cursor, left).Some?
  }

  lemma TurnGoesOn(s: Snappy, bs: Bytes, cursor: int, left: nat, out: Bytes, goal: Option<Result>) returns (m: nat)
    requires LeadsTo(s, bs, cursor, left, out, goal) && cursor < |bs|
    ensures left == m + 1
    ensures match ReadBlock(s, bs, cursor)
            case Raises(e) => goal == Some(Raises(e))
            case Returns((chunk, end)) => LeadsTo(s, bs, end, m, out + chunk, goal)
  {
    m := left - 1;
    match ReadBlock(s, bs, cursor)
    case Raises(e) => LastTurn(s, bs, cursor, left, out, e);
    case Returns((chunk, end)) =>
      OneTurn(s, bs, cursor, left, chunk, end);
      PrefixBlock(out, chunk, Unblocked(s, bs, end, m));
  }

  // ----- round trip --------------------------------------------------------------------

  /** A block at the cursor is read back, and the cursor lands on the end of the block. */
  lemma BlockReadsBack(s: Snappy, bs: Bytes, cursor: nat, chunk: Bytes)
    requires s.Inverse() && Block(s, chunk).Returns?
    requires cursor + |Block(s, chunk).value| <= |bs|
    requires bs[cursor..cursor + |Block(s, chunk).value|] == Block(s, chunk).value
    ensures ReadBlock(s, bs, cursor) == Returns((chunk, cursor + |Block(s, chunk).value|))
  {
    var data := s.compress(chunk);
    var block := Pack(|data|) + data;
    assert Tail(bs, cursor)[..4] == bs[cursor..cursor + |block|][..4] == Pack(|data|);
    assert bs[cursor + 4..cursor + |block|] == bs[cursor..cursor + |block|][4..] == data;
    PackRoundTrip(|data|);
    assert Slice(bs, cursor + 4, cursor + |block|) == data;
  }

  lemma ChunkAndRest(p: Bytes, size: nat)
    ensures p == Chunk(p, size) + p[|Chunk(p, size)|..]
  {
  }

  lemma FirstBlock(bs: Bytes, cursor: nat, block: Bytes, rest: Bytes)
    requires cursor <= |bs| && bs[cursor..] == block + rest
    ensures cursor + |block| <= |bs| && bs[cursor..cursor + |block|] == block && bs[cursor + |block|..] == rest
  {
    assert bs[cursor..cursor + |block|] == bs[cursor..][..|block|];
    assert bs[cursor + |block|..] == bs[cursor..][|block|..];
  }

  /** From the cursor on the stream is the blocks of p. */
  predicate Framed(s: Snappy, p: Bytes, size: nat, bs: Bytes, cursor: int) {
    size > 0 && 0 <= cursor <= |bs| && Blocks(s, p, size).Returns? && Blocks(s, p, size).value == bs[cursor..]
  }

  /** The first block of a payload that is not empty is read back, and the others follow. */
  lemma FirstReadsBack(s: Snappy, p: Bytes, size: nat, bs: Bytes, cursor: nat)
    returns (chunk: Bytes, rest: Bytes, end: int)
    requires s.Inverse() && size > 0 && p != [] && Framed(s, p, size, bs, cursor)
    ensures p == chunk + rest && chunk != []
    ensures cursor < end <= |bs| && ReadBlock(s, bs, cursor) == Returns((chunk, end))
    ensures Framed(s, rest, size, bs, end)
  {
    chunk, rest := Chunk(p, size), p[|Chunk(p, size)|..];
    ChunkAndRest(p, size);
    var block := Block(s, chunk).value;
    FirstBlock(bs, cursor, block, Blocks(s, rest, size).value);
    BlockReadsBack(s, bs, cursor, chunk);
    end := cursor + |block|;
  }

  lemma NothingLeft(s: Snappy, bs: Bytes, cursor: nat, n: nat)
    requires cursor <= |bs| && bs[cursor..] == []
    ensures Yields(s, bs, cursor, n, [])
  {
    assert |bs[cursor..]| == 0;
  }

  lemma {:induction false} BlocksReadBack(s: Snappy, p: Bytes, size: nat, bs: Bytes, cursor: nat, n: nat)
    requires s.Inverse() && n >= |p| && Framed(s, p, size, bs, cursor)
    ensures Yields(s, bs, cursor, n, p)
    decreases |p|
  {
    if p != [] {
      var chunk, rest, end := FirstReadsBack(s, p, size, bs, cursor);
      var m := n - 1;
      BlocksReadBack(s, rest, size, bs, end, m);
      TurnAndRest(s, bs, cursor, m, chunk, end, rest);
    } else {
      NothingLeft(s, bs, cursor, n);
    }
  }

  /** Any block makes the stream long enough to be detected. */
  lemma StreamIsDetected(s: Snappy, p: Bytes, size: nat)
    requires size > 0 && p != [] && Blocks(s, p, size).Returns?
    ensures DetectXerialStream(HEADER + Blocks(s, p, size).value)
  {
    var stream := HEADER + Blocks(s, p, size).value;
    assert stream[..8] == MAGIC;
  }

  /**
   * For every payload and block size for which encoding succeeds: decoding ends, within as many
   * turns as the payload has bytes, and gives it back if it is not empty and the block size is
   * positive. Otherwise the stream is the bare header, which is too short to be detected and goes
   * to the plain decompressor.
   */
  lemma RoundTrip(s: Snappy, p: Bytes, size: int, n: nat)
    requires s.Inverse() && Encoded(s, p, size).Returns? && n >= |p|
    ensures Decoded(s, Encoded(s, p, size).value, n) == Some(Returns(p)) <==>
            (p != [] && size > 0) || s.decompress(HEADER) == Some(p)
    ensures p != [] && size > 0 ==> Decoded(s, Encoded(s, p, size).value, n) == Some(Returns(p))
  {
    var stream := Encoded(s, p, size).value;
    if p != [] && size > 0 {
      StreamIsDetected(s, p, size);
      assert stream[16..] == Blocks(s, p, size).value;
      BlocksReadBack(s, p, size, stream[16..], 0, n);
    } else {
      assert stream == HEADER;
    }
  }

  /** Without the framing a payload is read back unless its compressed form looks like a stream. */
  lemma PlainRoundTrip(s: Snappy, p: Bytes, size: int, n: nat)
    requires s.Inverse()
    ensures var stream := Compressed(s, p, false, size).value;
            && (!DetectXerialStream(stream) ==> Decoded(s, stream, n) == Some(Returns(p)))
            && (DetectXerialStream(stream) ==> Decoded(s, stream, n) == Unblocked(s, stream[16..], 0, n))
  {
    assert s.decompress(s.compress(p)) == Some(p);
  }
}
