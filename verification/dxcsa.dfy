/**
  The Mach-Siegbert-Vogt DXCSA checksum a DXBC container carries in its bytes 4..19.

  It is MD5's compression function (section 3.4 of RFC 1321, from the initial state of
  section 3.3) run over the container from byte 20 on, with a finalisation of its own:
  the last block starts with the message length in bits and ends with
  `(bits >> 2) | 1`, where MD5 appends a 64-bit length after the padding.

  Words are `bv32`, so additions wrap as `wrapping_add` does. Byte counts and the
  two 32-bit bit counters are integers kept below `2^32`.
*/
module Dxcsa {
  import opened Arith

  type Byte = bv8
  type Word = bv32

  /** The four state words `buf[0..4]`, named as in RFC 1321. */
  datatype State = State(a: Word, b: Word, c: Word, d: Word)

  /** The state `Context::new` starts from (section 3.3 of RFC 1321). */
  const InitialState := State(0x6745_2301, 0xefcd_ab89, 0x98ba_dcfe, 0x1032_5476)

  // ---------------------------------------------------------------------------
  // The compression function

  function F(x: Word, y: Word, z: Word): Word { (x & y) | (!x & z) }
  function G(x: Word, y: Word, z: Word): Word { (x & z) | (y & !z) }
  function H(x: Word, y: Word, z: Word): Word { x ^ y ^ z }
  function I(x: Word, y: Word, z: Word): Word { y ^ (x | !z) }

  /** The auxiliary function of step `i`: `F`, `G`, `H` and `I` for the four rounds of 16 steps. */
  function Mix(i: nat, x: Word, y: Word, z: Word): Word
    requires i < 64
  {
    if i < 16 then F(x, y, z)
    else if i < 32 then G(x, y, z)
    else if i < 48 then H(x, y, z)
    else I(x, y, z)
  }

  /** The `k`-th of four values. */
  function Pick(k: nat, v0: Word, v1: Word, v2: Word, v3: Word): Word
    requires k < 4
  {
    if k == 0 then v0 else if k == 1 then v1 else if k == 2 then v2 else v3
  }

  /** The rotation of step `i`: the constants `S1`..`S4` of its round, in turn. */
  function Shift(i: nat): (s: Word)
    requires i < 64
    ensures 0 < s < 32
  {
    if i < 16 then Pick(i % 4, 7, 12, 17, 22)
    else if i < 32 then Pick(i % 4, 5, 9, 14, 20)
    else if i < 48 then Pick(i % 4, 4, 11, 16, 23)
    else Pick(i % 4, 6, 10, 15, 21)
  }

  /**
    The message word step `i` reads. Round 1 reads the words in order; rounds 2, 3 and 4
    read word `1 + 5j`, `5 + 3j` and `7j` (mod 16) at their `j`-th step.
  */
  function WordIndex(i: nat): (k: nat)
    requires i < 64
    ensures k < 16
  {
    var j := i % 16;
    if i < 16 then j
    else if i < 32 then (1 + 5 * j) % 16
    else if i < 48 then (5 + 3 * j) % 16
    else (7 * j) % 16
  }

  /** The additive constant of step `i`: the integer part of `2^32 * |sin(i + 1)|`. */
  function Sine(i: nat): Word
    requires i < 64
  {
    match i
    case 0 => 3614090360
    case 1 => 3905402710
    case 2 => 606105819
    case 3 => 3250441966
    case 4 => 4118548399
    case 5 => 1200080426
    case 6 => 2821735955
    case 7 => 4249261313
    case 8 => 1770035416
    case 9 => 2336552879
    case 10 => 4294925233
    case 11 => 2304563134
    case 12 => 1804603682
    case 13 => 4254626195
    case 14 => 2792965006
    case 15 => 1236535329
    case 16 => 4129170786
    case 17 => 3225465664
    case 18 => 643717713
    case 19 => 3921069994
    case 20 => 3593408605
    case 21 => 38016083
    case 22 => 3634488961
    case 23 => 3889429448
    case 24 => 568446438
    case 25 => 3275163606
    case 26 => 4107603335
    case 27 => 1163531501
    case 28 => 2850285829
    case 29 => 4243563512
    case 30 => 1735328473
    case 31 => 2368359562
    case 32 => 4294588738
    case 33 => 2272392833
    case 34 => 1839030562
    case 35 => 4259657740
    case 36 => 2763975236
    case 37 => 1272893353
    case 38 => 4139469664
    case 39 => 3200236656
    case 40 => 681279174
    case 41 => 3936430074
    case 42 => 3572445317
    case 43 => 76029189
    case 44 => 3654602809
    case 45 => 3873151461
    case 46 => 530742520
    case 47 => 3299628645
    case 48 => 4096336452
    case 49 => 1126891415
    case 50 => 2878612391
    case 51 => 4237533241
    case 52 => 1700485571
    case 53 => 2399980690
    case 54 => 4293915773
    case 55 => 2240044497
    case 56 => 1873313359
    case 57 => 4264355552
    case 58 => 2734768916
    case 59 => 1309151649
    case 60 => 4149444226
    case 61 => 3174756917
    case 62 => 718787259
    case _ => 3951481745
  }

  /** `x` rotated left by `s` bits. */
  function Rotl(x: Word, s: Word): Word
    requires 0 < s < 32
  {
    (x << s) | (x >> (32 - s))
  }

  /** Step `i` recomputes its first operand: `a := b + ((a + f(b, c, d) + X[k] + T[i]) <<< s)`. */
  function Step(i: nat, a: Word, b: Word, c: Word, d: Word, x: seq<Word>): Word
    requires i < 64 && |x| == 16
  {
    Rotl(a + Mix(i, b, c, d) + x[WordIndex(i)] + Sine(i), Shift(i)) + b
  }

  /**
    The state after the first `n` steps, in the form of RFC 1321 where every step
    updates the first word and then rotates the four words: `(a, b, c, d) := (d, a', b, c)`.
  */
  function Steps(s: State, x: seq<Word>, n: nat): State
    requires n <= 64 && |x| == 16
  {
    if n == 0 then s
    else
      var p := Steps(s, x, n - 1);
      State(p.d, Step(n - 1, p.a, p.b, p.c, p.d, x), p.b, p.c)
  }

  lemma StepsNext(s: State, x: seq<Word>, n: nat)
    requires n < 64 && |x| == 16
    ensures var p := Steps(s, x, n); Steps(s, x, n + 1) == State(p.d, Step(n, p.a, p.b, p.c, p.d, x), p.b, p.c)
  {
  }

  /**
    Four steps from a state that is a multiple of four steps in, written as the source
    writes them: the registers keep their names and each step updates the next one of
    `a`, `d`, `c`, `b`.
  */
  lemma {:induction false} FourSteps(s: State, x: seq<Word>, g: nat)
    requires g < 16 && |x| == 16
    ensures
      var p := Steps(s, x, 4 * g);
      var a := Step(4 * g, p.a, p.b, p.c, p.d, x);
      var d := Step(4 * g + 1, p.d, a, p.b, p.c, x);
      var c := Step(4 * g + 2, p.c, d, a, p.b, x);
      var b := Step(4 * g + 3, p.b, c, d, a, x);
      Steps(s, x, 4 * g + 4) == State(a, b, c, d)
  {
    var i := 4 * g;
    StepsNext(s, x, i);
    StepsNext(s, x, i + 1);
    StepsNext(s, x, i + 2);
    StepsNext(s, x, i + 3);
  }

  /** Word-wise sum modulo `2^32`. */
  function Sum(p: State, q: State): State {
    State(p.a + q.a, p.b + q.b, p.c + q.c, p.d + q.d)
  }

  /** One compression of the 16-word block `x`: the 64 steps, then the result added into the state. */
  function Compress(s: State, x: seq<Word>): State
    requires |x| == 16
  {
    Sum(s, Steps(s, x, 64))
  }

  /**
    `transform` as the source writes it: the four registers are never rotated; instead
    each group of four steps names them in the order `(a, b, c, d)`, `(d, a, b, c)`,
    `(c, d, a, b)`, `(b, c, d, a)`. After every group the registers hold exactly the
    rotating state of RFC 1321, so the result is one `Compress`.
  */
  method Transform(s: State, x: seq<Word>) returns (r: State)
    requires |x| == 16
    ensures r == Compress(s, x)
  {
    var a, b, c, d := s.a, s.b, s.c, s.d;
    var g := 0;
    while g < 16
      invariant 0 <= g <= 16
      invariant State(a, b, c, d) == Steps(s, x, 4 * g)
    {
      var i := 4 * g;
      FourSteps(s, x, g);
      a := Step(i, a, b, c, d, x);
      d := Step(i + 1, d, a, b, c, x);
      c := Step(i + 2, c, d, a, b, x);
      b := Step(i + 3, b, c, d, a, x);
      assert i + 4 == 4 * (g + 1);
      g := g + 1;
    }
    assert 4 * g == 64;
    r := Sum(s, State(a, b, c, d));
  }

  // ---------------------------------------------------------------------------
  // Bytes and words

  /** The word whose little-endian bytes are `m[j..j + 4]`. */
  function LeWord(m: seq<Byte>, j: nat): Word
    requires j + 4 <= |m|
  {
    (m[j + 3] as Word << 24) | (m[j + 2] as Word << 16) | (m[j + 1] as Word << 8) | m[j] as Word
  }

  /** The little-endian bytes of `w` (`to_le_bytes`). */
  function LeBytes(w: Word): (r: seq<Byte>)
    ensures |r| == 4
  {
    [(w & 0xff) as Byte, ((w >> 8) & 0xff) as Byte, ((w >> 16) & 0xff) as Byte, (w >> 24) as Byte]
  }

  /** Reading back the bytes of a word gives the word. */
  lemma LeWordOfBytes(w: Word)
    ensures LeWord(LeBytes(w), 0) == w
  {
  }

  /** Writing out a word read from four bytes gives those bytes. */
  lemma LeBytesOfWord(m: seq<Byte>, j: nat)
    requires j + 4 <= |m|
    ensures LeBytes(LeWord(m, j)) == m[j..j + 4]
  {
  }

  /** The words of `m`, four bytes each, read little-endian. */
  function Words(m: seq<Byte>): (x: seq<Word>)
    requires |m| % 4 == 0
    ensures |x| == |m| / 4
    decreases |m|
  {
    if |m| == 0 then [] else [LeWord(m, 0)] + Words(m[4..])
  }

  /** The 16 words of a 64-byte block, each read little-endian. */
  function BlockWords(m: seq<Byte>): (x: seq<Word>)
    requires |m| == 64
    ensures |x| == 16
  {
    Words(m)
  }

  // ---------------------------------------------------------------------------
  // Streaming: `Context` and `update`

  /** The state after compressing every whole 64-byte block of `m` in order; a partial block at the end is not compressed. */
  function Absorb(h: State, m: seq<Byte>): State
    decreases |m|
  {
    if |m| < 64 then h else Absorb(Compress(h, BlockWords(m[..64])), m[64..])
  }

  /** Absorbing a whole number of blocks and then more bytes is absorbing them all. */
  lemma {:induction false} AbsorbConcat(h: State, p: seq<Byte>, q: seq<Byte>)
    requires |p| % 64 == 0
    ensures Absorb(h, p + q) == Absorb(Absorb(h, p), q)
    decreases |p|
  {
    if |p| > 0 {
      var k := |p| / 64;
      assert |p| == 64 * k;
      DivModUnique(|p| - 64, 64, k - 1, 0);
      assert (p + q)[..64] == p[..64];
      assert (p + q)[64..] == p[64..] + q;
      AbsorbConcat(Compress(h, BlockWords(p[..64])), p[64..], q);
    } else {
      assert p + q == q;
    }
  }

  /** Absorbing one more block compresses it into the state. */
  lemma AbsorbBlock(h: State, p: seq<Byte>, m: seq<Byte>)
    requires |p| % 64 == 0 && |m| == 64
    ensures Absorb(h, p + m) == Compress(Absorb(h, p), BlockWords(m))
  {
    AbsorbConcat(h, p, m);
    assert m[..64] == m;
  }

  /**
    `Context`: `input` holds the bytes of the block being filled, `bitsLow` and
    `bitsHigh` are `i[0]` and `i[1]`, the number of bits hashed so far as two
    32-bit words, and `buf` is the MD5 state.
  */
  datatype Context = Context(input: seq<Byte>, bitsLow: U32, bitsHigh: U32, buf: State)

  const Two64: nat := Two32 * Two32

  /** The 64-bit bit count `i[1]:i[0]`. */
  function BitCount(c: Context): nat {
    c.bitsHigh * Two32 + c.bitsLow
  }

  /**
    `mdi`, the number of bytes already in `input`: `(i[0] >> 3) & 0x3f`, that is the
    byte count modulo 64 (a shift right by 3 divides by 8, the mask keeps 6 bits).
  */
  function Pending(c: Context): nat {
    (c.bitsLow / 8) % 64
  }

  /** `Context::new`: an empty block, no bits counted, the initial state of RFC 1321. */
  function NewContext(): (c: Context)
    ensures |c.input| == 64 && BitCount(c) == 0 && Pending(c) == 0
  {
    Context(seq(64, _ => 0), 0, 0, InitialState)
  }

  /**
    The bit counters after adding `n` bytes, as lines 171-178 write it: the length is
    truncated to 32 bits, the high word is bumped when `((i[0] + len) << 3) < i[0]`,
    then `len << 3` is added to the low word and `len >> 29` to the high word, all
    wrapping. The carry test shifts the sum, where the carry out of the low word
    is `(i[0] + (len << 3)) < i[0]`.
  */
  function CountAsWritten(low: U32, high: U32, n: nat): (r: (U32, U32))
    ensures r.0 == Count(low, high, n).0
  {
    var len: nat := AsU32(n);
    var high1 := if AsU32(AsU32(low + len) * 8) < low then AsU32(high + 1) else high;
    (AsU32(low + AsU32(len * 8)), AsU32(high1 + len / 0x2000_0000))
  }

  /** The carry test as written and the corrected one give the same answer for this update. */
  predicate CarryTestsAgree(low: U32, n: nat) {
    var len: nat := AsU32(n);
    (AsU32(AsU32(low + len) * 8) < low) == (AsU32(low + AsU32(len * 8)) < low)
  }

  /** The bit counters after adding `n` bytes, with the carry taken out of the low word's own sum. */
  function Count(low: U32, high: U32, n: nat): (r: (U32, U32))
  {
    var len: nat := AsU32(n);
    var high1 := if AsU32(low + AsU32(len * 8)) < low then AsU32(high + 1) else high;
    (AsU32(low + AsU32(len * 8)), AsU32(high1 + len / 0x2000_0000))
  }

  /** `(n * 8) as u32` splits into the bits above 32 and the low word. */
  lemma LengthBits(len: nat)
    ensures len * 8 == Two32 * (len / 0x2000_0000) + AsU32(len * 8)
    ensures AsU32(len * 8) == 8 * (len % 0x2000_0000)
  {
    ModScaled(len, 0x2000_0000, 8);
  }

  /** The carry out of the low word is exactly whether the wrapped sum is below the old low word. */
  lemma LowCarry(low: U32, b: U32)
    ensures low + b == Two32 * (if AsU32(low + b) < low then 1 else 0) + AsU32(low + b)
  {
    if low + b < Two32 {
      DivModUnique(low + b, Two32, 0, low + b);
    } else {
      DivModUnique(low + b, Two32, 1, low + b - Two32);
    }
  }

  /** Two wrapping additions wrap their total once. */
  lemma WrapTwice(x: nat, y: nat)
    ensures AsU32(AsU32(x) + y) == AsU32(x + y)
  {
    ModOfSum(x, y, Two32);
    ModOfSum(AsU32(x), y, Two32);
  }

  /** A 64-bit count `k:low` reduced modulo `2^64` keeps the low word and wraps the high one. */
  lemma Wrap64(k: nat, low: U32)
    ensures (k * Two32 + low) % Two64 == AsU32(k) * Two32 + low
  {
    DivModUnique(k * Two32 + low, Two64, k / Two32, AsU32(k) * Two32 + low);
  }

  /** Whether the corrected low word wrapped around when `n` bytes were counted. */
  function Carry(low: U32, high: U32, n: nat): nat {
    if Count(low, high, n).0 < low then 1 else 0
  }

  /** The corrected high word is the old one plus the carry and the length's top bits, wrapped. */
  lemma CountHigh(low: U32, high: U32, n: nat)
    ensures Count(low, high, n).1 == AsU32(high + Carry(low, high, n) + AsU32(n) / 0x2000_0000)
  {
    WrapTwice(high + Carry(low, high, n), AsU32(n) / 0x2000_0000);
  }

  /** Without wrapping the high word, the corrected counters hold the old count plus `8 * len`. */
  lemma CountExact(low: U32, high: U32, n: nat)
    ensures high * Two32 + low + 8 * AsU32(n)
         == (high + Carry(low, high, n) + AsU32(n) / 0x2000_0000) * Two32 + Count(low, high, n).0
  {
    var len: nat := AsU32(n);
    LengthBits(len);
    LowCarry(low, AsU32(len * 8));
  }

  /** The corrected counters add exactly `8 * (n as u32)` bits to the 64-bit count, modulo `2^64`. */
  lemma CountAddsBits(low: U32, high: U32, n: nat)
    ensures Count(low, high, n).1 * Two32 + Count(low, high, n).0 == (high * Two32 + low + 8 * AsU32(n)) % Two64
  {
    CountHigh(low, high, n);
    CountExact(low, high, n);
    Wrap64(high + Carry(low, high, n) + AsU32(n) / 0x2000_0000, Count(low, high, n).0);
  }

  /** The corrected low word, read in bytes, moves on by the length modulo `2^29`. */
  lemma CountLowBytes(low: U32, high: U32, n: nat)
    ensures Count(low, high, n).0 / 8 == (low / 8 + AsU32(n) % 0x2000_0000) % 0x2000_0000
  {
    var len: nat := AsU32(n);
    var a := low / 8 + len % 0x2000_0000;
    LengthBits(len);
    var low1 := Count(low, high, n).0;
    assert low + AsU32(len * 8) == 8 * a + low % 8;
    DivModUnique(8 * a + low % 8, Two32, a / 0x2000_0000, 8 * (a % 0x2000_0000) + low % 8);
    DivModUnique(low1, 8, a % 0x2000_0000, low % 8);
  }

  /** Reducing modulo `2^29` and `2^32` keeps the residue modulo 64. */
  lemma BytesMod64(lowBytes: nat, n: nat)
    ensures ((lowBytes + AsU32(n) % 0x2000_0000) % 0x2000_0000) % 64 == (lowBytes % 64 + n) % 64
  {
    var len: nat := AsU32(n);
    ModOfMod(lowBytes + len % 0x2000_0000, 0x2000_0000, 64);
    ModOfSum(lowBytes, len % 0x2000_0000, 64);
    ModOfMod(len, 0x2000_0000, 64);
    ModOfMod(n, Two32, 64);
    ModOfSum(lowBytes % 64, n, 64);
    ModOfSum(lowBytes, len, 64);
  }

  /** After counting `n` more bytes, the byte position in the block has moved on by `n`, modulo 64. */
  lemma CountTracksPending(low: U32, high: U32, n: nat)
    ensures (Count(low, high, n).0 / 8) % 64 == ((low / 8) % 64 + n) % 64
  {
    CountLowBytes(low, high, n);
    BytesMod64(low / 8, n);
  }

  /**
    The carry test as written bumps the high word when nothing is added: from
    `i[0] = 0x2000_0000` (64 MiB hashed) a zero-length update counts `2^32` more bits.
  */
  lemma CountAsWrittenSpuriousCarry()
    ensures CountAsWritten(0x2000_0000, 0, 0) == (0x2000_0000, 1)
    ensures Count(0x2000_0000, 0, 0) == (0x2000_0000, 0)
  {
  }

  /**
    Writing a byte just after the first `mdi` bytes of the block appends it to them, and
    when it fills the block, the whole block follows the bytes compressed so far.
  */
  lemma PutByte(done: seq<Byte>, input: seq<Byte>, mdi: nat, b: Byte)
    requires mdi < |input|
    ensures done + input[mdi := b][..mdi + 1] == done + input[..mdi] + [b]
    ensures mdi + 1 == |input| ==> (done + input[mdi := b]) + input[mdi := b][..0] == done + input[..mdi] + [b]
  {
    assert input[mdi := b][..mdi + 1] == input[..mdi] + [b];
    if mdi + 1 == |input| {
      assert input[mdi := b][..mdi + 1] == input[mdi := b];
    }
  }

  /** Absorbing fewer than 64 more bytes after whole blocks leaves the state unchanged. */
  lemma AbsorbShort(h: State, p: seq<Byte>, q: seq<Byte>)
    requires |p| % 64 == 0 && |q| < 64
    ensures Absorb(h, p + q) == Absorb(h, p)
  {
    AbsorbConcat(h, p, q);
  }

  /** The bytes absorbed and pending after a turn of the loop have grown by that turn's byte. */
  lemma FillStep(w0: seq<Byte>, data: seq<Byte>, n: nat, before: seq<Byte>, after: seq<Byte>)
    requires n < |data| && before == w0 + data[..n] && after == before + [data[n]]
    ensures after == w0 + data[..n + 1]
  {
    assert data[..n + 1] == data[..n] + [data[n]];
  }

  /** A full block moves from the pending bytes to the absorbed ones. */
  lemma FillFlush(h: State, done: seq<Byte>, input: seq<Byte>)
    requires |done| % 64 == 0 && |input| == 64
    ensures Compress(Absorb(h, done), BlockWords(input)) == Absorb(h, done + input[..64])
  {
    assert input[..64] == input;
    AbsorbBlock(h, done, input);
  }

  /** After the loop, the stream is the absorbed whole blocks followed by the pending bytes. */
  lemma FillDone(h: State, input0: seq<Byte>, mdi0: nat, data: seq<Byte>, done: seq<Byte>, blocks: nat, input: seq<Byte>, mdi: nat)
    requires mdi0 <= |input0| && mdi < 64 && mdi <= |input|
    requires done + input[..mdi] == input0[..mdi0] + data && |done| == 64 * blocks
    ensures Absorb(h, done) == Absorb(h, input0[..mdi0] + data)
    ensures mdi == (mdi0 + |data|) % 64
    ensures input[..mdi] == (input0[..mdi0] + data)[mdi0 + |data| - mdi..]
  {
    var w := input0[..mdi0] + data;
    DivModUnique(|w|, 64, blocks, mdi);
    DivModUnique(|done|, 64, blocks, 0);
    AbsorbShort(h, done, input[..mdi]);
    assert w[|done|..] == input[..mdi];
  }

  /**
    One turn of the loop of `Context::update`: stores byte `b` at position `mdi` of the
    block and, when that fills the block, compresses it into `buf` and starts a new one.
    The ghost `done` is the bytes compressed so far (`blocks` whole blocks): afterwards
    the bytes compressed and pending are the ones before followed by `b`.
  */
  method Put(input: seq<Byte>, mdi: nat, buf: State, b: Byte, ghost h: State, ghost done: seq<Byte>, ghost blocks: nat)
    returns (input1: seq<Byte>, mdi1: nat, buf1: State, ghost done1: seq<Byte>, ghost blocks1: nat)
    requires |input| == 64 && mdi < 64 && |done| == 64 * blocks && buf == Absorb(h, done)
    ensures |input1| == 64 && mdi1 < 64 && |done1| == 64 * blocks1 && buf1 == Absorb(h, done1)
    ensures done1 + input1[..mdi1] == done + input[..mdi] + [b]
    ensures mdi1 == (mdi + 1) % 64
  {
    input1 := input[mdi := b];
    PutByte(done, input, mdi, b);
    if mdi + 1 == 64 {
      buf1, done1, blocks1 := Flush(input1, buf, h, done, blocks);
      mdi1 := 0;
    } else {
      buf1, done1, blocks1 := buf, done, blocks;
      mdi1 := mdi + 1;
    }
  }

  /** A full block is compressed into `buf` and joins the bytes compressed so far. */
  method Flush(block: seq<Byte>, buf: State, ghost h: State, ghost done: seq<Byte>, ghost blocks: nat)
    returns (buf1: State, ghost done1: seq<Byte>, ghost blocks1: nat)
    requires |block| == 64 && |done| == 64 * blocks && buf == Absorb(h, done)
    ensures buf1 == Compress(buf, BlockWords(block))
    ensures buf1 == Absorb(h, done1) && done1 == done + block && |done1| == 64 * blocks1
  {
    DivModUnique(|done|, 64, blocks, 0);
    FillFlush(h, done, block);
    assert block[..64] == block;
    buf1 := Transform(buf, BlockWords(block));
    done1 := done + block;
    blocks1 := blocks + 1;
  }

  /**
    The loop of `Context::update`: copies `data` byte by byte into the block after its
    `mdi` pending bytes, compressing the block into `buf` each time it is full. The
    bytes compressed are the pending ones followed by `data`, 64 at a time; the rest is
    left pending at the start of the block.
  */
  method Fill(input0: seq<Byte>, mdi0: nat, buf0: State, data: seq<Byte>) returns (input: seq<Byte>, mdi: nat, buf: State)
    requires |input0| == 64 && mdi0 < 64
    ensures |input| == 64 && mdi == (mdi0 + |data|) % 64
    ensures buf == Absorb(buf0, input0[..mdi0] + data)
    ensures input[..mdi] == (input0[..mdi0] + data)[mdi0 + |data| - mdi..]
  {
    input, mdi, buf := input0, mdi0, buf0;
    ghost var w0 := input0[..mdi0];
    ghost var done: seq<Byte> := [];
    ghost var blocks := 0;
    var n := 0;
    assert data[..0] == [];
    while n < |data|
      invariant 0 <= n <= |data| && |input| == 64 && mdi < 64
      invariant |done| == 64 * blocks && buf == Absorb(buf0, done)
      invariant done + input[..mdi] == w0 + data[..n]
    {
      ghost var before := done + input[..mdi];
      input, mdi, buf, done, blocks := Put(input, mdi, buf, data[n], buf0, done, blocks);
      FillStep(w0, data, n, before, done + input[..mdi]);
      n := n + 1;
    }
    assert data[..n] == data;
    FillDone(buf0, input0, mdi0, data, done, blocks, input, mdi);
  }

  /**
    `Context::update`: counts the bytes into the 64-bit bit count, then runs the loop
    from the byte position the count gives.
  */
  method Update(ctx: Context, data: seq<Byte>) returns (r: Context)
    requires |ctx.input| == 64
    ensures |r.input| == 64
    ensures (r.bitsLow, r.bitsHigh) == CountAsWritten(ctx.bitsLow, ctx.bitsHigh, |data|)
    ensures CarryTestsAgree(ctx.bitsLow, |data|) ==> BitCount(r) == (BitCount(ctx) + 8 * AsU32(|data|)) % Two64
    ensures Pending(r) == (Pending(ctx) + |data|) % 64 <= Pending(ctx) + |data|
    ensures r.buf == Absorb(ctx.buf, ctx.input[..Pending(ctx)] + data)
    ensures r.input[..Pending(r)] == (ctx.input[..Pending(ctx)] + data)[Pending(ctx) + |data| - Pending(r)..]
  {
    var mdi := Pending(ctx);
    var counts := CountAsWritten(ctx.bitsLow, ctx.bitsHigh, |data|);
    UpdateCounts(ctx, |data|);
    var input, mdi1, buf := Fill(ctx.input, mdi, ctx.buf, data);
    r := Context(input, counts.0, counts.1, buf);
  }

  /** What the counters as written say about the bit count and the pending bytes after `n` more bytes. */
  lemma UpdateCounts(ctx: Context, n: nat)
    ensures var c := CountAsWritten(ctx.bitsLow, ctx.bitsHigh, n);
      && (c.0 / 8) % 64 == (Pending(ctx) + n) % 64 <= Pending(ctx) + n
      && (CarryTestsAgree(ctx.bitsLow, n) ==> c.1 * Two32 + c.0 == (BitCount(ctx) + 8 * AsU32(n)) % Two64)
  {
    var low, high := ctx.bitsLow, ctx.bitsHigh;
    CountAddsBits(low, high, n);
    CountTracksPending(low, high, n);
    if CarryTestsAgree(low, n) {
      assert CountAsWritten(low, high, n) == Count(low, high, n);
    }
  }
}
