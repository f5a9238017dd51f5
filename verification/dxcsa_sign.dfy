/**
  `sign` and `sign_in_place`: the DXCSA finalisation over the bytes of a container
  from byte 20 on, and the writing of the result into bytes 4..19.

  `Message` is the byte stream the checksum compresses, written out directly: the
  whole 64-byte blocks of the data, then either one last block holding the length in
  bits, the remaining data, the padding and `(bits >> 2) | 1` in its last word, or,
  when the remaining data leaves no room for both length words, that data padded to a
  block and a further block holding only the two length words.
*/
module DxcsaSign {
  import opened Arith
  import opened Dxcsa

  /** `PADDING`: a single one bit, then zeros. */
  function Padding(): (p: seq<Byte>)
    ensures |p| == 64 && p[0] == 0x80
    ensures forall i :: 1 <= i < 64 ==> p[i] == 0
  {
    [0x80] + seq(63, _ => 0)
  }

  /** `n` zero bytes. */
  function Zeros(n: nat): (z: seq<Byte>)
    ensures |z| == n && forall i :: 0 <= i < n ==> z[i] == 0
  {
    seq(n, _ => 0)
  }

  /** The message length in bits, `len * 8` on `u32`; the callers keep it below `2^32`. */
  function NumBits(len: nat): Word
    requires len * 8 < Two32
  {
    (len * 8) as Word
  }

  /** The word that ends the last block: `(num_bits >> 2) | 1`, always odd. */
  function LengthTag(nb: Word): (t: Word)
    ensures t & 1 == 1
  {
    (nb >> 2) | 1
  }

  /** The block of the long-tail case that holds only the two length words. */
  function LengthBlock(nb: Word): (b: seq<Byte>)
    ensures |b| == 64
  {
    LeBytes(nb) + Zeros(56) + LeBytes(LengthTag(nb))
  }

  /** The sixteen words of `LengthBlock`: `input[0] = num_bits`, `input[15] = (num_bits >> 2) | 1`. */
  function LengthWords(nb: Word): (x: seq<Word>)
    ensures |x| == 16
  {
    [nb] + seq(14, _ => 0) + [LengthTag(nb)]
  }

  /** The four bytes `s[at..at + 4]` replaced by `v` (`copy_from_slice` into a sub-slice). */
  function Splice(s: seq<Byte>, at: nat, v: seq<Byte>): (r: seq<Byte>)
    requires at + |v| <= |s|
    ensures |r| == |s| && r[at..at + |v|] == v
    ensures r[..at] == s[..at] && r[at + |v|..] == s[at + |v|..]
  {
    s[..at] + v + s[at + |v|..]
  }

  /**
    The last block of the short-tail case as the code builds it: the length, the tail,
    the padding up to the end of the block, then the tag written at byte `at`.
  */
  function TailBlock(nb: Word, tail: seq<Byte>, at: nat): (b: seq<Byte>)
    requires |tail| < 56 && at <= 60
    ensures |b| == 64
  {
    Splice(LeBytes(nb) + tail + Padding()[..60 - |tail|], at, LeBytes(LengthTag(nb)))
  }

  /** The long-tail finalisation: the tail padded to a whole block, then the length block. */
  function PadAndLength(nb: Word, tail: seq<Byte>): seq<Byte>
    requires |tail| < 64
  {
    tail + Padding()[..64 - |tail|] + LengthBlock(nb)
  }

  /** What the code compresses after the whole blocks: `tail` is the data left over, fewer than 64 bytes. */
  function Final(nb: Word, tail: seq<Byte>, at: nat): seq<Byte>
    requires |tail| < 64 && at <= 60
  {
    if |tail| >= 56 then PadAndLength(nb, tail) else TailBlock(nb, tail, at)
  }

  /** The stream the code compresses when the short-tail branch writes the tag at byte `at`. */
  function Stream(m: seq<Byte>, at: nat): seq<Byte>
    requires |m| * 8 < Two32 && at <= 60
  {
    var full := |m| - |m| % 64;
    m[..full] + Final(NumBits(|m|), m[full..], at)
  }

  /**
    The last block of the short-tail case: the length word, the tail, the padding, and
    the tag in the last word, where `LengthBlock` also has it.
  */
  function LastBlock(nb: Word, tail: seq<Byte>): (b: seq<Byte>)
    requires |tail| < 56
    ensures |b| == 64
  {
    LeBytes(nb) + tail + Padding()[..56 - |tail|] + LeBytes(LengthTag(nb))
  }

  /** The message DXCSA compresses: the whole blocks of the data, then the finalisation. */
  function Message(m: seq<Byte>): seq<Byte>
    requires |m| * 8 < Two32
  {
    var full := |m| - |m| % 64;
    var tail := m[full..];
    m[..full] + (if |tail| >= 56 then PadAndLength(NumBits(|m|), tail) else LastBlock(NumBits(|m|), tail))
  }

  /** The checksum of the data `m` (the container from byte 20 on). */
  function Checksum(m: seq<Byte>): State
    requires |m| * 8 < Two32
  {
    Absorb(InitialState, Message(m))
  }

  /**
    The four words `sign` returns as written: the stream whose short-tail block has the
    tag at byte 15. It is the checksum when the tail is 56 bytes or more
    (`SignatureLongTail`), and hashes a different stream otherwise (`AsWrittenDropsTag`).
  */
  function Signature(m: seq<Byte>): State
    requires |m| * 8 < Two32
  {
    Absorb(InitialState, Stream(m, 15))
  }

  /** The 16 bytes of the checksum as `sign_in_place` stores them: each word little-endian. */
  function DigestBytes(s: State): (r: seq<Byte>)
    ensures |r| == 16
  {
    LeBytes(s.a) + LeBytes(s.b) + LeBytes(s.c) + LeBytes(s.d)
  }

  /** The message is whole blocks: one block of finalisation, or two when the tail is 56 bytes or more. */
  lemma MessageBlocks(m: seq<Byte>)
    requires |m| * 8 < Two32
    ensures |Message(m)| % 64 == 0
    ensures |Message(m)| == |m| - |m| % 64 + (if |m| % 64 >= 56 then 128 else 64)
  {
    DivModUnique(|m| - |m| % 64, 64, |m| / 64, 0);
    DivModUnique(|Message(m)|, 64, |m| / 64 + (if |m| % 64 >= 56 then 2 else 1), 0);
  }

  // ---------------------------------------------------------------------------
  // Blocks as words

  /** The words of two byte strings of whole words are the words of each in turn. */
  lemma {:induction false} WordsConcat(p: seq<Byte>, q: seq<Byte>)
    requires |p| % 4 == 0 && |q| % 4 == 0
    ensures Words(p + q) == Words(p) + Words(q)
    decreases |p|
  {
    if |p| == 0 {
      assert p + q == q;
    } else {
      assert (p + q)[4..] == p[4..] + q;
      WordsConcat(p[4..], q);
    }
  }

  /** The little-endian bytes of a word read back as that one word. */
  lemma WordsOfLeBytes(w: Word)
    ensures Words(LeBytes(w)) == [w]
  {
    LeWordOfBytes(w);
    assert LeBytes(w)[4..] == [];
  }

  /** Zero bytes read as zero words. */
  lemma {:induction false} WordsOfZeros(k: nat)
    ensures Words(Zeros(4 * k)) == seq(k, _ => 0)
  {
    if k > 0 {
      assert Zeros(4 * k)[4..] == Zeros(4 * (k - 1));
      WordsOfZeros(k - 1);
      assert LeWord(Zeros(4 * k), 0) == 0;
    }
  }

  /** `LengthWords` is `LengthBlock` read as words: the long-tail branch compresses the length block. */
  lemma LengthBlockWords(nb: Word)
    ensures BlockWords(LengthBlock(nb)) == LengthWords(nb)
  {
    WordsConcat(LeBytes(nb), Zeros(56));
    WordsConcat(LeBytes(nb) + Zeros(56), LeBytes(LengthTag(nb)));
    WordsOfLeBytes(nb);
    WordsOfLeBytes(LengthTag(nb));
    WordsOfZeros(14);
  }

  // ---------------------------------------------------------------------------
  // Absorbing the last blocks

  /** Fewer than 64 bytes are not compressed. */
  lemma AbsorbPartial(h: State, q: seq<Byte>)
    requires |q| < 64
    ensures Absorb(h, q) == h
  {
  }

  /** Absorbing exactly one block compresses it. */
  lemma AbsorbOne(h: State, b: seq<Byte>)
    requires |b| == 64
    ensures Absorb(h, b) == Compress(h, BlockWords(b))
  {
    AbsorbBlock(h, [], b);
    assert [] + b == b;
  }

  /** Absorbing two blocks compresses one after the other. */
  lemma AbsorbTwo(h: State, b1: seq<Byte>, b2: seq<Byte>)
    requires |b1| == 64 && |b2| == 64
    ensures Absorb(h, b1 + b2) == Compress(Compress(h, BlockWords(b1)), BlockWords(b2))
  {
    AbsorbConcat(h, b1, b2);
    AbsorbOne(h, b1);
    AbsorbOne(Compress(h, BlockWords(b1)), b2);
  }

  // ---------------------------------------------------------------------------
  // The two placements of the tag

  /** With the tag at byte 60, the short-tail block is `LastBlock`. */
  lemma TailBlockAt60(nb: Word, tail: seq<Byte>)
    requires |tail| < 56
    ensures TailBlock(nb, tail, 60) == LastBlock(nb, tail)
  {
    var s := LeBytes(nb) + tail + Padding()[..60 - |tail|];
    assert s[..60] == LeBytes(nb) + tail + Padding()[..56 - |tail|];
    assert s[64..] == [];
  }

  /** Writing the tag at byte 60 gives exactly `Message`. */
  lemma StreamAt60(m: seq<Byte>)
    requires |m| * 8 < Two32
    ensures Stream(m, 60) == Message(m)
  {
    var tail := m[|m| - |m| % 64..];
    if |tail| < 56 {
      TailBlockAt60(NumBits(|m|), tail);
    }
  }

  // ---------------------------------------------------------------------------
  // `sign`

  /**
    The long-tail branch (`last_chunk_data.len() >= 56`): the tail and the padding fill
    one block; the two length words go in a second one.
  */
  method LongTail(ctx: Context, tail: seq<Byte>, nb: Word) returns (out: State)
    requires |ctx.input| == 64 && Pending(ctx) == 0 && 56 <= |tail| < 64
    ensures out == Absorb(ctx.buf, tail + Padding()[..64 - |tail|] + LengthBlock(nb))
  {
    var c1 := Append(ctx, tail);
    assert c1.input[..|tail|] == tail;
    var pad := Padding()[..64 - |tail|];
    var c2 := Update(c1, pad);
    AbsorbOne(ctx.buf, tail + pad);
    LengthBlockWords(nb);
    out := Transform(c2.buf, LengthWords(nb));
    AbsorbTwo(ctx.buf, tail + pad, LengthBlock(nb));
  }

  /** `update` with data that leaves the block unfinished only appends it to the pending bytes. */
  method Append(ctx: Context, data: seq<Byte>) returns (r: Context)
    requires |ctx.input| == 64 && Pending(ctx) + |data| < 64
    ensures |r.input| == 64 && r.buf == ctx.buf
    ensures Pending(r) == Pending(ctx) + |data|
    ensures r.input[..Pending(r)] == ctx.input[..Pending(ctx)] + data
  {
    r := Update(ctx, data);
    AbsorbPartial(ctx.buf, ctx.input[..Pending(ctx)] + data);
  }

  /** The first steps of the short-tail branch: `update` with the length word, then with the tail. */
  method StartTail(ctx: Context, tail: seq<Byte>, nb: Word) returns (c: Context)
    requires |ctx.input| == 64 && Pending(ctx) == 0 && |tail| < 56
    ensures |c.input| == 64 && c.buf == ctx.buf
    ensures c.input[..|tail| + 4] == LeBytes(nb) + tail
  {
    c := Append(ctx, LeBytes(nb));
    if |tail| != 0 {
      c := Append(c, tail);
    }
  }

  /** Copying the padding in after the length word and the tail completes the block. */
  lemma PadAfter(input: seq<Byte>, nb: Word, tail: seq<Byte>)
    requires |input| == 64 && |tail| < 56 && input[..|tail| + 4] == LeBytes(nb) + tail
    ensures Splice(input, |tail| + 4, Padding()[..60 - |tail|]) == LeBytes(nb) + tail + Padding()[..60 - |tail|]
  {
  }

  /**
    The short-tail branch: the length word and the tail go through `update`, the
    padding is copied in after them, the tag is copied in at byte `at`, and the block
    is compressed.
  */
  method ShortTail(ctx: Context, tail: seq<Byte>, nb: Word, at: nat) returns (out: State)
    requires |ctx.input| == 64 && Pending(ctx) == 0 && |tail| < 56 && at <= 60
    ensures out == Absorb(ctx.buf, TailBlock(nb, tail, at))
  {
    var c := StartTail(ctx, tail, nb);
    var input := Splice(c.input, |tail| + 4, Padding()[..60 - |tail|]);
    PadAfter(c.input, nb, tail);
    input := Splice(input, at, LeBytes(LengthTag(nb)));
    out := Transform(c.buf, BlockWords(input));
    AbsorbOne(ctx.buf, input);
  }

  /** `update` with the whole blocks of the data, from a fresh context: nothing is left pending. */
  method Chunks(m: seq<Byte>, full: nat) returns (ctx: Context)
    requires full <= |m| && full % 64 == 0
    ensures |ctx.input| == 64 && Pending(ctx) == 0
    ensures ctx.buf == Absorb(InitialState, m[..full])
  {
    var c0 := NewContext();
    ctx := Update(c0, m[..full]);
    assert c0.input[..0] + m[..full] == m[..full];
  }

  /** `len & 0xffffffc0` on a `u32` length: the length rounded down to whole blocks. */
  lemma FullChunks(len: nat)
    requires len < Two32
    ensures BitAnd(len, 0xffff_ffc0) == len - len % 64
    ensures (len - len % 64) % 64 == 0
  {
    AndClearLow6(len);
    DivModUnique(len - len % 64, 64, len / 64, 0);
  }

  /** The two branches of `sign` after the whole blocks: the finalisation of `tail`. */
  method Finish(ctx: Context, tail: seq<Byte>, nb: Word, at: nat) returns (out: State)
    requires |ctx.input| == 64 && Pending(ctx) == 0 && |tail| < 64 && at <= 60
    ensures out == Absorb(ctx.buf, Final(nb, tail, at))
  {
    if |tail| >= 56 {
      out := LongTail(ctx, tail, nb);
    } else {
      out := ShortTail(ctx, tail, nb, at);
    }
  }

  /**
    `sign` with the tag of the short-tail branch written at byte `at`: the checksum of
    the container from byte 20 on.
  */
  method SignWith(blob: seq<Byte>, at: nat) returns (out: State)
    requires |blob| >= 20 && (|blob| - 20) * 8 < Two32 && at <= 60
    ensures out == Absorb(InitialState, Stream(blob[20..], at))
  {
    var m := blob[20..];
    var len: nat := |m|;
    var nb := NumBits(len);
    FullChunks(len);
    var full := BitAnd(len, 0xffff_ffc0);
    assert full == |m| - |m| % 64 && |m[full..]| < 64;
    var ctx := Chunks(m, full);
    out := Finish(ctx, m[full..], nb, at);
    AbsorbConcat(InitialState, m[..full], Final(nb, m[full..], at));
    assert Stream(m, at) == m[..full] + Final(nb, m[full..], at);
  }

  /** `sign` with the tag in the last word of the block: the DXCSA checksum of the container. */
  method Sign(blob: seq<Byte>) returns (out: State)
    requires |blob| >= 20 && (|blob| - 20) * 8 < Two32
    ensures out == Checksum(blob[20..])
  {
    out := SignWith(blob, 60);
    StreamAt60(blob[20..]);
  }

  /** `sign` as written: line 240 copies the tag into bytes 15..18 of the last block. */
  method SignAsWritten(blob: seq<Byte>) returns (out: State)
    requires |blob| >= 20 && (|blob| - 20) * 8 < Two32
    ensures out == Absorb(InitialState, Stream(blob[20..], 15))
    ensures (|blob| - 20) % 64 >= 56 ==> out == Checksum(blob[20..])
  {
    out := SignWith(blob, 15);
    if (|blob| - 20) % 64 >= 56 {
      SignatureLongTail(blob[20..]);
    }
  }

  /** With a tail of 56 bytes or more, the tag position of the short-tail branch plays no part. */
  lemma SignatureLongTail(m: seq<Byte>)
    requires |m| * 8 < Two32 && |m| % 64 >= 56
    ensures Signature(m) == Checksum(m)
  {
    assert Stream(m, 15) == Stream(m, 60);
    StreamAt60(m);
  }

  /**
    With the tag at byte 15 the last block of a short tail ends in padding zeros where
    DXCSA has the odd tag, so the stream compressed is not `Message`.
  */
  lemma AsWrittenDropsTag(m: seq<Byte>)
    requires |m| * 8 < Two32 && |m| % 64 < 56
    ensures Stream(m, 15)[|m| - |m| % 64 + 60] == 0
    ensures Message(m)[|m| - |m| % 64 + 60] & 1 == 1
    ensures Stream(m, 15) != Message(m)
  {
    var rest := |m| % 64;
    var nb := NumBits(|m|);
    var head, tail := m[..|m| - rest], m[|m| - rest..];
    assert Stream(m, 15) == head + TailBlock(nb, tail, 15);
    assert Message(m) == head + LastBlock(nb, tail);
    var s := LeBytes(nb) + tail + Padding()[..60 - |tail|];
    assert TailBlock(nb, tail, 15)[60] == s[60] == Padding()[56 - |tail|];
    assert LastBlock(nb, tail)[60] == LeBytes(LengthTag(nb))[0];
  }

  /** The container as `sign_in_place` leaves it: the signature in bytes 4..19, all else as it was. */
  function Signed(blob: seq<Byte>): (r: seq<Byte>)
    requires |blob| >= 20 && (|blob| - 20) * 8 < Two32
    ensures |r| == |blob| && r[..4] == blob[..4] && r[20..] == blob[20..]
    ensures r[4..20] == DigestBytes(Signature(blob[20..]))
  {
    blob[..4] + DigestBytes(Signature(blob[20..])) + blob[20..]
  }

  /** `sign_in_place`: sign from byte 20 on and store the four words little-endian in bytes 4..19. */
  method SignInPlace(blob: seq<Byte>) returns (signed: seq<Byte>)
    requires |blob| >= 20 && (|blob| - 20) * 8 < Two32
    ensures |signed| == |blob| && signed[..4] == blob[..4] && signed[20..] == blob[20..]
    ensures signed[4..20] == DigestBytes(Signature(blob[20..]))
    ensures signed == Signed(blob)
  {
    var out := SignAsWritten(blob);
    signed := blob[..4] + DigestBytes(out) + blob[20..];
  }

  /** The checksum reads only bytes 20 on: containers that agree there get the same signature. */
  lemma SignedIgnoresHeader(b1: seq<Byte>, b2: seq<Byte>)
    requires |b1| >= 20 && (|b1| - 20) * 8 < Two32
    requires |b2| == |b1| && b2[20..] == b1[20..]
    ensures Signed(b2)[4..20] == Signed(b1)[4..20]
  {
  }

  /** Signing a signed container changes nothing. */
  lemma SignedIdempotent(blob: seq<Byte>)
    requires |blob| >= 20 && (|blob| - 20) * 8 < Two32
    ensures Signed(Signed(blob)) == Signed(blob)
  {
    var s := Signed(blob);
    assert s[20..] == blob[20..];
    assert s[..4] == blob[..4];
  }
}
