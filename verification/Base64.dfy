/** Base64 over the URL-safe alphabet of section 5 of RFC 4648 (crates/common/base64.rs). */
module Base64 {
  type Byte = bv8

  const PAD: Byte := 61

  function ByteToAlphabet(b: Byte): Byte {
    if b <= 25 then 65 + b
    else if b <= 51 then 97 + (b - 26)
    else if b <= 61 then 48 + (b - 52)
    else if b == 62 then 45
    else if b == 63 then 95
    else 0
  }

  function AlphabetToByte(c: Byte): Byte {
    if 65 <= c <= 90 then c - 65
    else if 97 <= c <= 122 then c - 97 + 26
    else if 48 <= c <= 57 then c - 48 + 52
    else if c == 45 then 62
    else if c == 95 then 63
    else if c == PAD then 64
    else 0
  }

  predicate UrlSafe(c: Byte) { 65 <= c <= 90 || 97 <= c <= 122 || 48 <= c <= 57 || c == 45 || c == 95 }

  lemma AlphabetRoundTrip(b: Byte)
    requires b < 64
    ensures AlphabetToByte(ByteToAlphabet(b)) == b && UrlSafe(ByteToAlphabet(b))
  {}

  /** The alphabet, value by value: A to Z, a to z, 0 to 9, then minus and underscore. */
  lemma AlphabetIs(b: Byte)
    requires b < 64
    ensures ByteToAlphabet(0) == 'A' as Byte && ByteToAlphabet(26) == 'a' as Byte && ByteToAlphabet(52) == '0' as Byte
    ensures ByteToAlphabet(62) == '-' as Byte && ByteToAlphabet(63) == '_' as Byte && PAD == '=' as Byte
    ensures b < 61 && b != 25 && b != 51 ==> ByteToAlphabet(b + 1) == ByteToAlphabet(b) + 1
  {}

  /** Reading is the inverse on the alphabet, 64 for the padding, and zero elsewhere. */
  lemma AlphabetRead(c: Byte)
    ensures if UrlSafe(c) then AlphabetToByte(c) < 64 && ByteToAlphabet(AlphabetToByte(c)) == c
            else AlphabetToByte(c) == if c == '=' as Byte then 64 else 0
  {}

  // ---------------------------------------------------------------- encoding

  function Chunk0(a: Byte): Byte { a >> 2 }
  function Chunk1(a: Byte, b: Byte): Byte { ((a & 3) << 4) | (b >> 4) }
  function Chunk2(b: Byte, c: Byte): Byte { ((b & 15) << 2) | (c >> 6) }
  function Chunk3(c: Byte): Byte { c & 63 }

  lemma ChunksFit(a: Byte, b: Byte)
    ensures Chunk0(a) < 64 && Chunk1(a, b) < 64 && Chunk2(a, b) < 64 && Chunk3(a) < 64
  {}

  /** Three bytes become four characters; a shorter last block is padded. */
  function Encode(s: seq<Byte>): seq<Byte> {
    if s == [] then []
    else if |s| == 1 then [ByteToAlphabet(Chunk0(s[0])), ByteToAlphabet(Chunk1(s[0], 0)), PAD, PAD]
    else if |s| == 2 then
      [ByteToAlphabet(Chunk0(s[0])), ByteToAlphabet(Chunk1(s[0], s[1])), ByteToAlphabet(Chunk2(s[1], 0)), PAD]
    else
      [ByteToAlphabet(Chunk0(s[0])), ByteToAlphabet(Chunk1(s[0], s[1])), ByteToAlphabet(Chunk2(s[1], s[2])), ByteToAlphabet(Chunk3(s[2]))]
      + Encode(s[3..])
  }

  // ---------------------------------------------------------------- what an encoding stands for

  function ByteAt(s: seq<Byte>, i: nat): Byte { if i < |s| then s[i] else 0 }

  /** Block i as one number of 24 bits, missing bytes being zero. */
  function WordAt(s: seq<Byte>, i: nat): bv32 {
    ((ByteAt(s, 3 * i) as bv32) << 16) | ((ByteAt(s, 3 * i + 1) as bv32) << 8) | (ByteAt(s, 3 * i + 2) as bv32)
  }

  /** The j-th group of six bits of a word, from the top. */
  function Sextet(w: bv32, j: nat): Byte requires j < 4 {
    if j == 0 then ((w >> 18) & 63) as Byte
    else if j == 1 then ((w >> 12) & 63) as Byte
    else if j == 2 then ((w >> 6) & 63) as Byte
    else (w & 63) as Byte
  }

  lemma ChunksAreSextets(a: Byte, b: Byte, c: Byte)
    ensures var w := ((a as bv32) << 16) | ((b as bv32) << 8) | (c as bv32);
            Chunk0(a) == Sextet(w, 0) && Chunk1(a, b) == Sextet(w, 1) && Chunk2(b, c) == Sextet(w, 2) && Chunk3(c) == Sextet(w, 3)
  {}

  function ChunkAt(a: Byte, b: Byte, c: Byte, j: nat): Byte requires j < 4 {
    if j == 0 then Chunk0(a) else if j == 1 then Chunk1(a, b) else if j == 2 then Chunk2(b, c) else Chunk3(c)
  }

  lemma {:induction false} FirstBlock(s: seq<Byte>, j: nat)
    requires s != [] && j < 4
    ensures |Encode(s)| >= 4
    ensures Encode(s)[j] == if j <= |s| then ByteToAlphabet(ChunkAt(s[0], ByteAt(s, 1), ByteAt(s, 2), j)) else PAD
    ensures |s| > 3 ==> Encode(s)[4..] == Encode(s[3..])
  {}

  lemma {:induction false} NextBlock(s: seq<Byte>, i: nat)
    requires i > 0 && 3 * i < |s|
    ensures WordAt(s[3..], i - 1) == WordAt(s, i)
  {
    assert ByteAt(s[3..], 3 * (i - 1)) == ByteAt(s, 3 * i) && ByteAt(s[3..], 3 * (i - 1) + 1) == ByteAt(s, 3 * i + 1);
    assert ByteAt(s[3..], 3 * (i - 1) + 2) == ByteAt(s, 3 * i + 2);
  }

  lemma {:induction false} ChunkIsSextet(s: seq<Byte>, j: nat)
    requires s != [] && j < 4
    ensures ChunkAt(s[0], ByteAt(s, 1), ByteAt(s, 2), j) == Sextet(WordAt(s, 0), j)
  {
    ChunksAreSextets(ByteAt(s, 0), ByteAt(s, 1), ByteAt(s, 2));
  }

  /** Character j of block i is the alphabet's character for the j-th six bits of the block's 24,
      first byte first; a block of fewer than three bytes ends in padding. */
  lemma {:induction false} EncodeAt(s: seq<Byte>, i: nat, j: nat)
    requires 3 * i < |s| && j < 4
    ensures 4 * i + j < |Encode(s)|
    ensures Encode(s)[4 * i + j] == if 3 * i + j <= |s| then ByteToAlphabet(Sextet(WordAt(s, i), j)) else PAD
    decreases i
  {
    FirstBlock(s, j);
    if i > 0 {
      EncodeAt(s[3..], i - 1, j);
      NextBlock(s, i);
      assert Encode(s)[4 * i + j] == Encode(s)[4..][4 * (i - 1) + j];
    } else {
      ChunkIsSextet(s, j);
    }
  }

  // ---------------------------------------------------------------- decoding

  /** The byte that straddles two neighbouring characters, when bits of the first are left. */
  function Straddle(carry: nat, v: Byte, next: Byte): Byte
    requires carry <= 4
  {
    ((v & ((1 << (6 - carry)) - 1)) << (carry + 2)) | (next >> (4 - carry))
  }

  lemma Straddles(a: Byte, b: Byte, c: Byte)
    ensures Straddle(0, Chunk0(a), Chunk1(a, b)) == a
    ensures Straddle(2, Chunk1(a, b), Chunk2(b, c)) == b
    ensures Straddle(4, Chunk2(b, c), Chunk3(c)) == c
  {
    assert Straddle(0, Chunk0(a), Chunk1(a, b)) == ((Chunk0(a) & 63) << 2) | (Chunk1(a, b) >> 4);
    assert Straddle(2, Chunk1(a, b), Chunk2(b, c)) == ((Chunk1(a, b) & 15) << 4) | (Chunk2(b, c) >> 2);
    assert Straddle(4, Chunk2(b, c), Chunk3(c)) == ((Chunk2(b, c) & 3) << 6) | (Chunk3(c) >> 0);
  }

  /** Walks over the characters; carry counts the bits of the next character that are already
      used, and the walk ends at the padding or at a character without a successor. */
  function DecodeFrom(s: seq<Byte>, carry: nat): seq<Byte>
    requires carry in {0, 2, 4, 6}
  {
    if s == [] || s[0] == PAD then []
    else if carry == 6 then DecodeFrom(s[1..], 0)
    else if |s| < 2 || s[1] == PAD then []
    else [Straddle(carry, AlphabetToByte(s[0]), AlphabetToByte(s[1]))] + DecodeFrom(s[1..], carry + 2)
  }

  function Decode(s: seq<Byte>): seq<Byte> { DecodeFrom(s, 0) }

  /** The characters before the first padding character. */
  function Unpadded(s: seq<Byte>): seq<Byte> {
    if s == [] || s[0] == PAD then [] else [s[0]] + Unpadded(s[1..])
  }

  /** Padding, and whatever follows it, makes no difference to decoding. */
  lemma {:induction false} PaddingIgnored(s: seq<Byte>, carry: nat)
    requires carry in {0, 2, 4, 6}
    ensures DecodeFrom(s, carry) == DecodeFrom(Unpadded(s), carry)
    decreases |s|
  {
    if s != [] && s[0] != PAD {
      var u := Unpadded(s);
      assert u[1..] == Unpadded(s[1..]);
      if carry == 6 {
        PaddingIgnored(s[1..], 0);
      } else if |s| >= 2 && s[1] != PAD {
        PaddingIgnored(s[1..], carry + 2);
        assert u[1] == s[1];
      }
    }
  }

  /** Four characters of three bytes decode to them, and decoding goes on behind. */
  lemma {:induction false} DecodeBlock(a: Byte, b: Byte, c: Byte, rest: seq<Byte>)
    ensures Decode([ByteToAlphabet(Chunk0(a)), ByteToAlphabet(Chunk1(a, b)), ByteToAlphabet(Chunk2(b, c)), ByteToAlphabet(Chunk3(c))] + rest)
            == [a, b, c] + Decode(rest)
  {
    var w, x, y, z := ByteToAlphabet(Chunk0(a)), ByteToAlphabet(Chunk1(a, b)), ByteToAlphabet(Chunk2(b, c)), ByteToAlphabet(Chunk3(c));
    Chunks(a, b, c);
    Straddles(a, b, c);
    var s := [w, x, y, z] + rest;
    assert s[1..] == [x, y, z] + rest && s[1..][1..] == [y, z] + rest;
    assert s[1..][1..][1..] == [z] + rest && s[1..][1..][1..][1..] == rest;
    assert DecodeFrom([z] + rest, 6) == Decode(rest);
    assert DecodeFrom([y, z] + rest, 4) == [c] + Decode(rest);
    assert DecodeFrom([x, y, z] + rest, 2) == [b] + ([c] + Decode(rest));
    assert [a] + ([b] + ([c] + Decode(rest))) == [a, b, c] + Decode(rest);
  }

  /** The four chunks of a block survive the alphabet and never look like padding. */
  lemma {:induction false} Chunks(a: Byte, b: Byte, c: Byte)
    ensures AlphabetToByte(ByteToAlphabet(Chunk0(a))) == Chunk0(a) && ByteToAlphabet(Chunk0(a)) != PAD
    ensures AlphabetToByte(ByteToAlphabet(Chunk1(a, b))) == Chunk1(a, b) && ByteToAlphabet(Chunk1(a, b)) != PAD
    ensures AlphabetToByte(ByteToAlphabet(Chunk2(b, c))) == Chunk2(b, c) && ByteToAlphabet(Chunk2(b, c)) != PAD
    ensures AlphabetToByte(ByteToAlphabet(Chunk3(c))) == Chunk3(c) && ByteToAlphabet(Chunk3(c)) != PAD
  {
    ChunksFit(a, b);
    ChunksFit(b, c);
    ChunksFit(c, c);
    AlphabetRoundTrip(Chunk0(a));
    AlphabetRoundTrip(Chunk1(a, b));
    AlphabetRoundTrip(Chunk2(b, c));
    AlphabetRoundTrip(Chunk3(c));
  }

  lemma {:induction false} DecodeLastTwo(a: Byte, b: Byte)
    ensures Decode(Encode([a])) == [a] && Decode(Encode([a, b])) == [a, b]
  {
    Chunks(a, 0, 0);
    Straddles(a, 0, 0);
    var one := Encode([a]);
    assert one[1..][0] == one[1] && one[1..][1] == PAD;
    assert DecodeFrom(one[1..], 2) == [];
    Chunks(a, b, 0);
    Straddles(a, b, 0);
    var two := Encode([a, b]);
    assert two[1..] == [two[1], two[2], PAD] && two[1..][1..] == [two[2], PAD];
    assert DecodeFrom([two[2], PAD], 4) == [];
    assert DecodeFrom(two[1..], 2) == [b];
  }

  /** Decoding an encoding gives the bytes back. */
  lemma {:induction false} RoundTrip(s: seq<Byte>)
    ensures Decode(Encode(s)) == s
  {
    if |s| >= 3 {
      RoundTrip(s[3..]);
      DecodeBlock(s[0], s[1], s[2], Encode(s[3..]));
      assert s == [s[0], s[1], s[2]] + s[3..];
    } else if |s| == 2 {
      DecodeLastTwo(s[0], s[1]);
      assert s == [s[0], s[1]];
    } else if |s| == 1 {
      DecodeLastTwo(s[0], 0);
      assert s == [s[0]];
    }
  }

  /** The padding may be left off. */
  lemma {:induction false} RoundTripUnpadded(s: seq<Byte>)
    ensures Decode(Unpadded(Encode(s))) == s
  {
    RoundTrip(s);
    PaddingIgnored(Encode(s), 0);
  }

  /** How many padding characters complete the last block. */
  function PadLength(n: nat): nat { (3 - n % 3) % 3 }

  lemma {:induction false} ChunkSafe(a: Byte, b: Byte)
    ensures UrlSafe(ByteToAlphabet(Chunk0(a))) && UrlSafe(ByteToAlphabet(Chunk1(a, b)))
    ensures UrlSafe(ByteToAlphabet(Chunk2(a, b))) && UrlSafe(ByteToAlphabet(Chunk3(a)))
  {
    ChunksFit(a, b);
    AlphabetRoundTrip(Chunk0(a));
    AlphabetRoundTrip(Chunk1(a, b));
    AlphabetRoundTrip(Chunk2(a, b));
    AlphabetRoundTrip(Chunk3(a));
  }

  /** Safe characters with padding at the end, and a whole number of blocks. */
  ghost predicate WellFormed(chars: seq<Byte>, n: nat) {
    && 3 * |chars| == 4 * (n + PadLength(n)) && |chars| % 4 == 0 && PadLength(n) <= |chars|
    && (forall i | 0 <= i < |chars| - PadLength(n) :: UrlSafe(chars[i]))
    && (forall i | |chars| - PadLength(n) <= i < |chars| :: chars[i] == PAD)
  }

  lemma {:induction false} OneMoreBlock(w: Byte, x: Byte, y: Byte, z: Byte, rest: seq<Byte>, n: nat)
    requires WellFormed(rest, n) && UrlSafe(w) && UrlSafe(x) && UrlSafe(y) && UrlSafe(z)
    ensures WellFormed([w, x, y, z] + rest, n + 3)
  {
    assert PadLength(n + 3) == PadLength(n);
  }

  lemma {:induction false} LastBlocks(w: Byte, x: Byte, y: Byte)
    requires UrlSafe(w) && UrlSafe(x)
    ensures WellFormed([w, x, PAD, PAD], 1)
    ensures UrlSafe(y) ==> WellFormed([w, x, y, PAD], 2)
  {
    assert PadLength(1) == 2 && PadLength(2) == 1;
  }

  /** The length is a multiple of four, and the padding, at most two characters at the end, is the
      only thing outside the URL-safe alphabet. */
  lemma {:induction false} EncodingShape(s: seq<Byte>)
    ensures WellFormed(Encode(s), |s|)
  {
    if |s| >= 3 {
      EncodingShape(s[3..]);
      ChunkSafe(s[0], s[1]);
      ChunkSafe(s[1], s[2]);
      ChunkSafe(s[2], s[2]);
      OneMoreBlock(ByteToAlphabet(Chunk0(s[0])), ByteToAlphabet(Chunk1(s[0], s[1])), ByteToAlphabet(Chunk2(s[1], s[2])),
                   ByteToAlphabet(Chunk3(s[2])), Encode(s[3..]), |s| - 3);
    } else if |s| == 2 {
      ChunkSafe(s[0], s[1]);
      ChunkSafe(s[1], 0);
      LastBlocks(ByteToAlphabet(Chunk0(s[0])), ByteToAlphabet(Chunk1(s[0], s[1])), ByteToAlphabet(Chunk2(s[1], 0)));
    } else if |s| == 1 {
      ChunkSafe(s[0], 0);
      LastBlocks(ByteToAlphabet(Chunk0(s[0])), ByteToAlphabet(Chunk1(s[0], 0)), PAD);
    }
  }

  // ---------------------------------------------------------------- the loops

  /** The characters finished after some bytes of a block. */
  function Finished(block: seq<Byte>, n: nat): seq<Byte>
    requires n <= |block| <= 3
  {
    if n == 0 then []
    else if n == 1 then [ByteToAlphabet(Chunk0(block[0]))]
    else if n == 2 then [ByteToAlphabet(Chunk0(block[0])), ByteToAlphabet(Chunk1(block[0], block[1]))]
    else [ByteToAlphabet(Chunk0(block[0])), ByteToAlphabet(Chunk1(block[0], block[1])), ByteToAlphabet(Chunk2(block[1], block[2]))]
  }

  /** The bits of the last byte that no character has taken yet. */
  function Left(block: seq<Byte>, n: nat): Byte
    requires n <= |block| <= 3
  {
    if n == 0 then 0 else if n == 1 then block[0] & 3 else if n == 2 then block[1] & 15 else block[2] & 63
  }

  /** The chunk a byte completes when n bytes of its block are done. */
  function Completed(n: nat, byte: Byte, left: Byte): Byte
    requires n < 3
  {
    (byte >> (2 * n + 2)) | (left << (6 - 2 * n))
  }

  lemma {:induction false} CompletedIs(byte: Byte, prior: Byte)
    ensures Completed(0, byte, 0) == Chunk0(byte)
    ensures Completed(1, byte, prior & 3) == Chunk1(prior, byte)
    ensures Completed(2, byte, prior & 15) == Chunk2(prior, byte)
  {
    assert Completed(0, byte, 0) == (byte >> 2) | (0 << 6);
    assert Completed(1, byte, prior & 3) == (byte >> 4) | ((prior & 3) << 4);
    assert Completed(2, byte, prior & 15) == (byte >> 6) | ((prior & 15) << 2);
  }

  /** The low bits of a byte. */
  function Low(byte: Byte, bits: nat): Byte
    requires bits <= 6
  {
    byte & ((1 << bits) - 1)
  }

  lemma {:induction false} LowIs(byte: Byte)
    ensures Low(byte, 2) == byte & 3 && Low(byte, 4) == byte & 15 && Low(byte, 6) == byte & 63
  {
    assert Low(byte, 2) == byte & ((1 << 2) - 1);
    assert Low(byte, 4) == byte & ((1 << 4) - 1);
    assert Low(byte, 6) == byte & ((1 << 6) - 1);
  }

  lemma {:induction false} NextLeft(block: seq<Byte>, n: nat)
    requires n < |block| <= 3
    ensures Low(block[n], 2 * n + 2) == Left(block, n + 1)
  {
    LowIs(block[n]);
  }

  lemma {:induction false} NextCompleted(block: seq<Byte>, n: nat)
    requires n < |block| <= 3
    ensures Completed(n, block[n], Left(block, n)) ==
            if n == 0 then Chunk0(block[0]) else if n == 1 then Chunk1(block[0], block[1]) else Chunk2(block[1], block[2])
  {
    if n == 0 { CompletedIs(block[0], 0); } else { CompletedIs(block[n], block[n - 1]); }
  }

  lemma {:induction false} NextChunk(block: seq<Byte>, n: nat, chunk: Byte)
    requires n < |block| <= 3
    requires chunk == if n == 0 then Chunk0(block[0]) else if n == 1 then Chunk1(block[0], block[1]) else Chunk2(block[1], block[2])
    ensures Finished(block, n) + [ByteToAlphabet(chunk)] == Finished(block, n + 1)
  {}

  lemma {:induction false} LastChunk(block: seq<Byte>)
    requires 1 <= |block| <= 3
    ensures Finished(block, |block|) + [ByteToAlphabet(Left(block, |block|) << (6 - 2 * |block|))]
            + (if |block| == 2 then [PAD] else if |block| == 1 then [PAD, PAD] else []) == Encode(block)
  {
    var left := Left(block, |block|);
    if |block| == 1 {
      assert left << 4 == Chunk1(block[0], 0);
    } else if |block| == 2 {
      assert left << 2 == Chunk2(block[1], 0);
    } else {
      assert left << 0 == Chunk3(block[2]);
      assert Encode(block[3..]) == [];
    }
  }

  /** One block: each byte completes a character with what the byte before left over. */
  method EncodeBlock(block: seq<Byte>) returns (result: seq<Byte>)
    requires 1 <= |block| <= 3
    ensures result == Encode(block)
  {
    result := [];
    var carry: Byte, carryBits := 0, 0;
    for j := 0 to |block|
      invariant carryBits == 2 * j && carry == Left(block, j) && result == Finished(block, j)
    {
      NextCompleted(block, j);
      NextChunk(block, j, Completed(j, block[j], carry));
      NextLeft(block, j);
      result := result + [ByteToAlphabet(Completed(j, block[j], carry))];
      carryBits := carryBits + 2;
      carry := Low(block[j], carryBits);
    }
    LastChunk(block);
    result := result + [ByteToAlphabet(carry << (6 - carryBits))];
    if |block| == 2 { result := result + [PAD]; }
    if |block| == 1 { result := result + [PAD, PAD]; }
  }

  method EncodeBytes(bytes: seq<Byte>) returns (result: seq<Byte>)
    ensures result == Encode(bytes)
  {
    result := [];
    var at := 0;
    while at < |bytes|
      invariant at <= |bytes| && result + Encode(bytes[at..]) == Encode(bytes)
    {
      var block := if at + 3 <= |bytes| then bytes[at..at + 3] else bytes[at..];
      EncodeStep(bytes[at..], block);
      assert bytes[at..][|block|..] == bytes[at + |block|..];
      var chars := EncodeBlock(block);
      ghost var before := result;
      result := result + chars;
      assert before + (chars + Encode(bytes[at + |block|..])) == result + Encode(bytes[at + |block|..]);
      at := at + |block|;
    }
  }

  /** Encoding goes block by block. */
  lemma {:induction false} EncodeStep(s: seq<Byte>, block: seq<Byte>)
    requires s != [] && block == if |s| < 3 then s else s[..3]
    ensures Encode(s) == Encode(block) + Encode(s[|block|..])
  {
    if |s| >= 3 { assert Encode(block[3..]) == []; }
  }

  method DecodeBytes(bytes: seq<Byte>) returns (result: seq<Byte>)
    ensures result == Decode(bytes)
  {
    result := [];
    var carryBits := 0;
    for i := 0 to |bytes|
      invariant carryBits in {0, 2, 4, 6}
      invariant Decode(bytes) == result + DecodeFrom(bytes[i..], carryBits)
    {
      PadValue(bytes[i]);
      DecodeStep(bytes, i, carryBits, result);
      var val := AlphabetToByte(bytes[i]);
      if val == 64 { return; }
      if carryBits == 6 {
        carryBits := 0;
        continue;
      }
      if i + 1 >= |bytes| { return; }
      PadValue(bytes[i + 1]);
      var nextVal := AlphabetToByte(bytes[i + 1]);
      if nextVal == 64 { return; }
      result := result + [Straddle(carryBits, val, nextVal)];
      carryBits := carryBits + 2;
    }
  }

  /** What one step of the walk contributes. */
  lemma {:induction false} DecodeStep(s: seq<Byte>, i: nat, carry: nat, before: seq<Byte>)
    requires i < |s| && carry in {0, 2, 4, 6}
    ensures s[i] == PAD ==> DecodeFrom(s[i..], carry) == []
    ensures s[i] != PAD && carry == 6 ==> DecodeFrom(s[i..], carry) == DecodeFrom(s[i + 1..], 0)
    ensures s[i] != PAD && carry != 6 && (i + 1 == |s| || s[i + 1] == PAD) ==> DecodeFrom(s[i..], carry) == []
    ensures s[i] != PAD && carry != 6 && i + 1 < |s| && s[i + 1] != PAD ==>
              before + DecodeFrom(s[i..], carry) ==
              before + [Straddle(carry, AlphabetToByte(s[i]), AlphabetToByte(s[i + 1]))] + DecodeFrom(s[i + 1..], carry + 2)
  {
    var rest := s[i..];
    assert rest[0] == s[i] && rest[1..] == s[i + 1..];
  }

  lemma {:induction false} PadValue(c: Byte)
    ensures AlphabetToByte(c) == 64 <==> c == PAD
  {}
}
