/** MD5 in the numbers and bytes of RFC 1321: the initial state, the padding and the order of the digest. */
module Md5Laws {
  import opened Md5

  /** The bytes that section 3.3 lists for the words A, B, C and D. */
  const START: seq<Byte> := [
    0x01, 0x23, 0x45, 0x67, 0x89, 0xab, 0xcd, 0xef, 0xfe, 0xdc, 0xba, 0x98, 0x76, 0x54, 0x32, 0x10]

  function StateBytes(s: State): seq<Byte> {
    WordBytes(s.a) + WordBytes(s.b) + WordBytes(s.c) + WordBytes(s.d)
  }

  lemma {:induction false} FourWords(a: Word, b: Word, c: Word, d: Word)
    ensures Bytes([a, b, c, d]) == WordBytes(a) + WordBytes(b) + WordBytes(c) + WordBytes(d)
  {
    assert [a, b, c, d][..3] == [a, b, c] && [a, b, c][..2] == [a, b] && [a, b][..1] == [a] && [a][..0] == [];
    assert Bytes([a]) == Bytes([]) + WordBytes(a) == WordBytes(a);
    assert Bytes([a, b]) == Bytes([a]) + WordBytes(b);
    assert Bytes([a, b, c]) == Bytes([a, b]) + WordBytes(c);
  }

  lemma {:induction false} LowByteFirst(w: Word, b0: Byte, b1: Byte, b2: Byte, b3: Byte)
    requires w == b0 + 0x100 * b1 + 0x1_0000 * b2 + 0x100_0000 * b3
    ensures WordBytes(w) == [b0, b1, b2, b3]
  {
    ByteRoundTrip(b0, b1, b2, b3);
  }

  lemma {:induction false} InitialBytes()
    ensures StateBytes(INITIAL) == START
  {
    LowByteFirst(INITIAL.a, 0x01, 0x23, 0x45, 0x67);
    LowByteFirst(INITIAL.b, 0x89, 0xab, 0xcd, 0xef);
    LowByteFirst(INITIAL.c, 0xfe, 0xdc, 0xba, 0x98);
    LowByteFirst(INITIAL.d, 0x76, 0x54, 0x32, 0x10);
  }

  /** A context that has taken nothing in yet stands at the initial state. */
  lemma {:induction false} ContextStarts(c: Context)
    requires c.Valid() && c.message == []
    ensures StateBytes(c.state) == START
  {
    InitialBytes();
    assert c.message[..0] == [];
  }

  /** With a transform that leaves the state alone, the digest of any message is the initial state. */
  lemma {:induction false} DigestOfIdle(f: Transform, m: seq<Byte>)
    requires forall s, b :: f(s, b) == s
    ensures Digest(f, m) == START
  {
    InitialBytes();
    IdleFolds(f, INITIAL, Padded(m));
    FourWords(INITIAL.a, INITIAL.b, INITIAL.c, INITIAL.d);
  }

  lemma {:induction false} IdleFolds(f: Transform, s: State, m: seq<Byte>)
    requires forall t, b :: f(t, b) == t
    ensures Fold(f, s, m) == s
    decreases |m|
  {
    if |m| >= 64 {
      IdleFolds(f, f(s, m[..64]), m[64..]);
    }
  }

  /** The number whose bytes these are, the low-order byte first. */
  function Number(b: seq<Byte>): nat { if b == [] then 0 else b[0] + 256 * Number(b[1..]) }

  lemma {:induction false} NumberOfWord(w: Word, rest: seq<Byte>)
    ensures Number(WordBytes(w) + rest) == w + 0x1_0000_0000 * Number(rest)
  {
    var b := WordBytes(w);
    WordRoundTrip(w);
    FourBytes(b[0], b[1], b[2], b[3], rest);
    assert b == [b[0], b[1], b[2], b[3]];
  }

  lemma {:induction false} FourBytes(b0: Byte, b1: Byte, b2: Byte, b3: Byte, rest: seq<Byte>)
    ensures Number([b0, b1, b2, b3] + rest) == BytesWord(b0, b1, b2, b3) + 0x1_0000_0000 * Number(rest)
  {
    OneByte(b0, [b1, b2, b3] + rest);
    OneByte(b1, [b2, b3] + rest);
    OneByte(b2, [b3] + rest);
    OneByte(b3, rest);
    assert [b0, b1, b2, b3] + rest == [b0] + ([b1, b2, b3] + rest);
    assert [b1, b2, b3] + rest == [b1] + ([b2, b3] + rest);
    assert [b2, b3] + rest == [b2] + ([b3] + rest);
  }

  lemma {:induction false} OneByte(b: Byte, rest: seq<Byte>)
    ensures Number([b] + rest) == b + 256 * Number(rest)
  {
    assert ([b] + rest)[1..] == rest;
  }

  /** The two words of the length, as eight bytes, are its low-order 64 bits. */
  lemma {:induction false} NumberOfLength(n: nat)
    ensures |Bytes(LengthWords(n))| == 8 && Number(Bytes(LengthWords(n))) == 8 * n % 0x1_0000_0000_0000_0000
  {
    var ws := LengthWords(n);
    assert ws[..1] == [ws[0]] && [ws[0]][..0] == [];
    assert Bytes(ws) == WordBytes(ws[0]) + WordBytes(ws[1]) by {
      assert Bytes([ws[0]]) == Bytes([]) + WordBytes(ws[0]) == WordBytes(ws[0]);
    }
    NumberOfWord(ws[0], WordBytes(ws[1]));
    assert WordBytes(ws[1]) + [] == WordBytes(ws[1]);
    NumberOfWord(ws[1], []);
    LowBits(8 * n);
  }

  lemma {:induction false} LowBits(x: nat)
    ensures x % 0x1_0000_0000 + 0x1_0000_0000 * (x / 0x1_0000_0000 % 0x1_0000_0000) == x % 0x1_0000_0000_0000_0000
  {
  }

  /** What is digested is the message, the byte 128, as few zeros as fill whole blocks together with the
      eight bytes of the length in bits, and these bytes. */
  lemma {:induction false} PaddedMeans(m: seq<Byte>)
    ensures var p := Padded(m); var n := |p| - 8;
      && |p| % 64 == 0 && |m| + 9 <= |p| < |m| + 73
      && p[..|m|] == m && p[|m|] == 128 && (forall k :: |m| < k < n ==> p[k] == 0)
      && Number(p[n..]) == 8 * |m| % 0x1_0000_0000_0000_0000
  {
    var p, pad := Padded(m), Padding(|m|);
    NumberOfLength(|m|);
    assert p == m + pad + Bytes(LengthWords(|m|));
    assert p[|p| - 8..] == Bytes(LengthWords(|m|));
    forall k | |m| <= k < |p| - 8
      ensures p[k] == pad[k - |m|]
    {
    }
  }
}
