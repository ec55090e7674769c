/** MD5 as sections 3.1 to 3.4 of RFC 1321 describe it, with the block transform left open. */
module Md5 {
  type Byte = b: int | 0 <= b < 256

  const WORD := 0x1_0000_0000

  type Word = w: int | 0 <= w < 0x1_0000_0000

  datatype State = State(a: Word, b: Word, c: Word, d: Word)

  /** The four initial words (section 3.3). */
  const INITIAL := State(0x67452301, 0xefcdab89, 0x98badcfe, 0x10325476)

  type Transform = (State, seq<Byte>) -> State

  /** The transform applied to the whole blocks of m in turn (section 3.4). */
  function Fold(f: Transform, s: State, m: seq<Byte>): State
    decreases |m|
  {
    if |m| < 64 then s else Fold(f, f(s, m[..64]), m[64..])
  }

  /** A word as four bytes, the low-order byte first. */
  function WordBytes(w: Word): (r: seq<Byte>)
    ensures |r| == 4
  {
    [w % 0x100, w / 0x100 % 0x100, w / 0x1_0000 % 0x100, w / 0x100_0000 % 0x100]
  }

  function Bytes(ws: seq<Word>): (r: seq<Byte>)
    ensures |r| == 4 * |ws|
  {
    if ws == [] then [] else Bytes(ws[..|ws| - 1]) + WordBytes(ws[|ws| - 1])
  }

  function BytesWord(b0: Byte, b1: Byte, b2: Byte, b3: Byte): Word {
    b0 + 0x100 * b1 + 0x1_0000 * b2 + 0x100_0000 * b3
  }

  /** How many zero bytes follow the byte 0x80, so that the length becomes 56 modulo 64 (section 3.1). */
  function ZeroCount(n: nat): (k: nat)
    ensures k < 64 && (n + 1 + k) % 64 == 56
  {
    (55 - n) % 64
  }

  /** The low-order 64 bits of the length in bits, low-order word first (section 3.2). */
  function LengthWords(n: nat): seq<Word> { [8 * n % WORD, 8 * n / WORD % WORD] }

  function Zeros(k: nat): seq<Byte> { seq(k, _ => 0) }

  function Padding(n: nat): (p: seq<Byte>)
    ensures 1 <= |p| <= 64 && (n + |p|) % 64 == 56
  {
    [0x80] + Zeros(ZeroCount(n))
  }

  function Padded(m: seq<Byte>): (p: seq<Byte>)
    ensures |p| % 64 == 0 && m <= p
  {
    EightMore(|m| + |Padding(|m|)|);
    m + Padding(|m|) + Bytes(LengthWords(|m|))
  }

  lemma {:induction false} EightMore(n: nat)
    requires n % 64 == 56
    ensures (n + 8) % 64 == 0
  {
  }

  /** The digest of a message (section 3.5). */
  function Digest(f: Transform, m: seq<Byte>): (d: seq<Byte>)
    ensures |d| == 16
  {
    var s := Fold(f, INITIAL, Padded(m));
    Bytes([s.a, s.b, s.c, s.d])
  }

  /** The digest starts from whole blocks: folding them and then the rest is folding all. */
  lemma {:induction false} FoldJoins(f: Transform, s: State, a: seq<Byte>, b: seq<Byte>)
    requires |a| % 64 == 0
    ensures Fold(f, s, a + b) == Fold(f, Fold(f, s, a), b)
    decreases |a|
  {
    if a == [] {
      assert a + b == b;
    } else {
      assert (a + b)[..64] == a[..64] && (a + b)[64..] == a[64..] + b;
      FoldJoins(f, f(s, a[..64]), a[64..], b);
    }
  }

  lemma {:induction false} FoldBlock(f: Transform, s: State, a: seq<Byte>, block: seq<Byte>)
    requires |a| % 64 == 0 && |block| == 64
    ensures Fold(f, s, a + block) == f(Fold(f, s, a), block)
  {
    FoldJoins(f, s, a, block);
    assert block[..64] == block && block[64..] == [];
  }

  /** Bytes and words determine each other. */
  lemma {:induction false} WordRoundTrip(w: Word)
    ensures var r := WordBytes(w); BytesWord(r[0], r[1], r[2], r[3]) == w
  {
    var q1, q2, q3 := w / 0x100, w / 0x1_0000, w / 0x100_0000;
    assert q1 == 0x100 * q2 + q1 % 0x100 by { QuotientOfQuotient(w, 0x100); }
    assert q2 == 0x100 * q3 + q2 % 0x100 by { QuotientOfQuotient(w, 0x1_0000); }
    assert w == 0x100 * q1 + w % 0x100;
    assert q3 % 0x100 == q3;
  }

  lemma {:induction false} QuotientOfQuotient(w: nat, d: nat)
    requires d == 0x100 || d == 0x1_0000
    ensures w / d / 0x100 == w / (0x100 * d)
  {
  }

  lemma {:induction false} ByteRoundTrip(b0: Byte, b1: Byte, b2: Byte, b3: Byte)
    ensures WordBytes(BytesWord(b0, b1, b2, b3)) == [b0, b1, b2, b3]
  {
    var w := BytesWord(b0, b1, b2, b3);
    assert w / 0x100 == b1 + 0x100 * b2 + 0x1_0000 * b3;
    assert w / 0x1_0000 == b2 + 0x100 * b3;
    assert w / 0x100_0000 == b3;
  }

  lemma {:induction false} BytesAt(ws: seq<Word>, i: nat)
    requires i < |ws|
    ensures Bytes(ws)[4 * i..4 * i + 4] == WordBytes(ws[i])
    decreases |ws|
  {
    var n := |ws| - 1;
    if i < n {
      BytesAt(ws[..n], i);
      assert Bytes(ws)[4 * i..4 * i + 4] == Bytes(ws[..n])[4 * i..4 * i + 4];
    }
  }

  /** Adding the bits of n bytes to a two-word count, with the carry as it is found. */
  function CountLow(low: Word, n: nat): Word { (low + 8 * n % WORD) % WORD }

  function CountHigh(low: Word, high: Word, n: nat): Word {
    (high + (if CountLow(low, n) < 8 * n % WORD then 1 else 0) + n / 0x2000_0000) % WORD
  }

  lemma {:induction false} CountAdds(n: nat, k: nat)
    requires k < WORD
    ensures var c := LengthWords(n);
      [CountLow(c[0], k), CountHigh(c[0], c[1], k)] == LengthWords(n + k)
  {
    var x, y := 8 * n, 8 * k;
    assert x == WORD * (x / WORD) + x % WORD && y == WORD * (y / WORD) + y % WORD;
    assert y / WORD == k / 0x2000_0000;
    var low := x % WORD + y % WORD;
    var carry := if low >= WORD then 1 else 0;
    assert x + y == WORD * (x / WORD + y / WORD + carry) + (low - WORD * carry);
    DivMod(x / WORD + y / WORD + carry, low - WORD * carry);
    assert CountLow(x % WORD, k) == low - WORD * carry;
    ModAdds(x / WORD, carry + y / WORD);
  }

  lemma {:induction false} DivMod(q: nat, r: nat)
    requires r < WORD
    ensures (WORD * q + r) / WORD == q && (WORD * q + r) % WORD == r
  {
  }

  lemma {:induction false} ModAdds(a: nat, b: nat)
    ensures (a % WORD + b) % WORD == (a + b) % WORD
  {
  }

  /** How far into a block the message goes, from the count alone. */
  lemma {:induction false} CountIndex(n: nat)
    ensures LengthWords(n)[0] / 8 % 64 == n % 64
  {
    var q, r := n / 0x2000_0000, n % 0x2000_0000;
    assert 8 * n == WORD * q + 8 * r;
    DivMod(q, 8 * r);
    assert 8 * n % WORD == 8 * r;
    WholeBlocks(q, r);
  }

  lemma {:induction false} WholeBlocks(q: nat, r: nat)
    ensures (0x2000_0000 * q + r) % 64 == r % 64 && 8 * r / 8 == r
  {
    assert 0x2000_0000 * q + r == 64 * (0x80_0000 * q) + r;
  }

  /** A short input only adds to what is left over. */
  lemma {:induction false} RestGrows(before: seq<Byte>, input: seq<Byte>)
    requires |before| % 64 + |input| < 64
    ensures var all := before + input; var m, n := |before|, |all|;
      && n % 64 == m % 64 + |input| && all[..n - n % 64] == before[..m - m % 64]
      && all[n - n % 64..] == before[m - m % 64..] + input
  {
    RestOfSum(|before| - |before| % 64, |before| % 64 + |input|);
  }

  /** After whole blocks only the end of the input is left over. */
  lemma {:induction false} RestStarts(before: seq<Byte>, input: seq<Byte>, i: nat)
    requires i <= |input| < i + 64 && (|before| + i) % 64 == 0
    ensures var all := before + input; var n := |all|;
      n % 64 == |input| - i && all[..n - n % 64] == before + input[..i] && all[n - n % 64..] == input[i..]
  {
    RestOfSum(|before| + i, |input| - i);
  }

  lemma {:induction false} RestOfSum(blocks: nat, rest: nat)
    requires blocks % 64 == 0 && rest < 64
    ensures (blocks + rest) % 64 == rest
  {
  }

  lemma {:induction false} FillsBlock(n: nat)
    ensures (n + (64 - n % 64)) % 64 == 0 && (n - n % 64) % 64 == 0
  {
  }

  /** The padding is cut from a fixed block. */
  lemma {:induction false} PaddingPrefix(n: nat, padLen: nat)
    requires padLen == if n % 64 < 56 then 56 - n % 64 else 120 - n % 64
    ensures padLen <= 64 && ([0x80] + Zeros(63))[..padLen] == Padding(n)
  {
    assert ZeroCount(n) == padLen - 1;
  }

  method Encode(output: array<Byte>, input: seq<Word>)
    requires output.Length == 4 * |input|
    modifies output
    ensures output[..] == Bytes(input)
  {
    var i, j := 0, 0;
    while j < output.Length
      invariant j == 4 * i && i <= |input|
      invariant output[..j] == Bytes(input[..i])
    {
      ghost var done := output[..j];
      output[j] := input[i] % 0x100;
      output[j + 1] := input[i] / 0x100 % 0x100;
      output[j + 2] := input[i] / 0x1_0000 % 0x100;
      output[j + 3] := input[i] / 0x100_0000 % 0x100;
      assert output[..j + 4] == done + WordBytes(input[i]);
      assert input[..i + 1][..i] == input[..i];
      i, j := i + 1, j + 4;
    }
    assert input[..i] == input && output[..j] == output[..];
  }

  method Decode(output: array<Word>, input: seq<Byte>)
    requires |input| == 4 * output.Length
    modifies output
    ensures Bytes(output[..]) == input
  {
    var i, j := 0, 0;
    while j < |input|
      invariant j == 4 * i && i <= output.Length
      invariant Bytes(output[..i]) == input[..j]
    {
      ghost var done := output[..i];
      output[i] := BytesWord(input[j], input[j + 1], input[j + 2], input[j + 3]);
      ByteRoundTrip(input[j], input[j + 1], input[j + 2], input[j + 3]);
      assert output[..i + 1][..i] == done;
      assert input[..j + 4] == input[..j] + [input[j], input[j + 1], input[j + 2], input[j + 3]];
      i, j := i + 1, j + 4;
    }
    assert output[..i] == output[..] && input[..j] == input;
  }

  /** At the beginning of a block the index has room for the guard of the loop. */
  lemma {:induction false} IndexFits(m: nat, n: nat, i: nat)
    requires i <= n && (m + i) % 64 == 0 && m % 64 + n < WORD
    ensures i + 63 < WORD
  {
    var r := m % 64;
    assert (r + i) % 64 == 0;
    assert r + i <= WORD - 64;
  }

  /** Behind the last whole block the loop stops, its 32-bit index notwithstanding, exactly when
      what the buffer holds and the input together stay below 2^32 bytes. */
  lemma {:induction false} StopsExactly(m: nat, n: nat, i: nat)
    requires i <= n < i + 64 && n < WORD && (m + i) % 64 == 0
    ensures (i + 63) % WORD >= n <==> m % 64 + n < WORD
  {
    if m % 64 + n < WORD {
      IndexFits(m, n, i);
    } else {
      assert (m % 64 + i) % 64 == 0;
      assert m % 64 + i >= WORD;
      assert (i + 63) % WORD == i + 63 - WORD;
    }
  }

  class Context {
    const transform: Transform
    var count0: Word
    var count1: Word
    var state: State
    const buffer: array<Byte>
    /** All that was put in so far. */
    ghost var message: seq<Byte>

    /** The count is the message's length in bits, the state has its whole blocks folded
        in, and the buffer begins with what is left of it. */
    ghost predicate Valid()
      reads this, buffer
    {
      [count0, count1] == LengthWords(|message|) && Buffered(message)
    }

    ghost predicate Buffered(m: seq<Byte>)
      reads this`state, buffer
    {
      var n := |m|;
      && buffer.Length == 64
      && state == Fold(transform, INITIAL, m[..n - n % 64])
      && buffer[..n % 64] == m[n - n % 64..]
    }

    constructor Init(f: Transform)
      ensures Valid() && fresh(buffer) && transform == f && message == []
    {
      transform, count0, count1, state := f, 0, 0, INITIAL;
      buffer := new Byte[64](_ => 0);
      message := [];
    }

    method Absorb(block: seq<Byte>)
      modifies this`state
      ensures state == transform(old(state), block)
    {
      state := transform(state, block);
    }

    method Copy(at: nat, bytes: seq<Byte>)
      requires at + |bytes| <= buffer.Length
      modifies buffer
      ensures buffer[..] == old(buffer[..at]) + bytes + old(buffer[at + |bytes|..])
    {
      forall k | 0 <= k < |bytes| {
        buffer[at + k] := bytes[k];
      }
    }

    /** Completes the block in the buffer and absorbs it. */
    method FillBuffer(first: seq<Byte>)
      requires Buffered(message) && |first| == 64 - |message| % 64
      modifies buffer, this`state
      ensures state == Fold(transform, INITIAL, message + first)
    {
      ghost var n, whole := |message|, message[..|message| - |message| % 64];
      Copy(64 - |first|, first);
      assert message + first == whole + buffer[..];
      FoldBlock(transform, INITIAL, whole, buffer[..]);
      Absorb(buffer[..]);
    }

    /** Absorbs whole blocks of the input from a position on; `before` is all that came earlier. */
    method AbsorbBlocks(input: seq<Byte>, start: nat, ghost before: seq<Byte>) returns (i: nat)
      requires start <= |input| && (|before| + start) % 64 == 0 && |before| % 64 + |input| < WORD
      requires state == Fold(transform, INITIAL, before + input[..start])
      modifies this`state
      ensures start <= i <= |input| < i + 64 && (|before| + i) % 64 == 0
      ensures state == Fold(transform, INITIAL, before + input[..i])
    {
      i := start;
      IndexFits(|before|, |input|, i);
      while (i + 63) % WORD < |input|
        invariant i + 63 < WORD
        invariant start <= i <= |input| && (|before| + i) % 64 == 0
        invariant state == Fold(transform, INITIAL, before + input[..i])
      {
        assert before + input[..i + 64] == before + input[..i] + input[i..i + 64];
        FoldBlock(transform, INITIAL, before + input[..i], input[i..i + 64]);
        Absorb(input[i..i + 64]);
        i := i + 64;
        IndexFits(|before|, |input|, i);
      }
    }

    /** Keeps what does not fill a block for later: behind what was left over before, or,
        if blocks up to position i were absorbed, by itself. */
    method KeepRest(input: seq<Byte>, i: nat, index: nat)
      requires buffer.Length == 64 && i <= |input|
      requires i == 0 ==> Buffered(message) && index == |message| % 64 && index + |input| < 64
      requires i > 0 ==> index == 0 && |input| - i < 64 && (|message| + i) % 64 == 0
                         && state == Fold(transform, INITIAL, message + input[..i])
      modifies buffer
      ensures Buffered(message + input)
    {
      if i == 0 {
        RestGrows(message, input);
      } else {
        RestStarts(message, input, i);
      }
      Copy(index, input[i..]);
    }

    /** Counts n more bytes; index is how far the buffer is filled. */
    method Count(n: nat) returns (index: nat)
      requires [count0, count1] == LengthWords(|message|) && n < WORD
      modifies this`count0, this`count1
      ensures [count0, count1] == LengthWords(|message| + n) && index == |message| % 64
    {
      CountIndex(|message|);
      CountAdds(|message|, n);
      index := count0 / 8 % 64;
      count0, count1 := CountLow(count0, n), CountHigh(count0, count1, n);
    }

    /** Puts in more of the message. */
    method Update(input: seq<Byte>)
      requires Valid() && |message| % 64 + |input| < WORD
      modifies this, buffer
      ensures Valid() && message == old(message) + input
    {
      var index := Count(|input|);
      var partLen := 64 - index;
      var i := 0;
      if |input| >= partLen {
        FillBuffer(input[..partLen]);
        FillsBlock(|message|);
        i := AbsorbBlocks(input, partLen, message);
        index := 0;
      }
      KeepRest(input, i, index);
      message := message + input;
    }

    /** Adds the padding and then the length the message had before. */
    method Pad()
      requires Valid()
      modifies this, buffer
      ensures Valid() && message == Padded(old(message))
    {
      ghost var n := |message|;
      CountIndex(n);
      var bits := new Byte[8];
      Encode(bits, [count0, count1]);
      var index := count0 / 8 % 64;
      var padLen := if index < 56 then 56 - index else 120 - index;
      PaddingPrefix(n, padLen);
      Update(([0x80] + Zeros(63))[..padLen]);
      Update(bits[..]);
    }

    /** Ends the message: the digest is left, the context is wiped. */
    method Final(digest: array<Byte>)
      requires Valid() && digest.Length == 16 && digest != buffer
      modifies this, buffer, digest
      ensures digest[..] == Digest(transform, old(message))
      ensures count0 == count1 == 0 && state == State(0, 0, 0, 0) && buffer[..] == Zeros(64)
    {
      Pad();
      assert message[..|message|] == message;
      Encode(digest, [state.a, state.b, state.c, state.d]);
      count0, count1, state := 0, 0, State(0, 0, 0, 0);
      forall k | 0 <= k < 64 {
        buffer[k] := 0;
      }
    }
  }

  function Flatten(chunks: seq<seq<Byte>>): seq<Byte> {
    if chunks == [] then [] else Flatten(chunks[..|chunks| - 1]) + chunks[|chunks| - 1]
  }

  /** However a message is cut up, the digest is that of the whole. */
  method DigestOfChunks(f: Transform, chunks: seq<seq<Byte>>) returns (digest: array<Byte>)
    requires forall k :: 0 <= k < |chunks| ==> |Flatten(chunks[..k])| % 64 + |chunks[k]| < WORD
    ensures digest[..] == Digest(f, Flatten(chunks))
  {
    var context := new Context.Init(f);
    digest := new Byte[16];
    for k := 0 to |chunks|
      invariant context.Valid() && context.transform == f && context.message == Flatten(chunks[..k])
      invariant fresh(context) && fresh(context.buffer) && fresh(digest) && digest != context.buffer
      invariant digest.Length == 16
    {
      assert chunks[..k + 1][..k] == chunks[..k];
      context.Update(chunks[k]);
    }
    assert chunks[..|chunks|] == chunks;
    context.Final(digest);
  }
}
