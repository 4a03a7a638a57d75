/** launcher/src/sha256.cpp against FIPS 180-4.

    The functions follow the standard section by section; the methods are the code, filling its word array and
    updating its chaining value in place. */
module Sha256 {
  import opened Bytes

  /** `uint32_t` */
  type Word = n: nat | n < 0x1_0000_0000

  function Bits(x: Word): bv32 {
    x as bv32
  }

  function Value(b: bv32): (x: Word) {
    b as nat
  }

  // ---- section 4.1.2: functions on words ----

  /** Addition modulo 2^32. */
  function Add(x: Word, y: Word): Word {
    if x + y < 0x1_0000_0000 then x + y else x + y - 0x1_0000_0000
  }

  function Rotr(x: bv32, n: nat): bv32
    requires 0 < n < 32
  {
    (x >> n) | (x << (32 - n))
  }

  function Ch(x: Word, y: Word, z: Word): Word {
    Value((Bits(x) & Bits(y)) ^ (!Bits(x) & Bits(z)))
  }

  function Maj(x: Word, y: Word, z: Word): Word {
    Value((Bits(x) & Bits(y)) ^ (Bits(x) & Bits(z)) ^ (Bits(y) & Bits(z)))
  }

  function BigSigma0(x: Word): Word {
    Value(Rotr(Bits(x), 2) ^ Rotr(Bits(x), 13) ^ Rotr(Bits(x), 22))
  }

  function BigSigma1(x: Word): Word {
    Value(Rotr(Bits(x), 6) ^ Rotr(Bits(x), 11) ^ Rotr(Bits(x), 25))
  }

  function SmallSigma0(x: Word): Word {
    Value(Rotr(Bits(x), 7) ^ Rotr(Bits(x), 18) ^ (Bits(x) >> 3))
  }

  function SmallSigma1(x: Word): Word {
    Value(Rotr(Bits(x), 17) ^ Rotr(Bits(x), 19) ^ (Bits(x) >> 10))
  }

  // ---- sections 4.2.2 and 5.3.3: constants ----

  const K_BITS: seq<seq<Word>> := [
    [0x428a2f98, 0x71374491, 0xb5c0fbcf, 0xe9b5dba5, 0x3956c25b, 0x59f111f1, 0x923f82a4, 0xab1c5ed5],
    [0xd807aa98, 0x12835b01, 0x243185be, 0x550c7dc3, 0x72be5d74, 0x80deb1fe, 0x9bdc06a7, 0xc19bf174],
    [0xe49b69c1, 0xefbe4786, 0x0fc19dc6, 0x240ca1cc, 0x2de92c6f, 0x4a7484aa, 0x5cb0a9dc, 0x76f988da],
    [0x983e5152, 0xa831c66d, 0xb00327c8, 0xbf597fc7, 0xc6e00bf3, 0xd5a79147, 0x06ca6351, 0x14292967],
    [0x27b70a85, 0x2e1b2138, 0x4d2c6dfc, 0x53380d13, 0x650a7354, 0x766a0abb, 0x81c2c92e, 0x92722c85],
    [0xa2bfe8a1, 0xa81a664b, 0xc24b8b70, 0xc76c51a3, 0xd192e819, 0xd6990624, 0xf40e3585, 0x106aa070],
    [0x19a4c116, 0x1e376c08, 0x2748774c, 0x34b0bcb5, 0x391c0cb3, 0x4ed8aa4a, 0x5b9cca4f, 0x682e6ff3],
    [0x748f82ee, 0x78a5636f, 0x84c87814, 0x8cc70208, 0x90befffa, 0xa4506ceb, 0xbef9a3f7, 0xc67178f2]]

  const H_BITS: seq<Word> := [
    0x6a09e667, 0xbb67ae85, 0x3c6ef372, 0xa54ff53a, 0x510e527f, 0x9b05688c, 0x1f83d9ab, 0x5be0cd19]

  function K(t: nat): Word
    requires t < 64
  {
    K_BITS[t / 8][t % 8]
  }

  function Initial(): (h: seq<Word>)
    ensures |h| == 8
  {
    H_BITS
  }

  // ---- section 5.1.1: padding ----

  /** Messages are shorter than 2^64 bits. */
  const MESSAGE_LIMIT := 0x2000_0000_0000_0000

  /** The number of zero bytes after the 0x80: it leaves room for the length at the end of a block. */
  function ZeroBytes(n: nat): (z: nat)
    ensures (n + 1 + z) % 64 == 56 && z < 64
  {
    if n % 64 < 56 then 55 - n % 64 else 119 - n % 64
  }

  function Zeros(k: nat): (s: seq<bv8>)
    ensures |s| == k && forall i :: 0 <= i < k ==> s[i] == 0
  {
    seq(k, _ => 0)
  }

  function Padding(n: nat): (s: seq<bv8>)
    ensures |s| == if n % 64 < 56 then 64 - n % 64 else 128 - n % 64
  {
    hide BigEndian;
    [0x80] + Zeros(ZeroBytes(n)) + BigEndian(8 * n, 8)
  }

  /** The blocks of a padded message of `n` bytes. */
  function Blocks(n: nat): nat {
    n / 64 + (if n % 64 < 56 then 1 else 2)
  }

  function Padded(message: seq<bv8>): (s: seq<bv8>)
    ensures |s| == 64 * Blocks(|message|)
  {
    hide Padding;
    message + Padding(|message|)
  }

  /** No fewer zero bytes would do. */
  lemma {:induction false} LeastPadding(n: nat, y: nat)
    requires (n + 1 + y) % 64 == 56
    ensures ZeroBytes(n) <= y
  {
  }

  // ---- section 5.2.1: parsing ----

  function Widen(b: bv8): (w: bv32)
    ensures w <= 0xFF
  {
    b as bv32
  }

  function Weighted(a: bv32, b: bv32, c: bv32, d: bv32): bv32 {
    a * 0x100_0000 + b * 0x1_0000 + c * 0x100 + d
  }

  /** Four bytes as a word, most significant first. */
  function WordOf(b: seq<bv8>): Word
    requires |b| == 4
  {
    hide Widen, Weighted, Value;
    Value(Weighted(Widen(b[0]), Widen(b[1]), Widen(b[2]), Widen(b[3])))
  }

  // ---- section 6.2.2: the compression ----

  /** W_t */
  function Schedule(block: seq<bv8>, t: nat): Word
    requires |block| == 64 && t < 64
  {
    hide WordOf, Add, SmallSigma0, SmallSigma1;
    if t < 16 then WordOf(block[4 * t..4 * t + 4])
    else
      Add(Add(Add(SmallSigma1(Schedule(block, t - 2)), Schedule(block, t - 7)), SmallSigma0(Schedule(block, t - 15))),
          Schedule(block, t - 16))
  }

  datatype Vars = Vars(a: Word, b: Word, c: Word, d: Word, e: Word, f: Word, g: Word, h: Word)

  /** T_1 */
  function First(v: Vars, k: Word, w: Word): Word {
    hide Add, BigSigma1, Ch;
    Add(Add(Add(Add(v.h, BigSigma1(v.e)), Ch(v.e, v.f, v.g)), k), w)
  }

  /** T_2 */
  function Second(v: Vars): Word {
    hide Add, BigSigma0, Maj;
    Add(BigSigma0(v.a), Maj(v.a, v.b, v.c))
  }

  function Round(v: Vars, k: Word, w: Word): Vars {
    hide Add, First, Second;
    Vars(Add(First(v, k, w), Second(v)), v.a, v.b, v.c, Add(v.d, First(v, k, w)), v.e, v.f, v.g)
  }

  /** The working variables after `t` rounds. */
  function Rounds(v: Vars, block: seq<bv8>, t: nat): Vars
    requires |block| == 64 && t <= 64
  {
    hide Round, K, Schedule;
    if t == 0 then v else Round(Rounds(v, block, t - 1), K(t - 1), Schedule(block, t - 1))
  }

  function VarsOf(h: seq<Word>): Vars
    requires |h| == 8
  {
    Vars(h[0], h[1], h[2], h[3], h[4], h[5], h[6], h[7])
  }

  function Fed(h: seq<Word>, v: Vars): (r: seq<Word>)
    requires |h| == 8
    ensures |r| == 8
  {
    hide Add;
    [Add(h[0], v.a), Add(h[1], v.b), Add(h[2], v.c), Add(h[3], v.d),
     Add(h[4], v.e), Add(h[5], v.f), Add(h[6], v.g), Add(h[7], v.h)]
  }

  function Compress(h: seq<Word>, block: seq<bv8>): (r: seq<Word>)
    requires |h| == 8 && |block| == 64
    ensures |r| == 8
  {
    hide Rounds, Fed;
    Fed(h, Rounds(VarsOf(h), block, 64))
  }

  /** The chaining value after the `n` blocks of `bytes`. */
  function HashFrom(h: seq<Word>, bytes: seq<bv8>, n: nat): (r: seq<Word>)
    requires |h| == 8 && |bytes| == 64 * n
    ensures |r| == 8
    decreases n
  {
    hide Compress;
    if n == 0 then h else HashFrom(Compress(h, bytes[..64]), bytes[64..], n - 1)
  }

  function Digest(message: seq<bv8>): (r: seq<Word>)
    ensures |r| == 8
  {
    hide HashFrom, Initial, Padded;
    HashFrom(Initial(), Padded(message), Blocks(|message|))
  }

  // ---- the text form ----

  const DIGITS := "0123456789abcdef"

  /** `w >> 4 * k` */
  function Nibbles(w: nat, k: nat): nat {
    if k == 0 then w else Nibbles(w / 16, k - 1)
  }

  /** The hexadecimal digit of `w` with `k` below it. */
  function Digit(w: Word, k: nat): char {
    DIGITS[Nibbles(w, k) % 16]
  }

  /** A word in hexadecimal, the most significant digit first. */
  function HexWord(w: Word): (s: string)
    ensures |s| == 8
  {
    hide Digit;
    [Digit(w, 7), Digit(w, 6), Digit(w, 5), Digit(w, 4), Digit(w, 3), Digit(w, 2), Digit(w, 1), Digit(w, 0)]
  }

  function Hex(h: seq<Word>): string {
    hide HexWord;
    if h == [] then "" else HexWord(h[0]) + Hex(h[1..])
  }

  // ---- the code: one block ----

  function Shifted(a: bv32, b: bv32, c: bv32, d: bv32): bv32 {
    (a << 24) | (b << 16) | (c << 8) | d
  }

  lemma {:induction false} ShiftedIsWeighted(a: bv32, b: bv32, c: bv32, d: bv32)
    requires a <= 0xFF && b <= 0xFF && c <= 0xFF && d <= 0xFF
    ensures Shifted(a, b, c, d) == Weighted(a, b, c, d)
  {
  }

  method LoadWord(p: seq<bv8>, i: nat) returns (w: Word)
    requires i + 4 <= |p|
    ensures w == WordOf(p[i..i + 4])
  {
    hide Widen, Shifted, Weighted, Value;
    ShiftedIsWeighted(Widen(p[i]), Widen(p[i + 1]), Widen(p[i + 2]), Widen(p[i + 3]));
    w := Value(Shifted(Widen(p[i]), Widen(p[i + 1]), Widen(p[i + 2]), Widen(p[i + 3])));
  }

  lemma {:induction false} AddAssociates(x: Word, y: Word, z: Word)
    ensures Add(Add(x, y), z) == Add(x, Add(y, z)) && Add(x, y) == Add(y, x)
  {
  }

  /** The code adds the four terms in another order. */
  lemma {:induction false} AddReordered(p: Word, q: Word, r: Word, s: Word)
    ensures Add(Add(Add(p, q), r), s) == Add(Add(Add(s, r), q), p)
  {
    AddAssociates(Add(Add(p, q), r), s, s);
    AddAssociates(Add(p, q), r, r);
    AddAssociates(s, r, Add(p, q));
    AddAssociates(p, q, q);
    AddAssociates(Add(s, r), q, p);
    hide Add;
  }

  /** `w[64]` */
  method FillSchedule(block: seq<bv8>) returns (w: array<Word>)
    requires |block| == 64
    ensures fresh(w) && w.Length == 64 && forall t :: 0 <= t < 64 ==> w[t] == Schedule(block, t)
  {
    hide WordOf, Add, SmallSigma0, SmallSigma1;
    w := new Word[64];
    for i := 0 to 16
      invariant forall t :: 0 <= t < i ==> w[t] == Schedule(block, t)
    {
      w[i] := LoadWord(block, i * 4);
    }
    for i := 16 to 64
      invariant forall t :: 0 <= t < i ==> w[t] == Schedule(block, t)
    {
      var s0 := SmallSigma0(w[i - 15]);
      var s1 := SmallSigma1(w[i - 2]);
      AddReordered(s1, w[i - 7], s0, w[i - 16]);
      w[i] := Add(Add(Add(w[i - 16], s0), w[i - 7]), s1);
    }
  }

  /** `process_block` */
  method ProcessBlock(p: seq<bv8>, off: nat, h: array<Word>)
    requires off + 64 <= |p| && h.Length == 8
    modifies h
    ensures h[..] == Compress(old(h[..]), p[off..off + 64])
  {
    hide Schedule, Add, Ch, Maj, BigSigma0, BigSigma1, K;
    ghost var block := p[off..off + 64];
    var w := FillSchedule(p[off..off + 64]);
    var a, b, c, d := h[0], h[1], h[2], h[3];
    var e, f, g, hh := h[4], h[5], h[6], h[7];
    for i := 0 to 64
      invariant h[..] == old(h[..]) && forall t :: 0 <= t < 64 ==> w[t] == Schedule(block, t)
      invariant Vars(a, b, c, d, e, f, g, hh) == Rounds(VarsOf(old(h[..])), block, i)
    {
      var t1 := Add(Add(Add(Add(hh, BigSigma1(e)), Ch(e, f, g)), K(i)), w[i]);
      var t2 := Add(BigSigma0(a), Maj(a, b, c));
      hh := g;
      g := f;
      f := e;
      e := Add(d, t1);
      d := c;
      c := b;
      b := a;
      a := Add(t1, t2);
    }
    h[0], h[1], h[2], h[3] := Add(h[0], a), Add(h[1], b), Add(h[2], c), Add(h[3], d);
    h[4], h[5], h[6], h[7] := Add(h[4], e), Add(h[5], f), Add(h[6], g), Add(h[7], hh);
  }

  // ---- the code: the message ----

  /** What the tail buffer is to hold: the last, incomplete block of the message and its padding. */
  function Tail(message: seq<bv8>): (s: seq<bv8>)
    ensures |s| == 64 * TailBlocks(|message|)
  {
    hide Padding;
    message[Whole(|message|)..] + Padding(|message|)
  }

  /** The bytes of `n` that fill whole blocks. */
  function Whole(n: nat): (m: nat)
    ensures m + n % 64 == n
  {
    n / 64 * 64
  }

  function TailBlocks(n: nat): (k: nat)
    ensures k == 1 || k == 2
  {
    if n % 64 < 56 then 1 else 2
  }

  /** The tail byte by byte. */
  lemma {:induction false} TailAt(message: seq<bv8>, j: nat)
    requires j < |Tail(message)|
    ensures var t, rem, total := Tail(message), |message| % 64, |Tail(message)|;
            t[j] == if j < rem then message[Whole(|message|) + j]
                    else if j == rem then 0x80
                    else if j < total - 8 then 0
                    else ToByte(Shift(8 * |message|, total - 1 - j) % 256)
  {
    hide ToByte, Shift, BigEndian, Whole, ZeroBytes;
    var n, rem := |message|, |message| % 64;
    var total := |Tail(message)|;
    if j >= total - 8 {
      BigEndianAt(8 * n, 8, total - 1 - j);
    }
  }

  /** The tail buffer with what is left of the message in front. */
  method CopyRest(data: seq<bv8>) returns (tail: array<bv8>)
    ensures fresh(tail) && tail.Length == 128
    ensures var rem := |data| % 64;
            forall i :: 0 <= i < 128 ==>
                          tail[i] == if i < rem then data[Whole(|data|) + i] else if i == rem then 0x80 else 0
  {
    var from := Whole(|data|);
    var rem := |data| - from;
    tail := new bv8[128](_ => 0);
    for j := 0 to rem
      invariant forall i :: 0 <= i < 128 ==> tail[i] == if i < j then data[from + i] else 0
    {
      tail[j] := data[from + j];
    }
    tail[rem] := 0x80;
  }

  /** The last eight bytes before `total` take `bits`, most significant first. */
  method WriteLength(tail: array<bv8>, total: nat, bits: nat)
    requires 8 <= total <= tail.Length
    modifies tail
    ensures forall i :: 0 <= i < tail.Length ==>
                          tail[i] == if total - 8 <= i < total then ToByte(Shift(bits, total - 1 - i) % 256)
                                     else old(tail[i])
  {
    hide ToByte;
    var left := bits;
    for k := 0 to 8
      invariant left == Shift(bits, k)
      invariant forall i :: 0 <= i < tail.Length ==>
                              tail[i] == if total - k <= i < total then ToByte(Shift(bits, total - 1 - i) % 256)
                                         else old(tail[i])
    {
      tail[total - 1 - k] := ToByte(left % 256);
      ShiftOnce(bits, k);
      left := left / 256;
    }
  }

  /** The 64-bit length field holds the length of every message the standard covers, and wraps beyond. */
  method FillTail(data: seq<bv8>) returns (tail: array<bv8>, total: nat)
    ensures fresh(tail) && tail.Length == 128 && total == |Tail(data)| && (total == 64 || total == 128)
    ensures |data| < MESSAGE_LIMIT ==> tail[..total] == Tail(data)
  {
    hide ToByte, Padding, ZeroBytes, Shift, Tail;
    tail := CopyRest(data);
    total := if |data| % 64 < 56 then 64 else 128;
    var bits := |data| * 8 % 0x1_0000_0000_0000_0000;
    WriteLength(tail, total, bits);
    if |data| < MESSAGE_LIMIT {
      assert bits == 8 * |data|;
      forall j | 0 <= j < total ensures tail[j] == Tail(data)[j] {
        TailAt(data, j);
      }
      assert tail[..total] == Tail(data);
    }
  }

  /** The full blocks, taken straight from the message. */
  method FullBlocks(data: seq<bv8>, h: array<Word>)
    requires h.Length == 8
    modifies h
    ensures HashFrom(old(h[..]), Padded(data), Blocks(|data|)) == HashFrom(h[..], Tail(data), TailBlocks(|data|))
  {
    hide Compress, Padding;
    ghost var all, blocks := Padded(data), Blocks(|data|);
    assert all[0..] == all;
    for i := 0 to |data| / 64
      invariant HashFrom(old(h[..]), all, blocks) == HashFrom(h[..], all[64 * i..], blocks - i)
    {
      assert all[64 * i..][..64] == data[i * 64..i * 64 + 64] && all[64 * i..][64..] == all[64 * (i + 1)..];
      ProcessBlock(data, i * 64, h);
    }
    assert all[64 * (|data| / 64)..] == Tail(data);
  }

  method HexDigits(h: seq<Word>) returns (out: string)
    ensures out == Hex(h)
  {
    hide HexWord;
    out := "";
    for i := 0 to |h|
      invariant out + Hex(h[i..]) == Hex(h)
    {
      assert h[i..][1..] == h[i + 1..];
      assert (out + HexWord(h[i])) + Hex(h[i + 1..]) == out + (HexWord(h[i]) + Hex(h[i + 1..]));
      var word := PushWord(h[i]);
      out := out + word;
    }
  }

  /** The bytes of a word from the top, each as two digits. */
  method PushWord(w: Word) returns (out: string)
    ensures out == HexWord(w)
  {
    hide HexWord, Digit, Shift;
    out := "";
    var i := 4;
    while i > 0
      invariant 0 <= i <= 4 && out == HexWord(w)[..2 * (4 - i)]
    {
      i := i - 1;
      var byte := Shift(w, i) % 256;
      TwoDigits(w, i);
      HexWordAt(w, 2 * (3 - i));
      HexWordAt(w, 2 * (3 - i) + 1);
      out := out + [DIGITS[byte / 16]] + [DIGITS[byte % 16]];
    }
  }

  lemma {:induction false} HexWordAt(w: Word, p: nat)
    requires p < 8
    ensures HexWord(w)[p] == Digit(w, 7 - p)
  {
    hide Digit;
  }

  lemma {:induction false} NibblesShift(w: nat, i: nat)
    ensures Nibbles(w, 2 * i) == Shift(w, i) && Nibbles(w, 2 * i + 1) == Shift(w, i) / 16
    decreases i
  {
    if i > 0 {
      assert w / 256 == w / 16 / 16;
      NibblesShift(w / 256, i - 1);
      assert Nibbles(w, 2 * i) == Nibbles(w / 16, 2 * i - 1);
      assert Nibbles(w / 16, 2 * i - 1) == Nibbles(w / 16 / 16, 2 * (i - 1));
      assert Nibbles(w, 2 * i + 1) == Nibbles(w / 16, 2 * i);
      assert Nibbles(w / 16, 2 * i) == Nibbles(w / 16 / 16, 2 * (i - 1) + 1);
    } else {
      assert Nibbles(w, 1) == Nibbles(w / 16, 0);
    }
  }

  lemma {:induction false} ByteDigits(q: nat)
    ensures q % 256 / 16 == q / 16 % 16 && q % 256 % 16 == q % 16
  {
    var b := q / 256;
    assert q == 256 * b + q % 256;
    assert q / 16 == 16 * b + q % 256 / 16;
  }

  lemma {:induction false} TwoDigits(w: Word, i: nat)
    ensures var byte := Shift(w, i) % 256;
            DIGITS[byte / 16] == Digit(w, 2 * i + 1) && DIGITS[byte % 16] == Digit(w, 2 * i)
  {
    NibblesShift(w, i);
    ByteDigits(Shift(w, i));
    hide Shift, Nibbles;
  }

  /** `sha256_hex`: the FIPS 180-4 digest of every message the standard covers. */
  method Sha256Hex(data: seq<bv8>) returns (out: string)
    ensures |data| < MESSAGE_LIMIT ==> out == Hex(Digest(data))
  {
    hide Compress, Padded, Padding, Hex, Tail;
    var h := new Word[8](i requires 0 <= i < 8 => H_BITS[i]);
    assert h[..] == Initial();
    FullBlocks(data, h);
    var tail, total := FillTail(data);
    ghost var mid, rest := h[..], tail[..total];
    ProcessBlock(tail[..], 0, h);
    assert tail[..][0..64] == rest[..64];
    assert HashFrom(mid, rest, total / 64) == HashFrom(h[..], rest[64..], total / 64 - 1);
    if total == 128 {
      ghost var next := h[..];
      ProcessBlock(tail[..], 64, h);
      assert tail[..][64..128] == rest[64..][..64];
      assert HashFrom(next, rest[64..], 1) == HashFrom(h[..], rest[64..][64..], 0);
    }
    out := HexDigits(h[..]);
  }

  // ---- where the constants come from ----

  /** `k` is the first 32 bits of the fractional part of the cube root of `p`, whose integer part is `r`. */
  predicate IsCubeRootBits(p: nat, r: nat, k: nat) {
    var c := r * 0x1_0000_0000 + k;
    c * c * c <= p * 0x1_0000_0000_0000_0000_0000_0000 < (c + 1) * (c + 1) * (c + 1)
  }

  predicate IsSquareRootBits(p: nat, r: nat, k: nat) {
    var c := r * 0x1_0000_0000 + k;
    c * c <= p * 0x1_0000_0000_0000_0000 < (c + 1) * (c + 1)
  }

  /** The first 64 primes. */
  const PRIMES: seq<seq<nat>> := [
    [2, 3, 5, 7, 11, 13, 17, 19],
    [23, 29, 31, 37, 41, 43, 47, 53],
    [59, 61, 67, 71, 73, 79, 83, 89],
    [97, 101, 103, 107, 109, 113, 127, 131],
    [137, 139, 149, 151, 157, 163, 167, 173],
    [179, 181, 191, 193, 197, 199, 211, 223],
    [227, 229, 233, 239, 241, 251, 257, 263],
    [269, 271, 277, 281, 283, 293, 307, 311]]

  /** The integer part of the cube root of each. */
  const CUBE_ROOTS: seq<seq<nat>> := [
    [1, 1, 1, 1, 2, 2, 2, 2],
    [2, 3, 3, 3, 3, 3, 3, 3],
    [3, 3, 4, 4, 4, 4, 4, 4],
    [4, 4, 4, 4, 4, 4, 5, 5],
    [5, 5, 5, 5, 5, 5, 5, 5],
    [5, 5, 5, 5, 5, 5, 5, 6],
    [6, 6, 6, 6, 6, 6, 6, 6],
    [6, 6, 6, 6, 6, 6, 6, 6]]

  const SQUARE_ROOTS: seq<nat> := [1, 1, 2, 2, 3, 3, 4, 4]

  predicate KIsRoot(i: nat, j: nat)
    requires i < 8 && j < 8
  {
    IsCubeRootBits(PRIMES[i][j], CUBE_ROOTS[i][j], K_BITS[i][j])
  }

  predicate HIsRoot(j: nat)
    requires j < 8
  {
    IsSquareRootBits(PRIMES[0][j], SQUARE_ROOTS[j], H_BITS[j])
  }

  lemma {:induction false} KRoots0()
    ensures forall j: nat :: j < 8 ==> KIsRoot(0, j)
  {
    assert IsCubeRootBits(2, 1, 0x428a2f98);
    assert IsCubeRootBits(3, 1, 0x71374491);
    assert IsCubeRootBits(5, 1, 0xb5c0fbcf);
    assert IsCubeRootBits(7, 1, 0xe9b5dba5);
    assert IsCubeRootBits(11, 2, 0x3956c25b);
    assert IsCubeRootBits(13, 2, 0x59f111f1);
    assert IsCubeRootBits(17, 2, 0x923f82a4);
    assert IsCubeRootBits(19, 2, 0xab1c5ed5);
    hide IsCubeRootBits;
  }

  lemma {:induction false} KRoots1()
    ensures forall j: nat :: j < 8 ==> KIsRoot(1, j)
  {
    assert IsCubeRootBits(23, 2, 0xd807aa98);
    assert IsCubeRootBits(29, 3, 0x12835b01);
    assert IsCubeRootBits(31, 3, 0x243185be);
    assert IsCubeRootBits(37, 3, 0x550c7dc3);
    assert IsCubeRootBits(41, 3, 0x72be5d74);
    assert IsCubeRootBits(43, 3, 0x80deb1fe);
    assert IsCubeRootBits(47, 3, 0x9bdc06a7);
    assert IsCubeRootBits(53, 3, 0xc19bf174);
    hide IsCubeRootBits;
  }

  lemma {:induction false} KRoots2()
    ensures forall j: nat :: j < 8 ==> KIsRoot(2, j)
  {
    assert IsCubeRootBits(59, 3, 0xe49b69c1);
    assert IsCubeRootBits(61, 3, 0xefbe4786);
    assert IsCubeRootBits(67, 4, 0x0fc19dc6);
    assert IsCubeRootBits(71, 4, 0x240ca1cc);
    assert IsCubeRootBits(73, 4, 0x2de92c6f);
    assert IsCubeRootBits(79, 4, 0x4a7484aa);
    assert IsCubeRootBits(83, 4, 0x5cb0a9dc);
    assert IsCubeRootBits(89, 4, 0x76f988da);
    hide IsCubeRootBits;
  }

  lemma {:induction false} KRoots3()
    ensures forall j: nat :: j < 8 ==> KIsRoot(3, j)
  {
    assert IsCubeRootBits(97, 4, 0x983e5152);
    assert IsCubeRootBits(101, 4, 0xa831c66d);
    assert IsCubeRootBits(103, 4, 0xb00327c8);
    assert IsCubeRootBits(107, 4, 0xbf597fc7);
    assert IsCubeRootBits(109, 4, 0xc6e00bf3);
    assert IsCubeRootBits(113, 4, 0xd5a79147);
    assert IsCubeRootBits(127, 5, 0x06ca6351);
    assert IsCubeRootBits(131, 5, 0x14292967);
    hide IsCubeRootBits;
  }

  lemma {:induction false} KRoots4()
    ensures forall j: nat :: j < 8 ==> KIsRoot(4, j)
  {
    assert IsCubeRootBits(137, 5, 0x27b70a85);
    assert IsCubeRootBits(139, 5, 0x2e1b2138);
    assert IsCubeRootBits(149, 5, 0x4d2c6dfc);
    assert IsCubeRootBits(151, 5, 0x53380d13);
    assert IsCubeRootBits(157, 5, 0x650a7354);
    assert IsCubeRootBits(163, 5, 0x766a0abb);
    assert IsCubeRootBits(167, 5, 0x81c2c92e);
    assert IsCubeRootBits(173, 5, 0x92722c85);
    hide IsCubeRootBits;
  }

  lemma {:induction false} KRoots5()
    ensures forall j: nat :: j < 8 ==> KIsRoot(5, j)
  {
    assert IsCubeRootBits(179, 5, 0xa2bfe8a1);
    assert IsCubeRootBits(181, 5, 0xa81a664b);
    assert IsCubeRootBits(191, 5, 0xc24b8b70);
    assert IsCubeRootBits(193, 5, 0xc76c51a3);
    assert IsCubeRootBits(197, 5, 0xd192e819);
    assert IsCubeRootBits(199, 5, 0xd6990624);
    assert IsCubeRootBits(211, 5, 0xf40e3585);
    assert IsCubeRootBits(223, 6, 0x106aa070);
    hide IsCubeRootBits;
  }

  lemma {:induction false} KRoots6()
    ensures forall j: nat :: j < 8 ==> KIsRoot(6, j)
  {
    assert IsCubeRootBits(227, 6, 0x19a4c116);
    assert IsCubeRootBits(229, 6, 0x1e376c08);
    assert IsCubeRootBits(233, 6, 0x2748774c);
    assert IsCubeRootBits(239, 6, 0x34b0bcb5);
    assert IsCubeRootBits(241, 6, 0x391c0cb3);
    assert IsCubeRootBits(251, 6, 0x4ed8aa4a);
    assert IsCubeRootBits(257, 6, 0x5b9cca4f);
    assert IsCubeRootBits(263, 6, 0x682e6ff3);
    hide IsCubeRootBits;
  }

  lemma {:induction false} KRoots7()
    ensures forall j: nat :: j < 8 ==> KIsRoot(7, j)
  {
    assert IsCubeRootBits(269, 6, 0x748f82ee);
    assert IsCubeRootBits(271, 6, 0x78a5636f);
    assert IsCubeRootBits(277, 6, 0x84c87814);
    assert IsCubeRootBits(281, 6, 0x8cc70208);
    assert IsCubeRootBits(283, 6, 0x90befffa);
    assert IsCubeRootBits(293, 6, 0xa4506ceb);
    assert IsCubeRootBits(307, 6, 0xbef9a3f7);
    assert IsCubeRootBits(311, 6, 0xc67178f2);
    hide IsCubeRootBits;
  }

  lemma {:induction false} HRoots()
    ensures forall j: nat :: j < 8 ==> HIsRoot(j)
  {
    assert IsSquareRootBits(2, 1, 0x6a09e667);
    assert IsSquareRootBits(3, 1, 0xbb67ae85);
    assert IsSquareRootBits(5, 2, 0x3c6ef372);
    assert IsSquareRootBits(7, 2, 0xa54ff53a);
    assert IsSquareRootBits(11, 3, 0x510e527f);
    assert IsSquareRootBits(13, 3, 0x9b05688c);
    assert IsSquareRootBits(17, 4, 0x1f83d9ab);
    assert IsSquareRootBits(19, 4, 0x5be0cd19);
    assert PRIMES[0] == [2, 3, 5, 7, 11, 13, 17, 19];
    hide IsSquareRootBits;
  }

  /** Section 4.2.2: the round constants are the first 32 bits of the fractional parts of the cube roots of the
      first 64 primes. Section 5.3.3: the initial value, of the square roots of the first 8. */
  lemma {:induction false} ConstantsAreRoots()
    ensures forall i: nat, j: nat :: i < 8 && j < 8 ==> KIsRoot(i, j)
    ensures forall j: nat :: j < 8 ==> HIsRoot(j)
  {
    hide KIsRoot, HIsRoot;
    HRoots();
    forall i: nat, j: nat | i < 8 && j < 8 ensures KIsRoot(i, j) {
      if i == 0 { KRoots0(); }
      else if i == 1 { KRoots1(); }
      else if i == 2 { KRoots2(); }
      else if i == 3 { KRoots3(); }
      else if i == 4 { KRoots4(); }
      else if i == 5 { KRoots5(); }
      else if i == 6 { KRoots6(); }
      else { KRoots7(); }
    }
  }
}
