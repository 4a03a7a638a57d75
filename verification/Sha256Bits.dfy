/** The functions on words of FIPS 180-4, section 4.1.2, bit by bit. Places are counted from the least
    significant bit. */
module Sha256Bits {
  import opened Sha256

  predicate BitOf(b: bv32, i: bv6)
    requires i < 32
  {
    (b >> i) & 1 == 1
  }

  predicate Bit(x: Word, i: bv6)
    requires i < 32
  {
    BitOf(Bits(x), i)
  }

  /** The place `n` further up, going round. */
  function Up(i: bv6, n: bv6): (r: bv6)
    requires i < 32 && n < 32
    ensures r < 32
  {
    if i + n < 32 then i + n else i + n - 32
  }

  function Shr(b: bv32, n: nat): bv32
    requires n < 32
  {
    b >> n
  }

  function Xor(b: bv32, c: bv32, d: bv32): bv32 {
    b ^ c ^ d
  }

  lemma {:induction false} BitsOfValue(b: bv32)
    ensures Bits(Value(b)) == b
  {
  }

  lemma {:induction false} Rotr2(b: bv32, i: bv6)
    requires i < 32
    ensures BitOf(Rotr(b, 2), i) == if i < 30 then BitOf(b, i + 2) else BitOf(b, i - 30)
  {
  }

  lemma {:induction false} Rotr6(b: bv32, i: bv6)
    requires i < 32
    ensures BitOf(Rotr(b, 6), i) == if i < 26 then BitOf(b, i + 6) else BitOf(b, i - 26)
  {
  }

  lemma {:induction false} Rotr7(b: bv32, i: bv6)
    requires i < 32
    ensures BitOf(Rotr(b, 7), i) == if i < 25 then BitOf(b, i + 7) else BitOf(b, i - 25)
  {
  }

  lemma {:induction false} Rotr11(b: bv32, i: bv6)
    requires i < 32
    ensures BitOf(Rotr(b, 11), i) == if i < 21 then BitOf(b, i + 11) else BitOf(b, i - 21)
  {
  }

  lemma {:induction false} Rotr13(b: bv32, i: bv6)
    requires i < 32
    ensures BitOf(Rotr(b, 13), i) == if i < 19 then BitOf(b, i + 13) else BitOf(b, i - 19)
  {
  }

  lemma {:induction false} Rotr17(b: bv32, i: bv6)
    requires i < 32
    ensures BitOf(Rotr(b, 17), i) == if i < 15 then BitOf(b, i + 17) else BitOf(b, i - 15)
  {
  }

  lemma {:induction false} Rotr18(b: bv32, i: bv6)
    requires i < 32
    ensures BitOf(Rotr(b, 18), i) == if i < 14 then BitOf(b, i + 18) else BitOf(b, i - 14)
  {
  }

  lemma {:induction false} Rotr19(b: bv32, i: bv6)
    requires i < 32
    ensures BitOf(Rotr(b, 19), i) == if i < 13 then BitOf(b, i + 19) else BitOf(b, i - 13)
  {
  }

  lemma {:induction false} Rotr22(b: bv32, i: bv6)
    requires i < 32
    ensures BitOf(Rotr(b, 22), i) == if i < 10 then BitOf(b, i + 22) else BitOf(b, i - 10)
  {
  }

  lemma {:induction false} Rotr25(b: bv32, i: bv6)
    requires i < 32
    ensures BitOf(Rotr(b, 25), i) == if i < 7 then BitOf(b, i + 25) else BitOf(b, i - 7)
  {
  }

  lemma {:induction false} Right3(b: bv32, i: bv6)
    requires i < 32
    ensures BitOf(Shr(b, 3), i) == (i < 29 && BitOf(b, i + 3))
  {
  }

  lemma {:induction false} Right10(b: bv32, i: bv6)
    requires i < 32
    ensures BitOf(Shr(b, 10), i) == (i < 22 && BitOf(b, i + 10))
  {
  }

  lemma {:induction false} XorBit(b: bv32, c: bv32, d: bv32, i: bv6)
    requires i < 32
    ensures BitOf(Xor(b, c, d), i)
            == Odd(BitOf(b, i), BitOf(c, i), BitOf(d, i))
  {
    hide BitOf, Odd;
    XorBits(b, c, d, i);
  }

  lemma {:induction false} XorBits(b: bv32, c: bv32, d: bv32, i: bv6)
    requires i < 32
    ensures BitOf(b ^ c ^ d, i) == Odd(BitOf(b, i), BitOf(c, i), BitOf(d, i))
  {
  }

  /** One of three bits is set, or all are. */
  predicate Odd(p: bool, q: bool, r: bool) {
    (p != q) != r
  }

  lemma {:induction false} BigSigma0Bits(b: bv32, i: bv6)
    requires i < 32
    ensures BitOf(Xor(Rotr(b, 2), Rotr(b, 13), Rotr(b, 22)), i)
            == Odd(BitOf(b, Up(i, 2)), BitOf(b, Up(i, 13)), BitOf(b, Up(i, 22)))
  {
    hide Rotr, Shr, Xor, BitOf, Odd;
    Rotr2(b, i);
    Rotr13(b, i);
    Rotr22(b, i);
    XorBit(Rotr(b, 2), Rotr(b, 13), Rotr(b, 22), i);
  }

  lemma {:induction false} BigSigma0Value(x: Word)
    ensures Bits(BigSigma0(x)) == Xor(Rotr(Bits(x), 2), Rotr(Bits(x), 13), Rotr(Bits(x), 22))
  {
    hide Bits, Value, Rotr;
    BitsOfValue(Xor(Rotr(Bits(x), 2), Rotr(Bits(x), 13), Rotr(Bits(x), 22)));
  }

  lemma {:induction false} BigSigma0Is(x: Word, i: bv6)
    requires i < 32
    ensures Bit(BigSigma0(x), i) == Odd(Bit(x, Up(i, 2)), Bit(x, Up(i, 13)), Bit(x, Up(i, 22)))
  {
    hide Bits, Value, Rotr, Shr, Xor, BitOf, Up, Odd, BigSigma0;
    BigSigma0Value(x);
    BigSigma0Bits(Bits(x), i);
  }

  lemma {:induction false} BigSigma1Bits(b: bv32, i: bv6)
    requires i < 32
    ensures BitOf(Xor(Rotr(b, 6), Rotr(b, 11), Rotr(b, 25)), i)
            == Odd(BitOf(b, Up(i, 6)), BitOf(b, Up(i, 11)), BitOf(b, Up(i, 25)))
  {
    hide Rotr, Shr, Xor, BitOf, Odd;
    Rotr6(b, i);
    Rotr11(b, i);
    Rotr25(b, i);
    XorBit(Rotr(b, 6), Rotr(b, 11), Rotr(b, 25), i);
  }

  lemma {:induction false} BigSigma1Value(x: Word)
    ensures Bits(BigSigma1(x)) == Xor(Rotr(Bits(x), 6), Rotr(Bits(x), 11), Rotr(Bits(x), 25))
  {
    hide Bits, Value, Rotr;
    BitsOfValue(Xor(Rotr(Bits(x), 6), Rotr(Bits(x), 11), Rotr(Bits(x), 25)));
  }

  lemma {:induction false} BigSigma1Is(x: Word, i: bv6)
    requires i < 32
    ensures Bit(BigSigma1(x), i) == Odd(Bit(x, Up(i, 6)), Bit(x, Up(i, 11)), Bit(x, Up(i, 25)))
  {
    hide Bits, Value, Rotr, Shr, Xor, BitOf, Up, Odd, BigSigma1;
    BigSigma1Value(x);
    BigSigma1Bits(Bits(x), i);
  }

  lemma {:induction false} SmallSigma0Bits(b: bv32, i: bv6)
    requires i < 32
    ensures BitOf(Xor(Rotr(b, 7), Rotr(b, 18), Shr(b, 3)), i)
            == Odd(BitOf(b, Up(i, 7)), BitOf(b, Up(i, 18)), i < 29 && BitOf(b, Up(i, 3)))
  {
    hide Rotr, Shr, Xor, BitOf, Odd;
    Rotr7(b, i);
    Rotr18(b, i);
    Right3(b, i);
    XorBit(Rotr(b, 7), Rotr(b, 18), Shr(b, 3), i);
  }

  lemma {:induction false} SmallSigma0Value(x: Word)
    ensures Bits(SmallSigma0(x)) == Xor(Rotr(Bits(x), 7), Rotr(Bits(x), 18), Shr(Bits(x), 3))
  {
    hide Bits, Value, Rotr;
    BitsOfValue(Xor(Rotr(Bits(x), 7), Rotr(Bits(x), 18), Shr(Bits(x), 3)));
  }

  /** A place shifted past the top gives no bit. */
  lemma {:induction false} SmallSigma0Is(x: Word, i: bv6)
    requires i < 32
    ensures Bit(SmallSigma0(x), i) == Odd(Bit(x, Up(i, 7)), Bit(x, Up(i, 18)), i < 29 && Bit(x, Up(i, 3)))
  {
    hide Bits, Value, Rotr, Shr, Xor, BitOf, Up, Odd, SmallSigma0;
    SmallSigma0Value(x);
    SmallSigma0Bits(Bits(x), i);
  }

  lemma {:induction false} SmallSigma1Bits(b: bv32, i: bv6)
    requires i < 32
    ensures BitOf(Xor(Rotr(b, 17), Rotr(b, 19), Shr(b, 10)), i)
            == Odd(BitOf(b, Up(i, 17)), BitOf(b, Up(i, 19)), i < 22 && BitOf(b, Up(i, 10)))
  {
    hide Rotr, Shr, Xor, BitOf, Odd;
    Rotr17(b, i);
    Rotr19(b, i);
    Right10(b, i);
    XorBit(Rotr(b, 17), Rotr(b, 19), Shr(b, 10), i);
  }

  lemma {:induction false} SmallSigma1Value(x: Word)
    ensures Bits(SmallSigma1(x)) == Xor(Rotr(Bits(x), 17), Rotr(Bits(x), 19), Shr(Bits(x), 10))
  {
    hide Bits, Value, Rotr;
    BitsOfValue(Xor(Rotr(Bits(x), 17), Rotr(Bits(x), 19), Shr(Bits(x), 10)));
  }

  lemma {:induction false} SmallSigma1Is(x: Word, i: bv6)
    requires i < 32
    ensures Bit(SmallSigma1(x), i) == Odd(Bit(x, Up(i, 17)), Bit(x, Up(i, 19)), i < 22 && Bit(x, Up(i, 10)))
  {
    hide Bits, Value, Rotr, Shr, Xor, BitOf, Up, Odd, SmallSigma1;
    SmallSigma1Value(x);
    SmallSigma1Bits(Bits(x), i);
  }

  /** Ch takes each bit from `y` where `x` has a one and from `z` where it has none. */
  lemma {:induction false} ChIs(x: Word, y: Word, z: Word, i: bv6)
    requires i < 32
    ensures Bit(Ch(x, y, z), i) == if Bit(x, i) then Bit(y, i) else Bit(z, i)
  {
    hide Bits, Value;
    BitsOfValue((Bits(x) & Bits(y)) ^ (!Bits(x) & Bits(z)));
  }

  function Majority(b: bv32, c: bv32, d: bv32): bv32 {
    (b & c) ^ (b & d) ^ (c & d)
  }

  lemma {:induction false} MajBits(b: bv32, c: bv32, d: bv32, i: bv6)
    requires i < 32
    ensures BitOf(Majority(b, c, d), i)
            == ((BitOf(b, i) && BitOf(c, i)) || (BitOf(b, i) && BitOf(d, i)) || (BitOf(c, i) && BitOf(d, i)))
  {
    hide BitOf;
    PairBits(b, c, d, i);
  }

  lemma {:induction false} PairBits(b: bv32, c: bv32, d: bv32, i: bv6)
    requires i < 32
    ensures BitOf((b & c) ^ (b & d) ^ (c & d), i)
            == ((BitOf(b, i) && BitOf(c, i)) || (BitOf(b, i) && BitOf(d, i)) || (BitOf(c, i) && BitOf(d, i)))
  {
  }

  lemma {:induction false} MajValue(x: Word, y: Word, z: Word)
    ensures Bits(Maj(x, y, z)) == Majority(Bits(x), Bits(y), Bits(z))
  {
    hide Bits, Value;
    BitsOfValue(Majority(Bits(x), Bits(y), Bits(z)));
  }

  /** Maj takes what at least two of the three have. */
  lemma {:induction false} MajIs(x: Word, y: Word, z: Word, i: bv6)
    requires i < 32
    ensures Bit(Maj(x, y, z), i)
            == ((Bit(x, i) && Bit(y, i)) || (Bit(x, i) && Bit(z, i)) || (Bit(y, i) && Bit(z, i)))
  {
    hide Bits, BitOf, Majority, Maj;
    MajValue(x, y, z);
    MajBits(Bits(x), Bits(y), Bits(z), i);
  }
}
