/** Numbers as bytes, most significant first. */
module Bytes {
  function FromByte(b: bv8): nat {
    b as nat
  }

  /** `n` written in binary; a cast from `nat` is far costlier to reason about. */
  function ToByte(n: nat): bv8
    requires n < 256
  {
    if n == 0 then 0 else (ToByte(n / 2) << 1) | (if n % 2 == 0 then 0 else 1)
  }

  lemma {:induction false} AppendBit(b: bv8)
    requires FromByte(b) < 128
    ensures FromByte((b << 1) | 0) == 2 * FromByte(b)
    ensures FromByte((b << 1) | 1) == 2 * FromByte(b) + 1
  {
    assert b < 128;
  }

  lemma {:induction false} ByteBack(n: nat)
    requires n < 256
    ensures FromByte(ToByte(n)) == n
  {
    hide FromByte;
    if n > 0 {
      ByteBack(n / 2);
      AppendBit(ToByte(n / 2));
    } else {
      ZeroByte();
    }
  }

  lemma {:induction false} ZeroByte()
    ensures FromByte(0) == 0
  {
  }

  /** `n` as `k` bytes, most significant first. */
  function BigEndian(n: nat, k: nat): (bs: seq<bv8>)
    ensures |bs| == k
  {
    if k == 0 then [] else BigEndian(n / 256, k - 1) + [ToByte(n % 256)]
  }

  function BigEndianValue(bs: seq<bv8>): nat {
    if bs == [] then 0 else 256 * BigEndianValue(bs[..|bs| - 1]) + FromByte(bs[|bs| - 1])
  }

  function Pow256(k: nat): (r: nat)
    ensures r > 0
  {
    if k == 0 then 1 else 256 * Pow256(k - 1)
  }

  /** `n >> 8 * i` */
  function Shift(n: nat, i: nat): nat {
    if i == 0 then n else Shift(n / 256, i - 1)
  }

  lemma {:induction false} BigEndianTwo(n: nat)
    requires n <= 0xFFFF
    ensures BigEndian(n, 2) == [ToByte(n / 256 % 256), ToByte(n % 256)]
  {
    assert BigEndian(n / 256, 1) == [ToByte(n / 256 % 256)];
  }

  lemma {:induction false} ShiftOnce(n: nat, i: nat)
    ensures Shift(n, i) / 256 == Shift(n, i + 1)
  {
    if i > 0 {
      ShiftOnce(n / 256, i - 1);
    }
  }

  lemma {:induction false} TwoBytes(b: seq<bv8>)
    requires |b| == 2
    ensures BigEndianValue(b) == 256 * FromByte(b[0]) + FromByte(b[1])
  {
    assert b[..1][..0] == [];
    assert BigEndianValue(b[..1]) == FromByte(b[0]);
  }

  lemma {:induction false} BigEndianInverse(n: nat, k: nat)
    requires n < Pow256(k)
    ensures BigEndianValue(BigEndian(n, k)) == n
  {
    hide FromByte, ToByte;
    if k > 0 {
      ByteBack(n % 256);
      BigEndianInverse(n / 256, k - 1);
      assert BigEndian(n, k)[..k - 1] == BigEndian(n / 256, k - 1);
    }
  }

  lemma {:induction false} PowTwo()
    ensures Pow256(2) == 65536 && Pow256(8) == 18446744073709551616
  {
    assert Pow256(4) == 256 * (256 * Pow256(2));
    assert Pow256(8) == 256 * (256 * (256 * (256 * Pow256(4))));
  }

  lemma {:induction false} BigEndianAt(n: nat, k: nat, i: nat)
    requires i < k
    ensures BigEndian(n, k)[k - 1 - i] == ToByte(Shift(n, i) % 256)
  {
    hide ToByte;
    if i > 0 {
      BigEndianAt(n / 256, k - 1, i - 1);
    }
  }

  lemma {:induction false} ShiftDivides(n: nat, i: nat)
    ensures Shift(n, i) == n / Pow256(i)
  {
    if i > 0 {
      ShiftDivides(n / 256, i - 1);
      DivideTwice(n, 256, Pow256(i - 1));
    }
  }

  lemma {:induction false} DivideTwice(n: nat, a: nat, b: nat)
    requires a > 0 && b > 0
    ensures n / a / b == n / (a * b)
  {
    var m, s := n / a, n % a;
    var q, r := m / b, m % b;
    Larger(a, r, b - 1);
    Expand(a, b, q, r);
    Quotient(n, a * b, q, a * r + s);
  }

  lemma {:induction false} Expand(a: nat, b: nat, q: nat, r: nat)
    ensures a * (b * q + r) == a * b * q + a * r
  {
  }

  lemma {:induction false} Quotient(n: nat, d: nat, q: nat, r: nat)
    requires n == d * q + r && r < d
    ensures n / d == q
  {
    var p := n / d;
    assert n == d * p + n % d;
    if p < q {
      Larger(d, p + 1, q);
    } else if p > q {
      Larger(d, q + 1, p);
    }
  }

  lemma {:induction false} Larger(d: nat, a: nat, b: nat)
    requires a <= b
    ensures d * a <= d * b
  {
  }

  /** The bits of a byte have the weights 128, 64, down to 1. */
  lemma {:induction false} ByteWeights(b: bv8)
    ensures FromByte(b)
            == (if b & 0x80 != 0 then 128 else 0) + (if b & 0x40 != 0 then 64 else 0)
               + (if b & 0x20 != 0 then 32 else 0) + (if b & 0x10 != 0 then 16 else 0)
               + (if b & 0x08 != 0 then 8 else 0) + (if b & 0x04 != 0 then 4 else 0)
               + (if b & 0x02 != 0 then 2 else 0) + (if b & 0x01 != 0 then 1 else 0)
  {
  }
}
