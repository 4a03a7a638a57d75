/** The frames on the wire, bit by bit (RFC 6455, sections 5.2, 5.3 and 5.7). */
module WebSocketWire {
  import opened Bytes
  import opened WebSocket

  /** Bit `j` of a byte, counted from the least significant. */
  predicate Bit(b: bv8, j: nat)
    requires j < 8
  {
    b & MASKS[j] != 0
  }

  const MASKS: seq<bv8> := [0x01, 0x02, 0x04, 0x08, 0x10, 0x20, 0x40, 0x80]

  lemma {:induction false} XorFlips(b: bv8, k: bv8, j: nat)
    requires j < 8
    ensures Bit(Xor(b, k), j) <==> (Bit(b, j) != Bit(k, j))
  {
    var m := MASKS[j];
    OneBit(b, k, m);
  }

  lemma {:induction false} OneBit(b: bv8, k: bv8, m: bv8)
    requires m == 0x01 || m == 0x02 || m == 0x04 || m == 0x08 || m == 0x10 || m == 0x20 || m == 0x40 || m == 0x80
    ensures (b ^ k) & m != 0 <==> ((b & m != 0) != (k & m != 0))
  {
  }

  lemma {:induction false} FirstByteIs(fin: bool, opcode: bv8)
    requires opcode < 16
    ensures FromByte(FirstByte(fin, opcode)) == (if fin then 128 else 0) + FromByte(opcode)
  {
    ByteWeights(FirstByte(fin, opcode));
    ByteWeights(opcode);
    hide FromByte;
  }

  lemma {:induction false} OrTop(code: bv8)
    requires FromByte(code) < 128
    ensures FromByte(0x80 | code) == 128 + FromByte(code) && 0x00 | code == code
  {
    ByteWeights(code);
    ByteWeights(0x80 | code);
    hide FromByte;
  }

  lemma {:induction false} SecondByteIs(masked: bool, code: nat)
    requires code < 128
    ensures FromByte(SecondByte(masked, code)) == (if masked then 128 else 0) + code
  {
    hide ToByte, FromByte;
    ByteBack(code);
    OrTop(ToByte(code));
  }

  /** The size of the extended length. */
  function Extra(n: nat): nat {
    if n < 126 then 0 else if n <= 65535 then 2 else 8
  }

  lemma {:induction false} Parts(a: seq<bv8>, b: seq<bv8>, c: seq<bv8>, d: seq<bv8>)
    ensures var w := a + b + c + d;
            w[|a|..|a| + |b|] == b && w[|a| + |b|..|a| + |b| + |c|] == c
  {
  }

  /** The first byte holds FIN and the opcode, the second MASK and the short length; the extended length follows,
      most significant byte first, then the masking key. */
  lemma {:induction false} HeaderIs(f: Frame, key: seq<bv8>)
    requires f.opcode < 16 && (key == [] || |key| == 4)
    ensures var w, n := Encode(f, key), |f.payload|;
            var e := Extra(n);
            && |w| == 2 + e + |key| + n
            && FromByte(w[0]) == (if f.fin then 128 else 0) + FromByte(f.opcode)
            && FromByte(w[1]) == (if key != [] then 128 else 0) + (if n < 126 then n else if e == 2 then 126 else 127)
            && (var extra := w[2..2 + e];
                forall i :: 0 <= i < e ==> FromByte(extra[i]) == n / Pow256(e - 1 - i) % 256)
            && w[2 + e..2 + e + |key|] == key
  {
    hide FirstByte, SecondByte, Masked, BigEndian, ToByte, FromByte, Shift, Pow256;
    var w, n := Encode(f, key), |f.payload|;
    var e := Extra(n);
    FirstByteIs(f.fin, f.opcode);
    SecondByteIs(key != [], LengthCode(n));
    assert ExtendedSize(LengthCode(n)) == e;
    var extra := w[2..2 + e];
    Parts([w[0], w[1]], BigEndian(n, e), key, Masked(f.payload, key));
    forall i | 0 <= i < e ensures FromByte(extra[i]) == n / Pow256(e - 1 - i) % 256 {
      BigEndianAt(n, e, e - 1 - i);
      ShiftDivides(n, e - 1 - i);
      ByteBack(n / Pow256(e - 1 - i) % 256);
    }
  }

  /** A payload byte of a masked frame differs from the original in the bits of the key byte at its place modulo
      four, and one of an unmasked frame not at all. */
  lemma {:induction false} PayloadIs(f: Frame, key: seq<bv8>, i: nat, j: nat)
    requires f.opcode < 16 && (key == [] || |key| == 4) && i < |f.payload| && j < 8
    ensures var w := Encode(f, key);
            && |w| == 2 + Extra(|f.payload|) + |key| + |f.payload|
            && var b := w[2 + Extra(|f.payload|) + |key| + i];
               if key == [] then b == f.payload[i]
               else (Bit(b, j) != Bit(f.payload[i], j)) <==> Bit(key[i % 4], j)
  {
    HeaderIs(f, key);
    hide Header, Bit, Xor;
    assert |Header(f, key)| == 2 + Extra(|f.payload|) + |key|;
    assert Encode(f, key)[|Header(f, key)| + i] == Masked(f.payload, key)[i];
    if key != [] {
      XorFlips(f.payload[i], key[i % 4], j);
    }
  }

  /** The frames of section 5.7 that carry "Hello". */
  lemma {:induction false} HelloIs()
    ensures var hello := Frame(true, 0x1, [0x48, 0x65, 0x6C, 0x6C, 0x6F]);
            && Encode(hello, []) == [0x81, 0x05, 0x48, 0x65, 0x6C, 0x6C, 0x6F]
            && Encode(hello, [0x37, 0xFA, 0x21, 0x3D])
               == [0x81, 0x85, 0x37, 0xFA, 0x21, 0x3D, 0x7F, 0x9F, 0x4D, 0x51, 0x58]
  {
    var hello, key := Frame(true, 0x1, [0x48, 0x65, 0x6C, 0x6C, 0x6F]), [0x37, 0xFA, 0x21, 0x3D];
    assert ToByte(5) == 5 by {
      Five();
    }
    assert BigEndian(5, 0) == [];
    assert Masked(hello.payload, key) == [0x7F, 0x9F, 0x4D, 0x51, 0x58];
  }

  lemma {:induction false} Five()
    ensures ToByte(5) == 5
  {
    assert ToByte(1) == 1 && ToByte(2) == 2;
  }

  /** An empty Close frame is two bytes, and nothing after it is looked at. */
  lemma {:induction false} CloseIs(rest: seq<bv8>)
    ensures Decode([0x88, 0x00] + rest) == Ok(Frame(true, 0x8, []), 2)
    ensures Drain([0x88, 0x00] + rest).frames == [Frame(true, 0x8, [])] && Drain([0x88, 0x00] + rest).stopped
  {
    var close := Frame(true, 0x8, []);
    assert ToByte(0) == 0;
    assert Encode(close, []) == [0x88, 0x00];
    hide Decode, Encode;
    Thirty();
    DecodeEncode(close, [], rest);
  }

  lemma {:induction false} Thirty()
    ensures Pow256(8) > 33_554_432 && MAX_PAYLOAD == 33_554_432
  {
    PowTwo();
  }

  /** Payloads of up to 32 MiB come through, and larger ones are refused. */
  lemma {:induction false} CapIs(f: Frame, key: seq<bv8>, rest: seq<bv8>)
    requires f.opcode < 16 && (key == [] || |key| == 4) && |f.payload| < Pow256(8)
    ensures Decode(Encode(f, key) + rest)
            == if |f.payload| <= 33_554_432 then Ok(f, |Encode(f, key)|) else Error
  {
    hide Encode, Decode;
    Thirty();
    DecodeEncode(f, key, rest);
  }
}
