/** The RFC 6455 frame codec of launcher/src/devtools.cpp and the receive loop around it. */
module WebSocket {
  import opened Bytes

  // `Encode` follows section 5.2 field by field. `Decode` describes what the decoder answers on a
  // buffer, `Drain` what the receive loop hands on.

  const MAX_PAYLOAD := 32 * 1024 * 1024

  const CLOSE: bv8 := 0x8

  datatype Frame = Frame(fin: bool, opcode: bv8, payload: seq<bv8>)

  datatype Decoded = NeedMore | Error | Ok(frame: Frame, consumed: nat)

  // ---- section 5.2 ----

  /** The seven-bit length and the size of the extended length it announces. */
  function LengthCode(n: nat): (code: nat)
    ensures code < 128
  {
    if n < 126 then n else if n <= 0xFFFF then 126 else 127
  }

  function ExtendedSize(code: nat): nat {
    if code == 126 then 2 else if code == 127 then 8 else 0
  }

  function FirstByte(fin: bool, opcode: bv8): bv8 {
    (if fin then 0x80 else 0x00) | (opcode & 0x0F)
  }

  function SecondByte(masked: bool, code: nat): bv8
    requires code < 128
  {
    (if masked then 0x80 else 0x00) | ToByte(code)
  }

  predicate TopBit(b: bv8) {
    b & 0x80 != 0
  }

  function Opcode(b: bv8): bv8 {
    b & 0x0F
  }

  function LengthBits(b: bv8): nat {
    FromByte(b & 0x7F)
  }

  function Xor(b: bv8, k: bv8): bv8 {
    b ^ k
  }

  /** Section 5.3: byte `i` is xored with key byte `i mod 4`. An unmasked frame has no key. */
  function Masked(payload: seq<bv8>, key: seq<bv8>): (out: seq<bv8>)
    requires key == [] || |key| == 4
    ensures |out| == |payload|
  {
    if key == [] then payload
    else seq(|payload|, i requires 0 <= i < |payload| => Xor(payload[i], key[i % 4]))
  }

  function Header(f: Frame, key: seq<bv8>): seq<bv8> {
    var n := |f.payload|;
    var code := LengthCode(n);
    [FirstByte(f.fin, f.opcode), SecondByte(key != [], code)]
    + BigEndian(n, ExtendedSize(code)) + key
  }

  function Encode(f: Frame, key: seq<bv8>): seq<bv8>
    requires key == [] || |key| == 4
  {
    Header(f, key) + Masked(f.payload, key)
  }

  // ---- the decoder ----

  /** The fields before the masking key, which starts at `at`. */
  datatype Head = NoHead | Head(fin: bool, opcode: bv8, masked: bool, len: nat, at: nat)

  function ReadHead(buf: seq<bv8>): (h: Head)
    ensures h.Head? ==> 2 <= h.at <= |buf|
  {
    if |buf| < 2 then NoHead
    else
      var code := LengthBits(buf[1]);
      var at := 2 + ExtendedSize(code);
      if |buf| < at then NoHead
      else
        var len := if at == 2 then code else BigEndianValue(buf[2..at]);
        Head(TopBit(buf[0]), Opcode(buf[0]), TopBit(buf[1]), len, at)
  }

  function Decode(buf: seq<bv8>): (r: Decoded)
    ensures r.Ok? ==> 2 <= r.consumed <= |buf|
  {
    match ReadHead(buf)
    case NoHead => NeedMore
    case Head(fin, opcode, masked, len, at) =>
      var body := if masked then at + 4 else at;
      if len > MAX_PAYLOAD then Error
      else if |buf| < body + len then NeedMore
      else Ok(Frame(fin, opcode, Masked(buf[body..body + len], buf[at..body])), body + len)
  }

  method EncodeFrame(opcode: bv8, payload: seq<bv8>, masked: bool, mask: seq<bv8>, fin: bool)
    returns (out: seq<bv8>)
    requires |mask| == 4
    ensures out == Encode(Frame(fin, opcode, payload), if masked then mask else [])
  {
    hide FirstByte, SecondByte, LengthCode, ExtendedSize, BigEndian, Xor;
    ghost var f, key := Frame(fin, opcode, payload), if masked then mask else [];
    out := EncodeHeader(opcode, |payload|, masked, fin);
    if masked {
      out := out + mask;
    }
    assert out == Header(f, key);
    out := ApplyMask(out, payload, if masked then mask else []);
  }

  /** The byte loop both directions end with. */
  method ApplyMask(start: seq<bv8>, payload: seq<bv8>, key: seq<bv8>) returns (out: seq<bv8>)
    requires key == [] || |key| == 4
    ensures out == start + Masked(payload, key)
  {
    hide Xor;
    out := start;
    for i := 0 to |payload|
      invariant out == start + Masked(payload, key)[..i]
    {
      out := out + [if key == [] then payload[i] else Xor(payload[i], key[i % 4])];
    }
  }

  /** The bytes of `encode_frame` before the masking key. */
  method EncodeHeader(opcode: bv8, len: nat, masked: bool, fin: bool) returns (out: seq<bv8>)
    ensures out == [FirstByte(fin, opcode), SecondByte(masked, LengthCode(len))]
                   + BigEndian(len, ExtendedSize(LengthCode(len)))
  {
    out := [FirstByte(fin, opcode)];
    hide FromByte, ToByte, SecondByte, FirstByte;
    if len < 126 {
      out := out + [SecondByte(masked, len)];
    } else if len <= 0xFFFF {
      out := out + [SecondByte(masked, 126)];
      BigEndianTwo(len);
      out := out + [ToByte(len / 256 % 256)] + [ToByte(len % 256)];
    } else {
      out := out + [SecondByte(masked, 127)];
      ghost var head := out;
      var i := 8;
      while i > 0
        invariant 0 <= i <= 8
        invariant out == head + BigEndian(Shift(len, i), 8 - i)
      {
        i := i - 1;
        ShiftOnce(len, i);
        out := out + [ToByte(Shift(len, i) % 256)];
      }
    }
  }

  method DecodeHead(buf: seq<bv8>) returns (ok: bool, len: nat, pos: nat)
    requires |buf| >= 2
    ensures ok == ReadHead(buf).Head?
    ensures ok ==> len == ReadHead(buf).len && pos == ReadHead(buf).at
  {
    ok, len, pos := true, LengthBits(buf[1]), 2;
    if len == 126 {
      if |buf| < pos + 2 {
        return false, len, pos;
      }
      len := 256 * FromByte(buf[pos]) + FromByte(buf[pos + 1]);
      TwoBytes(buf[pos..pos + 2]);
      pos := pos + 2;
    } else if len == 127 {
      if |buf| < pos + 8 {
        return false, len, pos;
      }
      len := 0;
      for i := 0 to 8
        invariant len == BigEndianValue(buf[pos..pos + i])
      {
        assert buf[pos..pos + i + 1][..i] == buf[pos..pos + i];
        len := 256 * len + FromByte(buf[pos + i]);
      }
      pos := pos + 8;
    }
  }

  lemma {:induction false} HeadFields(buf: seq<bv8>)
    ensures |buf| < 2 ==> ReadHead(buf).NoHead?
    ensures var h := ReadHead(buf);
            h.Head? ==> h.fin == TopBit(buf[0]) && h.opcode == Opcode(buf[0]) && h.masked == TopBit(buf[1])
  {
    hide BigEndianValue, ExtendedSize, TopBit, Opcode, LengthBits;
  }

  method DecodeFrame(buf: seq<bv8>) returns (r: Decoded)
    ensures r == Decode(buf)
  {
    hide ReadHead, TopBit, Opcode, Masked;
    HeadFields(buf);
    if |buf| < 2 {
      return NeedMore;
    }
    var fin := TopBit(buf[0]);
    var opcode := Opcode(buf[0]);
    var masked := TopBit(buf[1]);
    var ok, len, pos := DecodeHead(buf);
    if !ok {
      return NeedMore;
    }
    if len > MAX_PAYLOAD {
      return Error;
    }
    var at := pos;
    if masked {
      if |buf| < pos + 4 {
        return NeedMore;
      }
      pos := pos + 4;
    }
    if |buf| < pos + len {
      return NeedMore;
    }
    var payload := ApplyMask([], buf[pos..pos + len], buf[at..pos]);
    assert [] + Masked(buf[pos..pos + len], buf[at..pos]) == payload;
    r := Ok(Frame(fin, opcode, payload), pos + len);
  }

  // ---- round trip ----

  lemma {:induction false} SevenBits(code: bv8)
    requires FromByte(code) < 128
    ensures (0x00 | code) & 0x7F == code && (0x80 | code) & 0x7F == code
    ensures (0x00 | code) & 0x80 == 0 && (0x80 | code) & 0x80 != 0
  {
    assert code < 128;
  }

  lemma {:induction false} HeaderBytes(fin: bool, opcode: bv8, masked: bool, code: nat)
    requires opcode < 16 && code < 128
    ensures TopBit(FirstByte(fin, opcode)) == fin && Opcode(FirstByte(fin, opcode)) == opcode
    ensures TopBit(SecondByte(masked, code)) == masked && LengthBits(SecondByte(masked, code)) == code
  {
    hide ToByte, FromByte;
    ByteBack(code);
    SevenBits(ToByte(code));
  }

  lemma {:induction false} UnmaskMask(p: seq<bv8>, key: seq<bv8>)
    requires key == [] || |key| == 4
    ensures Masked(Masked(p, key), key) == p
  {
    if key != [] {
      hide Xor;
      forall i | 0 <= i < |p| ensures Masked(Masked(p, key), key)[i] == p[i] {
        XorTwice(p[i], key[i % 4]);
      }
    }
  }

  lemma {:induction false} XorTwice(x: bv8, k: bv8)
    ensures Xor(Xor(x, k), k) == x
  {
  }

  lemma {:induction false} EncodedHead(f: Frame, key: seq<bv8>, x: seq<bv8>)
    requires f.opcode < 16 && (key == [] || |key| == 4) && |f.payload| < Pow256(8)
    ensures ReadHead(Header(f, key) + x)
            == Head(f.fin, f.opcode, key != [], |f.payload|, |Header(f, key)| - |key|)
  {
    hide BigEndianValue, BigEndian, FirstByte, SecondByte, TopBit, Opcode,
      LengthBits;
    var n := |f.payload|;
    var code := LengthCode(n);
    var at := 2 + ExtendedSize(code);
    var buf := Header(f, key) + x;
    HeaderBytes(f.fin, f.opcode, key != [], code);
    assert buf[0] == FirstByte(f.fin, f.opcode) && buf[1] == SecondByte(key != [], code);
    if at > 2 {
      assert buf[2..at] == BigEndian(n, ExtendedSize(code));
      PowTwo();
      BigEndianInverse(n, ExtendedSize(code));
    }
  }

  /** Decoding an encoded frame, whatever follows it, gives the frame and its exact size; only a
      payload over the cap is refused. */
  lemma {:induction false} DecodeEncode(f: Frame, key: seq<bv8>, rest: seq<bv8>)
    requires f.opcode < 16 && (key == [] || |key| == 4) && |f.payload| < Pow256(8)
    ensures Decode(Encode(f, key) + rest)
            == if |f.payload| <= MAX_PAYLOAD then Ok(f, |Encode(f, key)|) else Error
  {
    hide ReadHead, Masked;
    var body := Masked(f.payload, key);
    var buf := Encode(f, key) + rest;
    assert buf == Header(f, key) + (body + rest);
    EncodedHead(f, key, body + rest);
    var h := |Header(f, key)|;
    assert buf[h - |key|..h] == key;
    assert buf[h..h + |f.payload|] == body;
    UnmaskMask(f.payload, key);
  }

  lemma {:induction false} HeadStable(a: seq<bv8>, b: seq<bv8>)
    requires ReadHead(a).Head?
    ensures ReadHead(a + b) == ReadHead(a)
  {
    hide BigEndianValue, ExtendedSize, TopBit, Opcode, LengthBits;
    var at := 2 + ExtendedSize(LengthBits(a[1]));
    assert (a + b)[2..at] == a[2..at];
  }

  /** Once the decoder has an answer, more bytes do not change it. */
  lemma {:induction false} DecodeStable(a: seq<bv8>, b: seq<bv8>)
    requires !Decode(a).NeedMore?
    ensures Decode(a + b) == Decode(a)
  {
    hide ReadHead, Masked;
    HeadStable(a, b);
    if Decode(a).Ok? {
      var h := ReadHead(a);
      var body := if h.masked then h.at + 4 else h.at;
      assert (a + b)[h.at..body] == a[h.at..body];
      assert (a + b)[body..body + h.len] == a[body..body + h.len];
    }
  }

  /** A frame cut short anywhere asks for more bytes. */
  lemma {:induction false} PrefixNeedsMore(f: Frame, key: seq<bv8>, n: nat)
    requires f.opcode < 16 && (key == [] || |key| == 4) && |f.payload| <= MAX_PAYLOAD
    requires n < |Encode(f, key)|
    ensures Decode(Encode(f, key)[..n]) == NeedMore
  {
    hide Decode, Encode;
    var e := Encode(f, key);
    PowTwo();
    DecodeEncode(f, key, []);
    assert e + [] == e && e[..n] + e[n..] == e;
    if !Decode(e[..n]).NeedMore? {
      DecodeStable(e[..n], e[n..]);
    }
  }

  // ---- the receive loop ----

  /** What the loop has handed on, the bytes it keeps, and whether it has stopped. */
  datatype Drained = Drained(frames: seq<Frame>, rest: seq<bv8>, stopped: bool)

  /** All frames at the front of `rx`, up to the first Close or undecodable frame. */
  function Drain(rx: seq<bv8>): Drained
    decreases |rx|
  {
    match Decode(rx)
    case NeedMore => Drained([], rx, false)
    case Error => Drained([], rx, true)
    case Ok(f, n) =>
      if f.opcode == CLOSE then Drained([f], rx[n..], true)
      else
        var d := Drain(rx[n..]);
        Drained([f] + d.frames, d.rest, d.stopped)
  }

  /** Whether `Drain` goes on after more bytes arrive, and with what. */
  function Resume(d: Drained, more: seq<bv8>): Drained {
    if d.stopped then d
    else
      var e := Drain(d.rest + more);
      Drained(d.frames + e.frames, e.rest, e.stopped)
  }

  predicate SameOutcome(a: Drained, b: Drained) {
    a.frames == b.frames && a.stopped == b.stopped && (!a.stopped ==> a.rest == b.rest)
  }

  lemma {:induction false} DrainResume(a: seq<bv8>, b: seq<bv8>)
    ensures SameOutcome(Drain(a + b), Resume(Drain(a), b))
    decreases |a|
  {
    hide Decode;
    if !Decode(a).NeedMore? {
      DecodeStable(a, b);
      match Decode(a)
      case Error =>
      case Ok(f, n) =>
        assert (a + b)[n..] == a[n..] + b;
        if f.opcode != CLOSE {
          DrainResume(a[n..], b);
        }
    }
  }

  function Concat(chunks: seq<seq<bv8>>): seq<bv8> {
    if chunks == [] then [] else Concat(chunks[..|chunks| - 1]) + chunks[|chunks| - 1]
  }

  /** The inner loop of `read_loop`: hand on every frame the buffer holds. */
  method HandOn(start: seq<bv8>) returns (handed: seq<Frame>, rx: seq<bv8>, stopped: bool)
    ensures SameOutcome(Drain(start), Drained(handed, rx, stopped))
  {
    hide Decode;
    handed, rx, stopped := [], start, false;
    while true
      invariant !stopped && handed + Drain(rx).frames == Drain(start).frames
      invariant Drain(rx).stopped == Drain(start).stopped
      invariant !Drain(start).stopped ==> Drain(rx).rest == Drain(start).rest
      decreases |rx|
    {
      var dr := DecodeFrame(rx);
      match dr {
        case NeedMore => return;
        case Error =>
          stopped := true;
          return;
        case Ok(f, n) =>
          assert handed + ([f] + Drain(rx[n..]).frames) == (handed + [f]) + Drain(rx[n..]).frames;
          rx := rx[n..];
          handed := handed + [f];
          if f.opcode == CLOSE {
            stopped := true;
            return;
          }
      }
    }
  }

  /** `read_loop`: `chunks` are the results of the successive `recv` calls, `handed` the frames given
      to `on_frame`. However the stream is cut, they are the frames of the whole stream. */
  method ReadLoop(chunks: seq<seq<bv8>>) returns (handed: seq<Frame>, stopped: bool)
    ensures handed == Drain(Concat(chunks)).frames && stopped == Drain(Concat(chunks)).stopped
  {
    hide Drain;
    var rx: seq<bv8> := [];
    handed, stopped := [], false;
    NothingDrained();
    for k := 0 to |chunks|
      invariant !stopped && SameOutcome(Drain(Concat(chunks[..k])), Drained(handed, rx, false))
    {
      assert chunks[..k + 1][..k] == chunks[..k];
      DrainResume(Concat(chunks[..k]), chunks[k]);
      var more;
      more, rx, stopped := HandOn(rx + chunks[k]);
      handed := handed + more;
      if stopped {
        StoppedEarly(chunks, k + 1);
        return;
      }
    }
    assert chunks[..|chunks|] == chunks;
  }

  lemma {:induction false} NothingDrained()
    ensures Drain([]) == Drained([], [], false)
  {
  }

  lemma {:induction false} StoppedEarly(chunks: seq<seq<bv8>>, k: nat)
    requires k <= |chunks| && Drain(Concat(chunks[..k])).stopped
    ensures Drain(Concat(chunks)).frames == Drain(Concat(chunks[..k])).frames
    ensures Drain(Concat(chunks)).stopped
    decreases |chunks|
  {
    if k == |chunks| {
      assert chunks[..k] == chunks;
    } else {
      var front := chunks[..|chunks| - 1];
      assert front[..k] == chunks[..k];
      StoppedEarly(front, k);
      DrainResume(Concat(front), chunks[|chunks| - 1]);
    }
  }

  // ---- end to end ----

  function EncodeAll(fs: seq<Frame>): seq<bv8> {
    if fs == [] then [] else Encode(fs[0], []) + EncodeAll(fs[1..])
  }

  /** The frames up to and including the first Close. */
  function UpToClose(fs: seq<Frame>): seq<Frame> {
    if fs == [] then [] else if fs[0].opcode == CLOSE then [fs[0]] else [fs[0]] + UpToClose(fs[1..])
  }

  predicate Sendable(fs: seq<Frame>) {
    forall i :: 0 <= i < |fs| ==> fs[i].opcode < 16 && |fs[i].payload| <= MAX_PAYLOAD
  }

  /** What a peer sends arrives, in order, up to its first Close; a cut-off last frame is not seen. */
  lemma {:induction false} SentFramesArrive(fs: seq<Frame>, last: Frame, cut: nat)
    requires Sendable(fs + [last]) && cut < |Encode(last, [])|
    ensures Drain(EncodeAll(fs) + Encode(last, [])[..cut]).frames == UpToClose(fs)
    decreases |fs|
  {
    hide Decode, Encode;
    var tail := Encode(last, [])[..cut];
    assert (fs + [last])[|fs|] == last;
    if fs == [] {
      PrefixNeedsMore(last, [], cut);
      assert EncodeAll(fs) + tail == tail;
    } else {
      assert fs[0] == (fs + [last])[0];
      var rest := EncodeAll(fs[1..]) + tail;
      assert EncodeAll(fs) + tail == Encode(fs[0], []) + rest;
      PowTwo();
      DecodeEncode(fs[0], [], rest);
      assert (Encode(fs[0], []) + rest)[|Encode(fs[0], [])|..] == rest;
      assert fs[1..] + [last] == (fs + [last])[1..];
      SentFramesArrive(fs[1..], last, cut);
    }
  }
}
