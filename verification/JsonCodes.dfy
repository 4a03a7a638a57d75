/** The meaning of JSON text in code points and bytes, against RFC 3629, UTF-16 and the tables of RFC 8259. */
module JsonCodes {
  import opened Options
  import opened Doubles
  import opened JsonSyntax
  import opened JsonParser
  import opened JsonGrammar

  // ---- UTF-8 (RFC 3629, section 3) ----

  datatype Decoded = Code(cp: nat, rest: string) | Malformed

  /** 10xxxxxx */
  predicate IsTail(c: char) {
    c as int / 64 == 2
  }

  predicate HasTails(s: string, n: nat) {
    n < |s| && forall i :: 1 <= i <= n ==> IsTail(s[i])
  }

  /** The low six bits. */
  function Six(c: char): nat {
    c as int % 64
  }

  /** The first code point of `s`, in its shortest form. */
  function DecodeUtf8(s: string): Decoded {
    if s == "" then Malformed
    else
      var b := s[0] as int;
      if b / 128 == 0 then Code(b, s[1..])
      else if b / 32 == 6 && HasTails(s, 1) then Least(0x80, b % 32 * 64 + Six(s[1]), s[2..])
      else if b / 16 == 14 && HasTails(s, 2) then
        Least(0x800, (b % 16 * 64 + Six(s[1])) * 64 + Six(s[2]), s[3..])
      else if b / 8 == 30 && HasTails(s, 3) then
        Least(0x10000, ((b % 8 * 64 + Six(s[1])) * 64 + Six(s[2])) * 64 + Six(s[3]), s[4..])
      else Malformed
  }

  function Least(least: nat, cp: nat, rest: string): Decoded {
    if least <= cp < 0x110000 then Code(cp, rest) else Malformed
  }

  /** The bytes of a code point decode to it, whatever follows, */
  lemma {:induction false} Utf8Decodes(cp: nat, rest: string)
    requires cp < 0x110000
    ensures DecodeUtf8(Utf8(cp) + rest) == Code(cp, rest)
  {
    hide DecodeUtf8;
    var u := Utf8(cp);
    var s := u + rest;
    assert s[|u|..] == rest && forall i :: 0 <= i < |u| ==> s[i] == u[i];
    if cp < 0x80 {
      OneByte(s);
    } else if cp < 0x800 {
      TwoBytes(s, cp);
    } else if cp < 0x10000 {
      ThreeBytes(s, cp);
    } else {
      FourBytes(s, cp);
    }
  }

  lemma {:induction false} OneByte(s: string)
    requires s != "" && s[0] as int < 0x80
    ensures DecodeUtf8(s) == Code(s[0] as int, s[1..])
  {
  }

  lemma {:induction false} TwoBytes(s: string, cp: nat)
    requires 0x80 <= cp < 0x800 && |s| >= 2
    requires s[0] as int == 0xC0 + cp / 64 && s[1] as int == 0x80 + cp % 64
    ensures DecodeUtf8(s) == Code(cp, s[2..])
  {
    hide DecodeUtf8;
    TwoBack(cp);
    DecodesTwo(s);
  }

  lemma {:induction false} ThreeBytes(s: string, cp: nat)
    requires 0x800 <= cp < 0x10000 && |s| >= 3
    requires s[0] as int == 0xE0 + cp / 4096 && s[1] as int == 0x80 + cp / 64 % 64 && s[2] as int == 0x80 + cp % 64
    ensures DecodeUtf8(s) == Code(cp, s[3..])
  {
    hide DecodeUtf8;
    ThreeBack(cp);
    DecodesThree(s);
  }

  lemma {:induction false} FourBytes(s: string, cp: nat)
    requires 0x10000 <= cp < 0x110000 && |s| >= 4
    requires s[0] as int == 0xF0 + cp / 262144 && s[1] as int == 0x80 + cp / 4096 % 64
    requires s[2] as int == 0x80 + cp / 64 % 64 && s[3] as int == 0x80 + cp % 64
    ensures DecodeUtf8(s) == Code(cp, s[4..])
  {
    hide DecodeUtf8;
    FourBack(cp);
    DecodesFour(s);
  }

  lemma {:induction false} DecodesTwo(s: string)
    requires |s| >= 2 && s[0] as int / 32 == 6
    ensures DecodeUtf8(s) == if IsTail(s[1]) then Least(0x80, s[0] as int % 32 * 64 + Six(s[1]), s[2..]) else Malformed
  {
  }

  lemma {:induction false} DecodesThree(s: string)
    requires |s| >= 3 && s[0] as int / 16 == 14
    ensures DecodeUtf8(s) == if IsTail(s[1]) && IsTail(s[2])
                             then Least(0x800, (s[0] as int % 16 * 64 + Six(s[1])) * 64 + Six(s[2]), s[3..])
                             else Malformed
  {
  }

  lemma {:induction false} DecodesFour(s: string)
    requires |s| >= 4 && s[0] as int / 8 == 30
    ensures var cp := ((s[0] as int % 8 * 64 + Six(s[1])) * 64 + Six(s[2])) * 64 + Six(s[3]);
            DecodeUtf8(s) == if IsTail(s[1]) && IsTail(s[2]) && IsTail(s[3]) then Least(0x10000, cp, s[4..])
                             else Malformed
  {
  }

  lemma {:induction false} TwoBack(cp: nat)
    requires 0x80 <= cp < 0x800
    ensures var a, b := 0xC0 + cp / 64, 0x80 + cp % 64;
            a / 32 == 6 && b / 64 == 2 && a % 32 * 64 + b % 64 == cp
  {
  }

  lemma {:induction false} ThreeBack(cp: nat)
    requires 0x800 <= cp < 0x10000
    ensures var a, b, c := 0xE0 + cp / 4096, 0x80 + cp / 64 % 64, 0x80 + cp % 64;
            a / 16 == 14 && b / 64 == 2 && c / 64 == 2 && (a % 16 * 64 + b % 64) * 64 + c % 64 == cp
  {
  }

  lemma {:induction false} FourBack(cp: nat)
    requires 0x10000 <= cp < 0x110000
    ensures var a, b := 0xF0 + cp / 262144, 0x80 + cp / 4096 % 64;
            var c, d := 0x80 + cp / 64 % 64, 0x80 + cp % 64;
            && a / 8 == 30 && b / 64 == 2 && c / 64 == 2 && d / 64 == 2
            && ((a % 8 * 64 + b % 64) * 64 + c % 64) * 64 + d % 64 == cp
  {
  }

  /** and nothing else does. */
  lemma {:induction false} Utf8Only(s: string)
    requires DecodeUtf8(s).Code?
    ensures DecodeUtf8(s).cp < 0x110000 && s == Utf8(DecodeUtf8(s).cp) + DecodeUtf8(s).rest
  {
    Lengths(s);
    hide DecodeUtf8, Utf8;
    var b := s[0] as int;
    if b < 0x80 {
      OneByte(s);
      Utf8One(s);
    } else if b / 32 == 6 {
      DecodesTwo(s);
      Utf8Two(s);
    } else if b / 16 == 14 {
      DecodesThree(s);
      Utf8Three(s);
    } else {
      DecodesFour(s);
      Utf8Four(s);
    }
  }

  lemma {:induction false} Lengths(s: string)
    requires DecodeUtf8(s).Code?
    ensures s != ""
    ensures var b := s[0] as int;
            b < 0x80 || (b / 32 == 6 && |s| >= 2) || (b / 16 == 14 && |s| >= 3) || (b / 8 == 30 && |s| >= 4)
  {
  }

  lemma {:induction false} Utf8One(s: string)
    requires s != "" && s[0] as int < 0x80
    ensures s == Utf8(s[0] as int) + s[1..]
  {
  }

  lemma {:induction false} Utf8Two(s: string)
    requires |s| >= 2 && s[0] as int / 32 == 6 && IsTail(s[1])
    ensures var cp := s[0] as int % 32 * 64 + Six(s[1]); 0x80 <= cp < 0x110000 ==> s == Utf8(cp) + s[2..]
  {
    assert s == [s[0], s[1]] + s[2..];
  }

  lemma {:induction false} Utf8Three(s: string)
    requires |s| >= 3 && s[0] as int / 16 == 14 && IsTail(s[1]) && IsTail(s[2])
    ensures var cp := (s[0] as int % 16 * 64 + Six(s[1])) * 64 + Six(s[2]);
            0x800 <= cp < 0x110000 ==> s == Utf8(cp) + s[3..]
  {
    assert s == [s[0], s[1], s[2]] + s[3..];
    ThreeFrom(s[0] as int, s[1] as int, s[2] as int);
  }

  lemma {:induction false} Utf8Four(s: string)
    requires |s| >= 4 && s[0] as int / 8 == 30 && IsTail(s[1]) && IsTail(s[2]) && IsTail(s[3])
    ensures var cp := ((s[0] as int % 8 * 64 + Six(s[1])) * 64 + Six(s[2])) * 64 + Six(s[3]);
            0x10000 <= cp < 0x110000 ==> s == Utf8(cp) + s[4..]
  {
    assert s == [s[0], s[1], s[2], s[3]] + s[4..];
    FourFrom(s[0] as int, s[1] as int, s[2] as int, s[3] as int);
  }

  lemma {:induction false} ThreeFrom(a: nat, b: nat, c: nat)
    requires a / 16 == 14 && b / 64 == 2 && c / 64 == 2
    ensures var cp := (a % 16 * 64 + b % 64) * 64 + c % 64;
            a == 0xE0 + cp / 4096 && b == 0x80 + cp / 64 % 64 && c == 0x80 + cp % 64
  {
    var x := a % 16 * 64 + b % 64;
    assert (x * 64 + c % 64) / 64 == x && (x * 64 + c % 64) / 4096 == x / 64;
  }

  lemma {:induction false} FourFrom(a: nat, b: nat, c: nat, d: nat)
    requires a / 8 == 30 && b / 64 == 2 && c / 64 == 2 && d / 64 == 2
    ensures var cp := ((a % 8 * 64 + b % 64) * 64 + c % 64) * 64 + d % 64;
            && a == 0xF0 + cp / 262144 && b == 0x80 + cp / 4096 % 64
            && c == 0x80 + cp / 64 % 64 && d == 0x80 + cp % 64
  {
    var x := a % 8 * 64 + b % 64;
    var y := x * 64 + c % 64;
    assert (y * 64 + d % 64) / 64 == y && (y * 64 + d % 64) / 4096 == y / 64 && y / 64 == x;
  }

  // ---- UTF-16 ----

  function HighHalf(cp: nat): nat
    requires 0x10000 <= cp < 0x110000
  {
    0xD800 + (cp - 0x10000) / 0x400
  }

  function LowHalf(cp: nat): nat
    requires 0x10000 <= cp < 0x110000
  {
    0xDC00 + (cp - 0x10000) % 0x400
  }

  /** Two escapes are joined to the code point whose halves they are. */
  lemma {:induction false} JoinExactly(hi: CharTok, lo: CharTok, cp: nat)
    requires TokWf(hi) && TokWf(lo) && IsHigh(hi) && IsLow(lo) && 0x10000 <= cp < 0x110000
    ensures JoinSurrogates(hi, lo) == cp <==> Hex4Value(hi.h) == HighHalf(cp) && Hex4Value(lo.h) == LowHalf(cp)
  {
  }

  /** Escapes are surrogates exactly when they are halves of some code point, and no other escape is joined. */
  lemma {:induction false} HalvesAre(t: CharTok)
    requires TokWf(t)
    ensures IsHigh(t) <==> t.U? && 0xD800 <= Hex4Value(t.h) < 0xDC00
    ensures IsLow(t) <==> t.U? && 0xDC00 <= Hex4Value(t.h) < 0xE000
    ensures IsHigh(t) ==> HighHalf(0x10000 + (Hex4Value(t.h) - 0xD800) * 0x400) == Hex4Value(t.h)
    ensures IsLow(t) ==> LowHalf(0x10000 + (Hex4Value(t.h) - 0xDC00)) == Hex4Value(t.h)
  {
  }

  // ---- escapes (RFC 8259, section 7) ----

  /** The digits of a hexadecimal number, in either case. */
  lemma {:induction false} HexDigitIs(i: nat)
    requires i < 16
    ensures var lower, upper := "0123456789abcdef", "0123456789ABCDEF";
            && IsHex(lower[i]) && IsHex(upper[i])
            && HexDigit(lower[i]) == i && HexDigit(upper[i]) == i
  {
  }

  lemma {:induction false} HexIs(c: char)
    ensures IsHex(c) <==> c in "0123456789abcdefABCDEF"
  {
    var all := "0123456789abcdefABCDEF";
    if IsDigit(c) {
      assert all[c as int - '0' as int] == c;
    } else if 'a' <= c <= 'f' {
      assert all[10 + (c as int - 'a' as int)] == c;
    } else if 'A' <= c <= 'F' {
      assert all[16 + (c as int - 'A' as int)] == c;
    }
  }

  lemma {:induction false} Hex4Is(h: string)
    requires IsHex4(h)
    ensures Hex4Value(h) == ((HexDigit(h[0]) * 16 + HexDigit(h[1])) * 16 + HexDigit(h[2])) * 16 + HexDigit(h[3])
  {
  }

  /** `names[i]` after a backslash stands for `codes[i]`, and nothing else may stand there but `u`. */
  lemma {:induction false} EscapesAre(i: nat)
    requires i < 8
    ensures var names, codes := "\"\\/bfnrt", [0x22, 0x5C, 0x2F, 0x08, 0x0C, 0x0A, 0x0D, 0x09];
            IsEscape(names[i]) && EscapeMeaning(names[i]) as int == codes[i]
    ensures forall e :: IsEscape(e) <==> e in "\"\\/bfnrt"
  {
  }

  /** White space is space, tab, line feed and carriage return (section 2). */
  lemma {:induction false} SpacesAre(c: char)
    ensures IsWs(c) <==> c as int in {0x20, 0x09, 0x0A, 0x0D}
  {
  }

  /** A `\u` escape on its own denotes the bytes that decode to its number, a pair those of the joined code point. */
  lemma {:induction false} EscapesDecode(hi: CharTok, lo: CharTok)
    requires hi.U? && lo.U? && TokWf(hi) && TokWf(lo)
    ensures DecodeUtf8(StringMeaning([hi])) == Code(Hex4Value(hi.h), "")
    ensures IsHigh(hi) && IsLow(lo) ==> DecodeUtf8(StringMeaning([hi, lo])) == Code(JoinSurrogates(hi, lo), "")
  {
    hide Utf8, DecodeUtf8, JoinSurrogates;
    Utf8Decodes(Hex4Value(hi.h), "");
    assert [hi][1..] == [] && Utf8(Hex4Value(hi.h)) + "" == Utf8(Hex4Value(hi.h));
    assert StringMeaning([hi]) == Utf8(Hex4Value(hi.h)) + "";
    if IsHigh(hi) && IsLow(lo) {
      Utf8Decodes(JoinSurrogates(hi, lo), "");
      assert [hi, lo][2..] == [];
      assert StringMeaning([hi, lo]) == Utf8(JoinSurrogates(hi, lo)) + "";
    }
  }

  // ---- numbers (section 6) ----

  lemma {:induction false} DigitsAppend(a: string, b: string)
    requires Digits(a) && Digits(b)
    ensures Digits(a + b) && DigitsValue(a + b) == DigitsValue(a) * Pow(10, |b|) + DigitsValue(b)
    decreases |b|
  {
    if b == "" {
      assert a + b == a;
    } else {
      var front, last := b[..|b| - 1], b[|b| - 1];
      DigitsAppend(a, front);
      assert (a + b)[..|a + b| - 1] == a + front;
      assert (a + b)[|a + b| - 1] == last;
      Tenfold(DigitsValue(a), Pow(10, |front|));
    }
  }

  lemma {:induction false} Tenfold(a: nat, p: nat)
    ensures 10 * (a * p) == a * (10 * p)
  {
  }

  function Signed(neg: bool, x: real): real {
    if neg then -x else x
  }

  /** Without an exponent: the digits read as one integer, over ten to the number of decimals. */
  lemma {:induction false} FixedIs(n: NumTok)
    requires NumWf(n) && n.exp.NoExp?
    ensures NumValue(n) * Pow(10, |n.frac|) as real == Signed(n.neg, DigitsValue(n.whole + n.frac) as real)
  {
    hide Pow, DigitsValue;
    var p := Pow(10, |n.frac|);
    DigitsAppend(n.whole, n.frac);
    Mixed(DigitsValue(n.whole), DigitsValue(n.frac), p);
    Negated(DigitsValue(n.whole) as real + DigitsValue(n.frac) as real / p as real, p as real);
  }

  lemma {:induction false} Mixed(w: nat, f: nat, p: nat)
    requires p > 0
    ensures (w as real + f as real / p as real) * p as real == (w * p + f) as real
  {
    var q, x := p as real, f as real / p as real;
    Cancel(f as real, q);
    assert (w as real + x) * q == w as real * q + x * q;
    assert (w * p) as real == w as real * q;
  }

  lemma {:induction false} Negated(x: real, p: real)
    ensures -x * p == -(x * p)
  {
  }

  /** An exponent moves the decimal point. */
  lemma {:induction false} ExponentIs(n: NumTok)
    requires NumWf(n) && n.exp.Exp?
    ensures var m, p := NumValue(n.(exp := NoExp)), Pow(10, DigitsValue(n.exp.digits)) as real;
            if n.exp.sign == "-" then NumValue(n) * p == m else NumValue(n) == m * p
  {
    hide Pow;
    var m, p := NumValue(n.(exp := NoExp)), Pow(10, DigitsValue(n.exp.digits)) as real;
    Cancel(m, p);
    Cancel(-m, p);
  }

  /** What a decimal digit is worth. */
  lemma {:induction false} DigitIs(i: nat)
    requires i < 10
    ensures Digits(["0123456789"[i]]) && DigitsValue(["0123456789"[i]]) == i
  {
    var d := ["0123456789"[i]];
    assert d[..0] == "";
  }

  // ---- nesting ----

  /** `n` brackets around nothing, before `x`. */
  function Brackets(n: nat, x: string): string {
    if n == 0 then x else ['['] + Brackets(n - 1, [']'] + x)
  }

  lemma {:induction false} BracketsFit(n: nat, x: string, depth: nat)
    requires n >= 1 && depth + n - 1 <= 64
    ensures Val(Brackets(n, x), depth).Some? && Val(Brackets(n, x), depth).value.rest == x
  {
    hide SkipWs;
    var s := Brackets(n, x);
    ValBracket(s, depth);
    assert s[1..] == Brackets(n - 1, [']'] + x);
    if n == 1 {
      NoSpace(s[1..]);
      assert s[1..][1..] == x;
    } else {
      BracketStarts(n - 1, [']'] + x);
      NoSpace(s[1..]);
      BracketsFit(n - 1, [']'] + x, depth + 1);
      NoSpace([']'] + x);
      ItemThenEnd(s[1..], depth, x);
    }
  }

  lemma {:induction false} NoSpace(s: string)
    requires s != "" && !IsWs(s[0])
    ensures SkipWs(s) == s
  {
  }

  lemma {:induction false} BracketStarts(n: nat, x: string)
    requires n >= 1
    ensures Brackets(n, x) != "" && Brackets(n, x)[0] == '['
  {
  }

  lemma {:induction false} ItemThenEnd(s: string, depth: nat, x: string)
    requires SkipWs(s) == s && Val(s, depth + 1).Some? && Val(s, depth + 1).value.rest == [']'] + x
    ensures Items(s, depth, []).Some? && Items(s, depth, []).value.rest == x
  {
    hide Val;
    NoSpace([']'] + x);
    assert ([']'] + x)[1..] == x;
  }

  lemma {:induction false} BracketsTooDeep(n: nat, x: string, depth: nat)
    requires n >= 1 && depth + n - 1 > 64
    ensures Val(Brackets(n, x), depth).None?
  {
    hide SkipWs, Val, Items;
    var s := Brackets(n, x);
    BracketStarts(n, x);
    ValBracket(s, depth);
    if n > 1 {
      assert s[1..] == Brackets(n - 1, [']'] + x);
      BracketStarts(n - 1, [']'] + x);
      NoSpace(s[1..]);
      BracketsTooDeep(n - 1, [']'] + x, depth + 1);
      if Items(s[1..], depth, []).Some? {
        ItemsOut(s[1..], depth, []);
      }
    }
  }

  /** Sixty-five arrays may be nested, and no more. */
  lemma {:induction false} DepthExactly(n: nat)
    requires n >= 1
    ensures Parse(Brackets(n, "")).Some? <==> n <= 65
  {
    hide SkipWs, Val;
    BracketStarts(n, "");
    NoSpace(Brackets(n, ""));
    EndOfText();
    if n <= 65 {
      BracketsFit(n, "", 0);
    } else {
      BracketsTooDeep(n, "", 0);
    }
  }

  lemma {:induction false} EndOfText()
    ensures SkipWs("") == ""
  {
  }
}
