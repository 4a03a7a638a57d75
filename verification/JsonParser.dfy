/** The recursive-descent parser of launcher/src/json.cpp.

    The functions describe each routine on the input that is left; the methods of `Parser` are the
    routines themselves, advancing `p` through the text. */
module JsonParser {
  import opened Options
  import opened Doubles
  import opened JsonSyntax

  /** A recognised piece and the input after it. */
  datatype Parsed<+T> = Parsed(value: T, rest: string)

  function SkipWs(s: string): (r: string)
    ensures |r| <= |s|
  {
    if s != "" && IsWs(s[0]) then SkipWs(s[1..]) else s
  }

  predicate StartsWith(s: string, w: string) {
    |w| <= |s| && s[..|w|] == w
  }

  // ---- strings ----

  function HeadTok(s: string): (r: Option<Parsed<CharTok>>)
    ensures r.Some? ==> TokWf(r.value.value) && |r.value.rest| < |s|
  {
    if s == "" || s[0] == '"' || s[0] as int < 0x20 then None
    else if s[0] != '\\' then Some(Parsed(Plain(s[0]), s[1..]))
    else if |s| == 1 then None
    else if s[1] == 'u' then
      if |s| >= 6 && IsHex4(s[2..6]) then Some(Parsed(U(s[2..6]), s[6..])) else None
    else if IsEscape(s[1]) then Some(Parsed(Esc(s[1]), s[2..]))
    else None
  }

  predicate StartsU(s: string) {
    |s| >= 2 && s[0] == '\\' && s[1] == 'u'
  }

  /** The rest of a string literal, after its opening quote. */
  function Chars(s: string): (r: Option<Parsed<string>>)
    ensures r.Some? ==> |r.value.rest| < |s|
    decreases |s|
  {
    if s != "" && s[0] == '"' then Some(Parsed("", s[1..]))
    else
      match HeadTok(s)
      case None => None
      case Some(Parsed(t, rest)) =>
        if IsHigh(t) && StartsU(rest) then
          match HeadTok(rest)
          case None => None
          case Some(Parsed(t2, rest2)) =>
            if IsLow(t2) then Prepend(Utf8(JoinSurrogates(t, t2)), Chars(rest2))
            else Prepend(TokMeaning(t), Chars(rest))
        else Prepend(TokMeaning(t), Chars(rest))
  }

  function Prepend(x: string, r: Option<Parsed<string>>): Option<Parsed<string>> {
    if r.None? then None else Some(Parsed(x + r.value.value, r.value.rest))
  }

  // ---- numbers ----

  function DigitRun(s: string): (n: nat)
    ensures n <= |s| && Digits(s[..n])
    ensures n < |s| ==> !IsDigit(s[n])
  {
    if s != "" && IsDigit(s[0]) then
      var k := DigitRun(s[1..]);
      assert s[..k + 1] == [s[0]] + s[1..][..k];
      k + 1
    else 0
  }

  /** A non-empty run of digits. */
  function SomeDigits(s: string): (r: Option<Parsed<string>>)
    ensures r.Some? ==> r.value.value != "" && Digits(r.value.value) && |r.value.rest| < |s|
  {
    var n := DigitRun(s);
    if n == 0 then None else Some(Parsed(s[..n], s[n..]))
  }

  function WholePart(s: string): (r: Option<Parsed<string>>)
    ensures r.Some? ==> WholeWf(r.value.value) && |r.value.rest| < |s|
  {
    if s != "" && s[0] == '0' then
      if |s| > 1 && IsDigit(s[1]) then None else Some(Parsed("0", s[1..]))
    else SomeDigits(s)
  }

  function FracPart(s: string): (r: Option<Parsed<string>>)
    ensures r.Some? ==> Digits(r.value.value) && |r.value.rest| <= |s|
  {
    if s != "" && s[0] == '.' then SomeDigits(s[1..]) else Some(Parsed("", s))
  }

  function SignPart(s: string): (r: Parsed<string>)
    ensures |r.rest| <= |s| && r.value in {"", "+", "-"}
  {
    if s != "" && (s[0] == '+' || s[0] == '-') then Parsed([s[0]], s[1..]) else Parsed("", s)
  }

  function ExpPart(s: string): (r: Option<Parsed<ExpTok>>)
    ensures r.Some? ==> ExpWf(r.value.value) && |r.value.rest| <= |s|
  {
    if s != "" && (s[0] == 'e' || s[0] == 'E') then
      var sign := SignPart(s[1..]);
      match SomeDigits(sign.rest)
      case None => None
      case Some(Parsed(d, rest)) => Some(Parsed(Exp(s[0], sign.value, d), rest))
    else Some(Parsed(NoExp, s))
  }

  function NumberTok(s: string): (r: Option<Parsed<NumTok>>)
    ensures r.Some? ==> NumWf(r.value.value) && |r.value.rest| < |s|
  {
    var neg := s != "" && s[0] == '-';
    match WholePart(if neg then s[1..] else s)
    case None => None
    case Some(Parsed(whole, s2)) =>
      match FracPart(s2)
      case None => None
      case Some(Parsed(frac, s3)) =>
        match ExpPart(s3)
        case None => None
        case Some(Parsed(x, rest)) => Some(Parsed(NumTok(neg, whole, frac, x), rest))
  }

  // ---- values ----

  function Literal(s: string, w: string, v: Value): Option<Parsed<Value>> {
    if StartsWith(s, w) then Some(Parsed(v, s[|w|..])) else None
  }

  /** Put `v` in the member with key `k`, at the end if there is none. */
  function Upsert(ms: seq<Member>, k: string, v: Value): seq<Member> {
    if ms == [] then [Member(k, v)]
    else if ms[0].key == k then [Member(k, v)] + ms[1..]
    else [ms[0]] + Upsert(ms[1..], k, v)
  }

  function NumberVal(s: string): (r: Option<Parsed<Value>>)
    ensures r.Some? ==> |r.value.rest| < |s|
  {
    match NumberTok(s)
    case None => None
    case Some(Parsed(n, rest)) =>
      if FiniteDouble(NumValue(n)) then Some(Parsed(Number(Round(NumValue(n))), rest)) else None
  }

  function Val(s: string, depth: nat): (r: Option<Parsed<Value>>)
    ensures r.Some? ==> |r.value.rest| < |s|
    decreases |s|, 1
  {
    if depth > MAX_DEPTH || s == "" then None
    else match s[0]
      case '{' =>
        var s1 := SkipWs(s[1..]);
        if s1 != "" && s1[0] == '}' then Some(Parsed(Object([]), s1[1..]))
        else Members(s1, depth, [])
      case '[' =>
        var s1 := SkipWs(s[1..]);
        if s1 != "" && s1[0] == ']' then Some(Parsed(Array([]), s1[1..]))
        else Items(s1, depth, [])
      case '"' =>
        (match Chars(s[1..])
         case None => None
         case Some(Parsed(x, rest)) => Some(Parsed(Str(x), rest)))
      case 't' => Literal(s, "true", Bool(true))
      case 'f' => Literal(s, "false", Bool(false))
      case 'n' => Literal(s, "null", Null)
      case _ =>
        NumberVal(s)
  }

  /** A key and its colon. */
  function KeyPart(s: string): (r: Option<Parsed<string>>)
    ensures r.Some? ==> |r.value.rest| < |s|
  {
    if s == "" || s[0] != '"' then None
    else
      match Chars(s[1..])
      case None => None
      case Some(Parsed(k, s2)) =>
        var s3 := SkipWs(s2);
        if s3 == "" || s3[0] != ':' then None else Some(Parsed(k, s3[1..]))
  }

  /** One round of the object loop per member; `acc` is what earlier rounds collected. */
  function Members(s: string, depth: nat, acc: seq<Member>): (r: Option<Parsed<Value>>)
    ensures r.Some? ==> |r.value.rest| < |s|
    decreases |s|, 2
  {
    match KeyPart(SkipWs(s))
    case None => None
    case Some(Parsed(k, s1)) =>
      match Val(SkipWs(s1), depth + 1)
      case None => None
      case Some(Parsed(v, s2)) =>
        var s3 := SkipWs(s2);
        if s3 == "" then None
        else if s3[0] == ',' then Members(s3[1..], depth, Upsert(acc, k, v))
        else if s3[0] == '}' then Some(Parsed(Object(Upsert(acc, k, v)), s3[1..]))
        else None
  }

  function Items(s: string, depth: nat, acc: seq<Value>): (r: Option<Parsed<Value>>)
    ensures r.Some? ==> |r.value.rest| < |s|
    decreases |s|, 2
  {
    match Val(SkipWs(s), depth + 1)
    case None => None
    case Some(Parsed(v, s2)) =>
      var s3 := SkipWs(s2);
      if s3 == "" then None
      else if s3[0] == ',' then Items(s3[1..], depth, acc + [v])
      else if s3[0] == ']' then Some(Parsed(Array(acc + [v]), s3[1..]))
      else None
  }

  /** `json::parse`. */
  function Parse(text: string): Option<Value> {
    match Val(SkipWs(text), 0)
    case None => None
    case Some(Parsed(v, rest)) => if SkipWs(rest) == "" then Some(v) else None
  }

  /** `Val` at a bracket, without its other cases. */
  lemma {:induction false} ValBracket(s: string, depth: nat)
    requires s != "" && (s[0] == '{' || s[0] == '[')
    ensures var s1 := SkipWs(s[1..]);
            Val(s, depth)
            == if depth > MAX_DEPTH then None
               else if s1 != "" && s1[0] == (if s[0] == '{' then '}' else ']') then
                 Some(Parsed(if s[0] == '{' then Object([]) else Array([]), s1[1..]))
               else if s[0] == '{' then Members(s1, depth, []) else Items(s1, depth, [])
  {
    hide SkipWs, Members, Items;
  }

  lemma {:induction false} ValNumber(s: string, depth: nat)
    requires s != "" && s[0] !in "{[\"tfn" && depth <= MAX_DEPTH
    ensures Val(s, depth) == NumberVal(s)
  {
    hide NumberVal;
  }

  lemma {:induction false} ValString(s: string, depth: nat)
    requires s != "" && s[0] == '"' && depth <= MAX_DEPTH
    ensures Val(s, depth) ==
            if Chars(s[1..]).None? then None else Some(Parsed(Str(Chars(s[1..]).value.value), Chars(s[1..]).value.rest))
  {
    hide Chars;
  }

  lemma {:induction false} ValTooDeep(s: string, depth: nat)
    requires Val(s, depth).Some?
    ensures depth <= MAX_DEPTH && s != ""
  {
    hide SkipWs, Members, Items, Chars, NumberVal;
  }

  // ---- the parser object ----

  function HexValue(h: string): nat
    requires forall i :: 0 <= i < |h| ==> IsHex(h[i])
  {
    if h == "" then 0 else 16 * HexValue(h[..|h| - 1]) + HexDigit(h[|h| - 1])
  }

  lemma {:induction false} Hex4IsHexValue(h: string)
    requires IsHex4(h)
    ensures HexValue(h) == Hex4Value(h)
  {
    assert h[..3][..2] == h[..2] && h[..2][..1] == h[..1] && h[..1][..0] == "";
    assert HexValue(h[..1]) == HexDigit(h[0]);
    assert HexValue(h[..2]) == 16 * HexValue(h[..1]) + HexDigit(h[1]);
    assert HexValue(h[..3]) == 16 * HexValue(h[..2]) + HexDigit(h[2]);
  }

  lemma {:induction false} PrependLaws(x: string, y: string, r: Option<Parsed<string>>)
    ensures Prepend("", r) == r
    ensures Prepend(x, Prepend(y, r)) == Prepend(x + y, r)
    ensures Prepend(x, r) == if r.None? then None else Some(Parsed(x + r.value.value, r.value.rest))
  {
    if r.Some? {
      assert "" + r.value.value == r.value.value;
      assert x + (y + r.value.value) == (x + y) + r.value.value;
    }
  }

  lemma {:induction false} CharsEnd(s: string)
    ensures s == "" ==> Chars(s).None?
    ensures s != "" && s[0] == '"' ==> Chars(s) == Some(Parsed("", s[1..]))
  {
  }

  lemma {:induction false} DigitRunStep(s: string, from: nat, p: nat)
    requires from <= p < |s| && IsDigit(s[p])
    requires DigitRun(s[from..]) == p - from + DigitRun(s[p..])
    ensures DigitRun(s[from..]) == p + 1 - from + DigitRun(s[p + 1..])
  {
    assert s[p..][1..] == s[p + 1..];
  }

  lemma {:induction false} HexTok(s: string)
    requires StartsU(s)
    ensures HeadTok(s) == if |s[2..]| >= 4 && IsHex4(s[2..][..4])
                          then Some(Parsed(U(s[2..][..4]), s[2..][4..])) else None
  {
    if |s| >= 6 {
      assert s[2..][..4] == s[2..6] && s[2..][4..] == s[6..];
    }
  }

  /** `json::Parser`. A failed routine leaves `p` inside the text; nothing reads past its end. */
  class Parser {
    const s: string
    var p: nat

    constructor (text: string)
      ensures s == text && p == 0
    {
      s := text;
      p := 0;
    }

    ghost predicate Valid()
      reads this
    {
      p <= |s|
    }

    function Rest(): string
      requires Valid()
      reads this
    {
      s[p..]
    }

    /** The outcome `ok`, `x` of a routine is the described one, and `p` is where it stopped. */
    ghost predicate Did<T>(ok: bool, x: T, r: Option<Parsed<T>>)
      reads this
    {
      && Valid() && ok == r.Some?
      && (ok ==> x == r.value.value && Rest() == r.value.rest)
    }

    function Peek(): char
      reads this
    {
      if p < |s| then s[p] else '\0'
    }

    method SkipBlanks()
      requires Valid()
      modifies this
      ensures Valid() && p >= old(p) && Rest() == SkipWs(old(Rest()))
    {
      while p < |s|
        invariant Valid() && p >= old(p)
        invariant SkipWs(Rest()) == SkipWs(old(Rest()))
        decreases |s| - p
      {
        if IsWs(s[p]) {
          assert s[p..][1..] == s[p + 1..];
          p := p + 1;
        } else {
          break;
        }
      }
    }

    method Lit(word: string, v: Value) returns (ok: bool)
      requires Valid() && |word| > 0
      modifies this
      ensures Did(ok, v, Literal(old(Rest()), word, v))
    {
      ok := p + |word| <= |s| && s[p..p + |word|] == word;
      assert ok ==> s[p..][..|word|] == word;
      assert StartsWith(s[p..], word) ==> s[p..][..|word|] == s[p..p + |word|];
      if ok {
        p := p + |word|;
      }
    }

    method Hex4() returns (ok: bool, cp: nat)
      requires Valid()
      modifies this
      ensures Valid() && ok == (|old(Rest())| >= 4 && IsHex4(old(Rest())[..4]))
      ensures ok ==> Rest() == old(Rest())[4..] && cp == Hex4Value(old(Rest())[..4])
    {
      cp := 0;
      if p + 4 > |s| {
        return false, 0;
      }
      var i := 0;
      while i < 4
        invariant 0 <= i <= 4 && p == old(p)
        invariant forall j :: p <= j < p + i ==> IsHex(s[j])
        invariant cp == HexValue(s[p..p + i])
      {
        var c := s[p + i];
        if !IsHex(c) {
          assert s[p..p + 4] == s[p..][..4] && s[p..p + 4][i] == c;
          return false, 0;
        }
        assert s[p..p + i + 1][..i] == s[p..p + i];
        cp := 16 * cp + HexDigit(c);
        i := i + 1;
      }
      assert s[p..p + 4] == s[p..][..4];
      Hex4IsHexValue(s[p..p + 4]);
      p := p + 4;
      ok := true;
    }

    /** A `\u` escape, entered after its `u`; `here` is the text from its backslash. */
    method UnicodeEscape(ghost here: string) returns (ok: bool, cp: nat)
      requires Valid() && StartsU(here) && Rest() == here[2..]
      modifies this
      ensures Valid() && (!ok ==> Chars(here).None?)
      ensures ok ==> p > old(p) && cp < 0x110000 && Chars(here) == Prepend(Utf8(cp), Chars(Rest()))
    {
      hide Utf8, Hex4Value;
      ghost var start := Rest();
      ok, cp := Hex4();
      HexTok(here);
      if !ok {
        return;
      }
      if 0xD800 <= cp <= 0xDBFF && p + 1 < |s| && s[p] == '\\' && s[p + 1] == 'u' {
        var save := p;
        ghost var low := Rest();
        p := p + 2;
        var loOk, lo := Hex4();
        HexTok(low);
        if !loOk {
          return false, 0;
        }
        if 0xDC00 <= lo <= 0xDFFF {
          cp := 0x10000 + (cp - 0xD800) * 0x400 + (lo - 0xDC00);
        } else {
          p := save;
        }
      }
    }

    /** An escape, entered after its backslash; `here` is the text from the backslash. */
    method Escape(ghost here: string) returns (ok: bool, piece: string)
      requires Valid() && here != "" && here[0] == '\\' && Rest() == here[1..]
      modifies this
      ensures Valid() && (!ok ==> Chars(here).None?)
      ensures ok ==> p > old(p) && Chars(here) == Prepend(piece, Chars(Rest()))
    {
      if p >= |s| {
        return false, "";
      }
      var e := s[p];
      p := p + 1;
      if e == 'u' {
        var cp;
        ok, cp := UnicodeEscape(here);
        piece := if ok then Utf8(cp) else "";
      } else if IsEscape(e) {
        assert here[1..][1..] == here[2..] == Rest();
        return true, [EscapeMeaning(e)];
      } else {
        return false, "";
      }
    }

    /** One character or escape of a string, at a character other than the closing quote. */
    method Piece() returns (ok: bool, piece: string)
      requires Valid() && p < |s| && s[p] != '"'
      modifies this
      ensures Valid() && (!ok ==> Chars(old(Rest())).None?)
      ensures ok ==> p > old(p) && Chars(old(Rest())) == Prepend(piece, Chars(Rest()))
    {
      var c := s[p];
      if c as int < 0x20 {
        return false, "";
      }
      p := p + 1;
      if c == '\\' {
        ok, piece := Escape(old(Rest()));
      } else {
        return true, [c];
      }
    }

    /** Entered at the opening quote. */
    method ParseString() returns (ok: bool, out: string)
      requires Valid() && p < |s|
      modifies this
      ensures ok ==> p > old(p)
      ensures Did(ok, out, Chars(old(Rest())[1..]))
    {
      hide Chars, Prepend;
      p := p + 1;
      out := "";
      ghost var whole := Chars(old(Rest())[1..]);
      assert old(Rest())[1..] == Rest();
      PrependLaws("", "", whole);
      while true
        invariant Valid() && p > old(p)
        invariant whole == Prepend(out, Chars(Rest()))
        decreases |s| - p
      {
        CharsEnd(Rest());
        PrependLaws(out, "", Chars(Rest()));
        if p >= |s| {
          return false, "";
        }
        if s[p] == '"' {
          p := p + 1;
          assert out + "" == out;
          return true, out;
        }
        var piece;
        ok, piece := Piece();
        if !ok {
          return false, "";
        }
        PrependLaws(out, piece, Chars(Rest()));
        out := out + piece;
      }
    }

    method SkipDigits()
      requires Valid()
      modifies this
      ensures Valid() && p == old(p) + DigitRun(old(Rest()))
    {
      while p < |s| && IsDigit(s[p])
        invariant old(p) <= p <= |s|
        invariant DigitRun(s[old(p)..]) == p - old(p) + DigitRun(s[p..])
        decreases |s| - p
      {
        DigitRunStep(s, old(p), p);
        p := p + 1;
      }
    }

    method NeedDigits() returns (ok: bool, digits: string)
      requires Valid()
      modifies this
      ensures p >= old(p) && Did(ok, digits, SomeDigits(old(Rest())))
    {
      if p >= |s| || !IsDigit(Peek()) {
        return false, "";
      }
      var start := p;
      SkipDigits();
      assert s[start..][..p - start] == s[start..p] && s[start..][p - start..] == s[p..];
      return true, s[start..p];
    }

    method Whole() returns (ok: bool, digits: string)
      requires Valid()
      modifies this
      ensures p >= old(p) && Did(ok, digits, WholePart(old(Rest())))
    {
      if Peek() == '0' {
        p := p + 1;
        return !IsDigit(Peek()), "0";
      }
      ok, digits := NeedDigits();
    }

    method Fraction() returns (ok: bool, digits: string)
      requires Valid()
      modifies this
      ensures p >= old(p) && Did(ok, digits, FracPart(old(Rest())))
    {
      if Peek() != '.' {
        return true, "";
      }
      p := p + 1;
      ok, digits := NeedDigits();
    }

    method Exponent() returns (ok: bool, exp: ExpTok)
      requires Valid()
      modifies this
      ensures p >= old(p) && Did(ok, exp, ExpPart(old(Rest())))
    {
      var e := Peek();
      if e != 'e' && e != 'E' {
        return true, NoExp;
      }
      p := p + 1;
      var sign := "";
      ghost var here := Rest();
      if Peek() == '+' || Peek() == '-' {
        sign := [s[p]];
        p := p + 1;
      }
      assert SignPart(here) == Parsed(sign, Rest());
      var digits;
      ok, digits := NeedDigits();
      exp := Exp(e, sign, digits);
    }

    /** `parse_number`; `strtod` rounds the decimal the token stands for. */
    method ParseNumber() returns (ok: bool, v: Value)
      requires Valid()
      modifies this
      ensures p >= old(p)
      ensures Did(ok, v, NumberVal(old(Rest())))
    {
      hide WholePart, FracPart, ExpPart, NumValue, FiniteDouble, Round;
      v := Null;
      var neg := Peek() == '-';
      ghost var start := Rest();
      if neg {
        p := p + 1;
      }
      assert Rest() == if neg then start[1..] else start;
      var whole, frac, exp;
      ok, whole := Whole();
      if !ok {
        return;
      }
      ok, frac := Fraction();
      if !ok {
        return;
      }
      ok, exp := Exponent();
      if !ok {
        return;
      }
      var d := NumValue(NumTok(neg, whole, frac, exp));
      ok := FiniteDouble(d);
      v := Number(Round(d));
    }

    method ParseValue(depth: nat) returns (ok: bool, v: Value)
      requires Valid()
      modifies this
      ensures Did(ok, v, Val(old(Rest()), depth))
      decreases |s| - p, 1
    {
      v := Null;
      if depth > MAX_DEPTH || p >= |s| {
        return false, v;
      }
      match Peek() {
        case '{' => ok, v := ParseObject(depth);
        case '[' => ok, v := ParseArray(depth);
        case '"' =>
          var str;
          ok, str := ParseString();
          v := Str(str);
        case 't' => v := Bool(true); ok := Lit("true", v);
        case 'f' => v := Bool(false); ok := Lit("false", v);
        case 'n' => ok := Lit("null", v);
        case _ => ok, v := ParseNumber();
      }
    }

    /** The key of a member and its colon. */
    method ParseKey() returns (ok: bool, k: string)
      requires Valid()
      modifies this
      ensures ok ==> p > old(p)
      ensures Did(ok, k, KeyPart(old(Rest())))
    {
      k := "";
      if Peek() != '"' {
        return false, k;
      }
      ok, k := ParseString();
      if !ok {
        return;
      }
      SkipBlanks();
      if Peek() != ':' {
        return false, k;
      }
      p := p + 1;
    }

    method ParseObject(depth: nat) returns (ok: bool, v: Value)
      requires Valid() && p < |s| && s[p] == '{' && depth <= MAX_DEPTH
      modifies this
      ensures Did(ok, v, Val(old(Rest()), depth))
      decreases |s| - p, 0
    {
      hide Val, Members, Items, SkipWs;
      ValBracket(Rest(), depth);
      p := p + 1;
      assert Rest() == old(Rest())[1..];
      SkipBlanks();
      if Peek() == '}' {
        p := p + 1;
        return true, Object([]);
      }
      ok, v := ObjectLoop(depth);
    }

    method ObjectLoop(depth: nat) returns (ok: bool, v: Value)
      requires Valid() && depth <= MAX_DEPTH
      modifies this
      ensures Did(ok, v, Members(old(Rest()), depth, []))
      decreases |s| - p, 2
    {
      hide KeyPart, SkipWs, Upsert, Val;
      v := Null;
      var members: seq<Member> := [];
      while true
        invariant Valid() && p >= old(p)
        invariant Members(old(Rest()), depth, []) == Members(Rest(), depth, members)
        decreases |s| - p
      {
        SkipBlanks();
        var k, x;
        ok, k := ParseKey();
        if !ok {
          return;
        }
        SkipBlanks();
        ok, x := ParseValue(depth + 1);
        if !ok {
          return;
        }
        members := Put(members, k, x);
        SkipBlanks();
        if Peek() == '}' {
          p := p + 1;
          return true, Object(members);
        }
        if Peek() != ',' {
          return false, v;
        }
        p := p + 1;
      }
    }

    method ParseArray(depth: nat) returns (ok: bool, v: Value)
      requires Valid() && p < |s| && s[p] == '[' && depth <= MAX_DEPTH
      modifies this
      ensures Did(ok, v, Val(old(Rest()), depth))
      decreases |s| - p, 0
    {
      hide Val, Members, Items, SkipWs;
      ValBracket(Rest(), depth);
      p := p + 1;
      assert Rest() == old(Rest())[1..];
      SkipBlanks();
      if Peek() == ']' {
        p := p + 1;
        return true, Array([]);
      }
      ok, v := ArrayLoop(depth);
    }

    method ArrayLoop(depth: nat) returns (ok: bool, v: Value)
      requires Valid() && depth <= MAX_DEPTH
      modifies this
      ensures Did(ok, v, Items(old(Rest()), depth, []))
      decreases |s| - p, 2
    {
      hide SkipWs, Val;
      v := Null;
      var items: seq<Value> := [];
      while true
        invariant Valid() && p >= old(p)
        invariant Items(old(Rest()), depth, []) == Items(Rest(), depth, items)
        decreases |s| - p
      {
        SkipBlanks();
        var x;
        ok, x := ParseValue(depth + 1);
        if !ok {
          return;
        }
        items := items + [x];
        SkipBlanks();
        if Peek() == ']' {
          p := p + 1;
          return true, Array(items);
        }
        if Peek() != ',' {
          return false, v;
        }
        p := p + 1;
      }
    }

    /** `Parser::run`: one value and nothing but whitespace around it. */
    method Run() returns (r: Option<Value>)
      requires p == 0
      modifies this
      ensures Valid() && r == Parse(s)
    {
      assert s[0..] == s;
      SkipBlanks();
      var ok, v := ParseValue(0);
      if !ok {
        return None;
      }
      SkipBlanks();
      r := if p == |s| then Some(v) else None;
    }
  }

  lemma {:induction false} UpsertSkip(ms: seq<Member>, i: nat, k: string, v: Value)
    requires i <= |ms| && forall j :: 0 <= j < i ==> ms[j].key != k
    ensures Upsert(ms, k, v) == ms[..i] + Upsert(ms[i..], k, v)
  {
    if i == 0 {
      assert ms[..0] + Upsert(ms[0..], k, v) == Upsert(ms, k, v);
    } else {
      UpsertSkip(ms[1..], i - 1, k, v);
      assert Upsert(ms, k, v) == [ms[0]] + Upsert(ms[1..], k, v);
      hide Upsert;
      assert ms[1..][i - 1..] == ms[i..];
      assert ms[..i] == [ms[0]] + ms[1..][..i - 1];
      var tail := Upsert(ms[i..], k, v);
      assert [ms[0]] + (ms[1..][..i - 1] + tail) == ([ms[0]] + ms[1..][..i - 1]) + tail;
    }
  }

  /** The duplicate-key loop of `parse_object`: the member with key `k` takes the new value. */
  method Put(members: seq<Member>, k: string, v: Value) returns (r: seq<Member>)
    ensures r == Upsert(members, k, v)
  {
    for i := 0 to |members|
      invariant forall j :: 0 <= j < i ==> members[j].key != k
    {
      UpsertSkip(members, i, k, v);
      if members[i].key == k {
        assert members[i..][1..] == members[i + 1..];
        return members[i := Member(k, v)];
      }
    }
    UpsertSkip(members, |members|, k, v);
    r := members + [Member(k, v)];
  }

  /** `json::parse`. */
  method ParseText(text: string) returns (r: Option<Value>)
    ensures r == Parse(text)
  {
    var parser := new Parser(text);
    r := parser.Run();
  }
}
