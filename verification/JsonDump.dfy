/** The JSON writer of launcher/src/json.cpp and launcher/src/util.hpp. */
module JsonDump {
  import opened Options
  import opened Doubles
  import opened JsonSyntax
  import opened JsonParser
  import opened JsonGrammar

  // What `dump` writes is the text of an explicit derivation tree of its value, so reading it back is an
  // instance of the parser's completeness.

  /** Integers of smaller magnitude are printed as digits. */
  const DIGITS_LIMIT := 1_000_000_000_000_000

  // ---- js_string_escape ----

  function HexLetter(n: nat): char
    requires n < 16
  {
    if n < 10 then ('0' as int + n) as char else ('a' as int + n - 10) as char
  }

  /** The escape the writer uses for one byte, as a token of the grammar. */
  function EscapeTok(c: char): (t: CharTok)
    ensures TokWf(t) && TokMeaning(t) == [c] && !IsHigh(t)
  {
    match c
    case '"' => Esc('"')
    case '\\' => Esc('\\')
    case '\U{8}' => Esc('b')
    case '\U{c}' => Esc('f')
    case '\n' => Esc('n')
    case '\r' => Esc('r')
    case '\t' => Esc('t')
    case _ =>
      if c as int < 0x20 then U(['0', '0', HexLetter(c as int / 16), HexLetter(c as int % 16)])
      else Plain(c)
  }

  function EscapeToks(s: string): (ts: seq<CharTok>)
    ensures ToksWf(ts) && |ts| == |s|
  {
    if s == "" then [] else [EscapeTok(s[0])] + EscapeToks(s[1..])
  }

  /** Escaping loses nothing: NUL, quotes and control bytes included. */
  lemma {:induction false} EscapeMeaningIs(s: string)
    ensures StringMeaning(EscapeToks(s)) == s
  {
    if s != "" {
      EscapeMeaningIs(s[1..]);
      ToksCons(EscapeTok(s[0]), EscapeToks(s[1..]), "");
    }
  }

  /** The text written for one byte. */
  lemma {:induction false} EscapeTextIs(c: char)
    requires c as int < 256
    ensures var t, n, hex := ToksText([EscapeTok(c)], ""), c as int, "0123456789abcdef";
            && (n == 0x22 ==> t == "\\\"") && (n == 0x5C ==> t == "\\\\") && (n == 0x08 ==> t == "\\b")
            && (n == 0x0C ==> t == "\\f") && (n == 0x0A ==> t == "\\n") && (n == 0x0D ==> t == "\\r")
            && (n == 0x09 ==> t == "\\t")
            && (n < 0x20 && n !in {0x08, 0x09, 0x0A, 0x0C, 0x0D} ==> t == "\\u00" + [hex[n / 16], hex[n % 16]])
            && (n >= 0x20 && n != 0x22 && n != 0x5C ==> t == [c])
  {
    var ts, n := [EscapeTok(c)], c as int;
    assert ts[1..] == [] && ToksText(ts, "") == TokText(ts[0], "");
    if n < 0x20 && n !in {0x08, 0x09, 0x0A, 0x0C, 0x0D} {
      HexLetterIs(n / 16);
      HexLetterIs(n % 16);
      assert ToksText(ts, "") == "\\u" + ['0', '0', HexLetter(n / 16), HexLetter(n % 16)];
    }
  }

  lemma {:induction false} HexLetterIs(n: nat)
    requires n < 16
    ensures HexLetter(n) == "0123456789abcdef"[n]
  {
  }

  lemma {:induction false} ToksTextAppend(a: seq<CharTok>, b: seq<CharTok>, x: string)
    ensures ToksText(a + b, x) == ToksText(a, ToksText(b, x))
  {
    if a == [] {
      assert a + b == b;
    } else {
      assert (a + b)[1..] == a[1..] + b;
      ToksTextAppend(a[1..], b, x);
    }
  }

  lemma {:induction false} EscapeToksSnoc(s: string, c: char)
    ensures EscapeToks(s + [c]) == EscapeToks(s) + [EscapeTok(c)]
  {
    if s == "" {
      assert s + [c] == [c];
    } else {
      assert (s + [c])[1..] == s[1..] + [c];
      EscapeToksSnoc(s[1..], c);
    }
  }

  lemma {:induction false} EscapeTextSnoc(s: string, c: char)
    ensures ToksText(EscapeToks(s + [c]), "") == ToksText(EscapeToks(s), "") + TokText(EscapeTok(c), "")
  {
    hide EscapeToks, EscapeTok, TokText;
    EscapeToksSnoc(s, c);
    ToksTextAppend(EscapeToks(s), [EscapeTok(c)], "");
    ToksTextThen(EscapeToks(s), TokText(EscapeTok(c), ""));
  }

  method EscapeByte(c: char) returns (out: string)
    ensures out == TokText(EscapeTok(c), "")
  {
    match c {
      case '"' => out := "\\\"";
      case '\\' => out := "\\\\";
      case '\U{8}' => out := "\\b";
      case '\U{c}' => out := "\\f";
      case '\n' => out := "\\n";
      case '\r' => out := "\\r";
      case '\t' => out := "\\t";
      case _ =>
        if c as int < 0x20 {
          out := "\\u00" + [HexLetter(c as int / 16), HexLetter(c as int % 16)];
        } else {
          out := [c];
        }
    }
  }

  /** `js_string_escape`. */
  method JsStringEscape(s: string) returns (out: string)
    ensures out == ToksText(EscapeToks(s), "")
  {
    out := "";
    for i := 0 to |s|
      invariant out == ToksText(EscapeToks(s[..i]), "")
    {
      EscapeTextSnoc(s[..i], s[i]);
      assert s[..i] + [s[i]] == s[..i + 1];
      var piece := EscapeByte(s[i]);
      out := out + piece;
    }
    assert s[..|s|] == s;
  }

  // ---- numbers ----

  function NatText(n: nat): (d: string)
    ensures Digits(d) && d != "" && (d[0] == '0' ==> |d| == 1 && n == 0)
  {
    var last := ('0' as int + n % 10) as char;
    if n < 10 then [last] else NatText(n / 10) + [last]
  }

  lemma {:induction false} NatTextValue(n: nat)
    ensures DigitsValue(NatText(n)) == n
  {
    var d := NatText(n);
    if n < 10 {
      assert d[..0] == "";
    } else {
      NatTextValue(n / 10);
      assert d[..|d| - 1] == NatText(n / 10);
    }
  }

  function IntTok(n: int): (t: NumTok)
    ensures NumWf(t)
  {
    NumTok(n < 0, NatText(if n < 0 then -n else n), "", NoExp)
  }

  lemma {:induction false} IntTokValue(n: int)
    requires -DIGITS_LIMIT < n < DIGITS_LIMIT
    ensures var t := IntTok(n);
            NumValue(t) == n as real && FiniteDouble(NumValue(t)) && Round(NumValue(t)) == n as real
  {
    hide Pow, Two, Round, DoubleLimit;
    var m := if n < 0 then -n else n;
    NatTextValue(m);
    TenToNothing();
    SmallPower();
    PowMonotone(2, 50, DIGITS);
    IntegerIsDouble(n);
    RoundsToItself(n as real);
    LimitLarge();
  }

  lemma {:induction false} TenToNothing()
    ensures Pow(10, 0) == 1
  {
  }

  lemma {:induction false} SmallPower()
    ensures Pow(2, 50) == 1_125_899_906_842_624
  {
    assert Pow(2, 10) == 1024;
    PowAdd(2, 10, 10);
    PowAdd(2, 20, 20);
    PowAdd(2, 40, 10);
  }

  lemma {:induction false} LimitLarge()
    ensures DoubleLimit() >= Pow(2, 50) as real
  {
    hide Pow;
    PowNext(1023);
    PowMonotone(2, 970, 1023);
    PowMonotone(2, 50, 1023);
  }

  // ---- dump_value ----

  /** What `std::format` makes of the numbers that are not printed as digits. */
  type Format = real -> NumTok

  predicate IsShort(n: real) {
    n == n.Floor as real && -DIGITS_LIMIT < n.Floor < DIGITS_LIMIT
  }

  /** `dump_number` */
  function Shown(n: real, f: Format): NumTok {
    if IsShort(n) then IntTok(n.Floor) else f(n)
  }

  /** Integers of up to fifteen digits are printed as digits, with a sign if they are negative; other numbers as
      they are formatted. */
  lemma {:induction false} ShownIs(n: real, f: Format)
    ensures var short := n == n.Floor as real && -1_000_000_000_000_000 < n.Floor < 1_000_000_000_000_000;
            var text := NumText(Shown(n, f), "");
            if short then
              var m := if n.Floor < 0 then -n.Floor else n.Floor;
              var digits := if n.Floor < 0 && text != "" then text[1..] else text;
              && Digits(digits) && DigitsValue(digits) == m && (digits != "" && (digits[0] == '0' ==> digits == "0"))
              && (n.Floor < 0 ==> text == "-" + digits)
            else Shown(n, f) == f(n)
  {
    if IsShort(n) {
      var m := if n.Floor < 0 then -n.Floor else n.Floor;
      NatTextValue(m);
      assert NatText(m) + "" == NatText(m);
      assert (['-'] + NatText(m))[1..] == NatText(m);
    }
  }

  /** The double `strtod` makes of `t`. */
  predicate Denotes(t: NumTok, n: real) {
    NumWf(t) && FiniteDouble(NumValue(t)) && Round(NumValue(t)) == n
  }

  predicate ReadsBack(f: Format, n: real) {
    Denotes(f(n), n)
  }

  /** Every finite double is formatted as one of the texts that denote it: what the shortest form of
      `std::format` is defined to do. */
  ghost predicate Inverts(f: Format) {
    forall t: NumTok :: NumWf(t) && FiniteDouble(NumValue(t)) ==> ReadsBack(f, Round(NumValue(t)))
  }

  /** Every number in `v` is printed as digits, or so that it reads back. */
  predicate Printable(v: Value, f: Format) {
    match v
    case Number(n) => IsShort(n) || ReadsBack(f, n)
    case Array(items) => forall i :: 0 <= i < |items| ==> Printable(items[i], f)
    case Object(ms) => forall i :: 0 <= i < |ms| ==> Printable(ms[i].value, f)
    case _ => true
  }

  predicate DistinctKeys(v: Value) {
    match v
    case Array(items) => forall i :: 0 <= i < |items| ==> DistinctKeys(items[i])
    case Object(ms) =>
      && (forall i, j :: 0 <= i < j < |ms| ==> ms[i].key != ms[j].key)
      && (forall i :: 0 <= i < |ms| ==> DistinctKeys(ms[i].value))
    case _ => true
  }

  /** Every value inside `v` is under at most `h` arrays and objects. */
  predicate HeightWithin(v: Value, h: int) {
    && 0 <= h
    && match v
       case Array(items) => forall i :: 0 <= i < |items| ==> HeightWithin(items[i], h - 1)
       case Object(ms) => forall i :: 0 <= i < |ms| ==> HeightWithin(ms[i].value, h - 1)
       case _ => true
  }

  function NewlineIndent(indent: int, depth: nat): (w: string)
    ensures Ws(w)
  {
    if indent < 0 then "" else ['\n'] + seq(indent * depth, _ => ' ')
  }

  /** Unless the output is compact, a line break and `indent` spaces for each level. */
  lemma {:induction false} NewlineIs(indent: int, depth: nat)
    ensures var w := NewlineIndent(indent, depth);
            if indent < 0 then w == ""
            else |w| == 1 + indent * depth && w[0] == '\n' && forall i :: 1 <= i < |w| ==> w[i] == ' '
  {
  }

  function ColonGap(indent: int): string {
    if indent >= 0 then " " else ""
  }

  /** The derivation whose text `dump_value` appends. */
  function DumpTree(v: Value, f: Format, indent: int, depth: nat): Tree
    decreases v, 1, 0
  {
    match v
    case Null => TNull
    case Bool(b) => if b then TTrue else TFalse
    case Number(n) => TNum(Shown(n, f))
    case Str(s) => TStr(EscapeToks(s))
    case Array(items) => TArr("", DumpElems(v, f, indent, depth, 0))
    case Object(ms) => TObj("", DumpEntries(v, f, indent, depth, 0))
  }

  function DumpElems(v: Value, f: Format, indent: int, depth: nat, i: nat): (es: seq<Elem>)
    requires v.Array? && i <= |v.items|
    ensures |es| == |v.items| - i
    decreases v, 0, |v.items| - i
  {
    if i == |v.items| then []
    else
      var after := if i + 1 < |v.items| then "" else NewlineIndent(indent, depth);
      [Elem(NewlineIndent(indent, depth + 1), DumpTree(v.items[i], f, indent, depth + 1), after)]
      + DumpElems(v, f, indent, depth, i + 1)
  }

  function DumpEntries(v: Value, f: Format, indent: int, depth: nat, i: nat): (es: seq<Entry>)
    requires v.Object? && i <= |v.members|
    ensures |es| == |v.members| - i
    decreases v, 0, |v.members| - i
  {
    if i == |v.members| then []
    else
      var m := v.members[i];
      var after := if i + 1 < |v.members| then "" else NewlineIndent(indent, depth);
      [Entry(NewlineIndent(indent, depth + 1), EscapeToks(m.key), "", ColonGap(indent),
             DumpTree(m.value, f, indent, depth + 1), after)]
      + DumpEntries(v, f, indent, depth, i + 1)
  }

  /** The text `dump_value` appends for `v`. */
  function DumpText(v: Value, f: Format, indent: int, depth: nat): string
  {
    Text(DumpTree(v, f, indent, depth), "")
  }

  function Comma(i: nat, n: nat): string {
    if i + 1 < n then "," else ""
  }

  /** What is still to be written of an array once its first `i` elements are out. */
  function ElemsLeft(v: Value, f: Format, indent: int, depth: nat, i: nat): string
    requires v.Array? && i <= |v.items|
  {
    if i < |v.items| then ElemsText(DumpElems(v, f, indent, depth, i), "")
    else NewlineIndent(indent, depth) + "]"
  }

  function EntriesLeft(v: Value, f: Format, indent: int, depth: nat, i: nat): string
    requires v.Object? && i <= |v.members|
  {
    if i < |v.members| then EntriesText(DumpEntries(v, f, indent, depth, i), "")
    else NewlineIndent(indent, depth) + "}"
  }

  lemma {:induction false} Regroup(o: string, a: string, b: string, c: string, r: string)
    ensures o + (a + (b + (c + r))) == (((o + a) + b) + c) + r
  {
    assert a + (b + (c + r)) == ((a + b) + c) + r;
    assert o + (((a + b) + c) + r) == (o + ((a + b) + c)) + r;
    assert o + ((a + b) + c) == ((o + a) + b) + c;
  }

  lemma {:induction false} DumpElemsText(v: Value, f: Format, indent: int, depth: nat, i: nat)
    requires v.Array? && i < |v.items|
    ensures ElemsLeft(v, f, indent, depth, i)
            == NewlineIndent(indent, depth + 1) + (DumpText(v.items[i], f, indent, depth + 1) +
               (Comma(i, |v.items|) + ElemsLeft(v, f, indent, depth, i + 1)))
  {
    hide Text, DumpTree, NewlineIndent;
    var es := DumpElems(v, f, indent, depth, i);
    assert es[1..] == DumpElems(v, f, indent, depth, i + 1);
    TextThen(es[0].value, es[0].after + ElemsSep(es, ""));
    assert [']'] + "" == "]";
    if i + 1 < |v.items| {
      assert "" + ElemsSep(es, "") == ElemsSep(es, "");
    } else {
      assert "" + ElemsLeft(v, f, indent, depth, i + 1) == ElemsLeft(v, f, indent, depth, i + 1);
    }
  }

  lemma {:induction false} DumpEntriesText(v: Value, f: Format, indent: int, depth: nat, i: nat)
    requires v.Object? && i < |v.members|
    ensures EntriesLeft(v, f, indent, depth, i)
            == NewlineIndent(indent, depth + 1) + (QuotedText(EscapeToks(v.members[i].key), "") +
               ((":" + ColonGap(indent)) + (DumpText(v.members[i].value, f, indent, depth + 1) +
               (Comma(i, |v.members|) + EntriesLeft(v, f, indent, depth, i + 1)))))
  {
    hide Text, DumpTree, NewlineIndent, QuotedText, EscapeToks, ColonGap;
    var es := DumpEntries(v, f, indent, depth, i);
    assert es[1..] == DumpEntries(v, f, indent, depth, i + 1);
    var s5 := Text(es[0].value, es[0].after + EntriesSep(es, ""));
    assert "" + (":" + (ColonGap(indent) + s5)) == (":" + ColonGap(indent)) + s5;
    QuotedTextThen(es[0].key, (":" + ColonGap(indent)) + s5);
    TextThen(es[0].value, es[0].after + EntriesSep(es, ""));
    assert ['}'] + "" == "}";
    if i + 1 < |v.members| {
      assert "" + EntriesSep(es, "") == EntriesSep(es, "");
    } else {
      assert "" + EntriesLeft(v, f, indent, depth, i + 1) == EntriesLeft(v, f, indent, depth, i + 1);
    }
  }

  lemma {:induction false} EmptyArray(v: Value, f: Format, indent: int, depth: nat)
    requires v.Array? && v.items == []
    ensures DumpText(v, f, indent, depth) == "[]"
  {
  }

  lemma {:induction false} EmptyObject(v: Value, f: Format, indent: int, depth: nat)
    requires v.Object? && v.members == []
    ensures DumpText(v, f, indent, depth) == "{}"
  {
  }

  lemma {:induction false} OpenArray(v: Value, f: Format, indent: int, depth: nat)
    requires v.Array? && v.items != []
    ensures DumpText(v, f, indent, depth) == "[" + ElemsLeft(v, f, indent, depth, 0)
  {
  }

  lemma {:induction false} OpenObject(v: Value, f: Format, indent: int, depth: nat)
    requires v.Object? && v.members != []
    ensures DumpText(v, f, indent, depth) == "{" + EntriesLeft(v, f, indent, depth, 0)
  {
  }

  class Writer {
    var out: string

    constructor ()
      ensures out == ""
    {
      out := "";
    }

    method DumpString(s: string)
      modifies this
      ensures out == old(out) + QuotedText(EscapeToks(s), "")
    {
      ToksTextThen(EscapeToks(s), ['"'] + "");
      var e := JsStringEscape(s);
      out := out + "\"" + e + "\"";
    }

    /** The integer branch of `dump_number`. */
    method DumpInteger(n: int)
      modifies this
      ensures out == old(out) + NumText(IntTok(n), "")
    {
      var d := NatText(if n < 0 then -n else n);
      assert NumText(IntTok(n), "") == SignText(n < 0, d);
      out := out + (if n < 0 then "-" + d else d);
    }

    method DumpNumber(n: real, f: Format)
      modifies this
      ensures out == old(out) + NumText(Shown(n, f), "")
    {
      if IsShort(n) {
        DumpInteger(n.Floor);
      } else {
        out := out + NumText(f(n), "");
      }
    }

    method Newline(indent: int, depth: nat)
      modifies this
      ensures out == old(out) + NewlineIndent(indent, depth)
    {
      if indent < 0 {
        return;
      }
      out := out + "\n";
      out := out + seq(indent * depth, _ => ' ');
    }

    method DumpValue(v: Value, f: Format, indent: int, depth: nat)
        modifies this
      ensures out == old(out) + DumpText(v, f, indent, depth)
      decreases v, 1
    {
      match v {
        case Null => out := out + "null";
        case Bool(b) => out := out + if b then "true" else "false";
        case Number(n) => DumpNumber(n, f);
        case Str(s) => DumpString(s);
        case Array(items) => DumpArray(v, f, indent, depth);
        case Object(ms) => DumpObject(v, f, indent, depth);
      }
    }

    /** One round of the array loop. */
    method DumpElem(v: Value, f: Format, indent: int, depth: nat, i: nat)
      requires v.Array? && i < |v.items|
      modifies this
      ensures old(out) + ElemsLeft(v, f, indent, depth, i) == out + ElemsLeft(v, f, indent, depth, i + 1)
      decreases v, 0, 0
    {
      hide ElemsLeft, DumpText, NewlineIndent;
      DumpElemsText(v, f, indent, depth, i);
      Regroup(out, NewlineIndent(indent, depth + 1), DumpText(v.items[i], f, indent, depth + 1),
              Comma(i, |v.items|), ElemsLeft(v, f, indent, depth, i + 1));
      Newline(indent, depth + 1);
      DumpValue(v.items[i], f, indent, depth + 1);
      out := out + if i + 1 < |v.items| then "," else "";
    }

    method DumpArray(v: Value, f: Format, indent: int, depth: nat)
      requires v.Array?
      modifies this
      ensures out == old(out) + DumpText(v, f, indent, depth)
      decreases v, 0, 1
    {
      hide Text, ElemsText, DumpElems, DumpTree;
      if v.items == [] {
        EmptyArray(v, f, indent, depth);
        out := out + "[]";
        return;
      }
      OpenArray(v, f, indent, depth);
      out := out + "[";
      ghost var goal := old(out) + DumpText(v, f, indent, depth);
      for i := 0 to |v.items|
        invariant goal == out + ElemsLeft(v, f, indent, depth, i)
      {
        DumpElem(v, f, indent, depth, i);
      }
      Newline(indent, depth);
      out := out + "]";
    }

    /** One round of the object loop. */
    method DumpMember(v: Value, f: Format, indent: int, depth: nat, i: nat)
      requires v.Object? && i < |v.members|
      modifies this
      ensures old(out) + EntriesLeft(v, f, indent, depth, i)
              == out + EntriesLeft(v, f, indent, depth, i + 1)
      decreases v, 0, 0
    {
      hide EntriesLeft, DumpText, NewlineIndent, QuotedText;
      var m := v.members[i];
      ghost var text := DumpText(m.value, f, indent, depth + 1);
      ghost var comma, left := Comma(i, |v.members|), EntriesLeft(v, f, indent, depth, i + 1);
      DumpEntriesText(v, f, indent, depth, i);
      Regroup(out, NewlineIndent(indent, depth + 1), QuotedText(EscapeToks(m.key), ""),
              ":" + ColonGap(indent), text + (comma + left));
      Newline(indent, depth + 1);
      DumpString(m.key);
      out := out + if indent >= 0 then ": " else ":";
      Regroup(out, "", text, comma, left);
      DumpValue(m.value, f, indent, depth + 1);
      out := out + if i + 1 < |v.members| then "," else "";
    }

    method DumpObject(v: Value, f: Format, indent: int, depth: nat)
      requires v.Object?
      modifies this
      ensures out == old(out) + DumpText(v, f, indent, depth)
      decreases v, 0, 1
    {
      hide Text, EntriesText, DumpEntries, DumpTree;
      if v.members == [] {
        EmptyObject(v, f, indent, depth);
        out := out + "{}";
        return;
      }
      OpenObject(v, f, indent, depth);
      out := out + "{";
      ghost var goal := old(out) + DumpText(v, f, indent, depth);
      for i := 0 to |v.members|
        invariant goal == out + EntriesLeft(v, f, indent, depth, i)
      {
        DumpMember(v, f, indent, depth, i);
      }
      Newline(indent, depth);
      out := out + "}";
    }
  }

  function DumpAll(v: Value, f: Format, indent: int): string
  {
    DumpText(v, f, indent, 0) + (if indent >= 0 then "\n" else "")
  }

  /** `json::dump`. */
  method Dump(v: Value, f: Format, indent: int) returns (out: string)
    ensures out == DumpAll(v, f, indent)
  {
    var w := new Writer();
    w.DumpValue(v, f, indent, 0);
    out := w.out;
    if indent >= 0 {
      out := out + "\n";
    }
  }

  // ---- the tree of a value denotes the value ----

  lemma {:induction false} DumpTreeDenotes(v: Value, f: Format, indent: int, depth: nat, h: int)
    requires Printable(v, f) && DistinctKeys(v) && HeightWithin(v, h)
    ensures var t := DumpTree(v, f, indent, depth);
            Wf(t) && InRange(t) && Height(t) <= h && Meaning(t) == v
    decreases v, 1, 0
  {
    match v
    case Number(n) =>
      if IsShort(n) {
        IntTokValue(n.Floor);
      }
    case Str(s) => EscapeMeaningIs(s);
    case Array(items) => DumpElemsDenote(v, f, indent, depth, 0, h);
    case Object(ms) =>
      DumpEntriesDenote(v, f, indent, depth, 0, h);
      DedupDistinct(ms);
    case _ =>
  }

  lemma {:induction false} NotNegative(v: Value, h: int)
    requires HeightWithin(v, h)
    ensures h >= 0
  {
  }

  lemma {:induction false} ItemParts(v: Value, f: Format, i: nat, h: int)
    requires v.Array? && Printable(v, f) && DistinctKeys(v) && HeightWithin(v, h) && i < |v.items|
    ensures Printable(v.items[i], f) && DistinctKeys(v.items[i]) && HeightWithin(v.items[i], h - 1)
  {
  }

  lemma {:induction false} MemberParts(v: Value, f: Format, i: nat, h: int)
    requires v.Object? && Printable(v, f) && DistinctKeys(v) && HeightWithin(v, h) && i < |v.members|
    ensures var x := v.members[i].value; Printable(x, f) && DistinctKeys(x) && HeightWithin(x, h - 1)
  {
  }

  lemma {:induction false} DumpElemsFirst(v: Value, f: Format, indent: int, depth: nat, i: nat) returns (e: Elem)
    requires v.Array? && i < |v.items|
    ensures DumpElems(v, f, indent, depth, i) == [e] + DumpElems(v, f, indent, depth, i + 1)
    ensures Ws(e.before) && Ws(e.after) && e.value == DumpTree(v.items[i], f, indent, depth + 1)
    ensures v.items[i..] == [v.items[i]] + v.items[i + 1..]
  {
    hide DumpTree;
    e := DumpElems(v, f, indent, depth, i)[0];
  }

  lemma {:induction false} DumpElemsDenote(v: Value, f: Format, indent: int, depth: nat, i: nat, h: int)
    requires v.Array? && Printable(v, f) && DistinctKeys(v) && HeightWithin(v, h) && i <= |v.items|
    ensures var es := DumpElems(v, f, indent, depth, i);
            ElemsWf(es) && ElemsInRange(es) && ElemsHeight(es) <= h && ElemsMeaning(es) == v.items[i..]
    decreases v, 0, |v.items| - i
  {
    hide DumpTree, DumpElems, Meaning, Wf, InRange, Height, Printable, DistinctKeys, HeightWithin, Text,
      ElemsText, ElemsWf, ElemsInRange, ElemsHeight, ElemsMeaning, Ws, Max;
    NotNegative(v, h);
    NoElems();
    if i < |v.items| {
      DumpElemsDenote(v, f, indent, depth, i + 1, h);
      ItemParts(v, f, i, h);
      DumpTreeDenotes(v.items[i], f, indent, depth + 1, h - 1);
      var e := DumpElemsFirst(v, f, indent, depth, i);
      ElemsCons(e, DumpElems(v, f, indent, depth, i + 1), "");
      Higher(Height(e.value), ElemsHeight(DumpElems(v, f, indent, depth, i + 1)), h);
    }
  }

  lemma {:induction false} Higher(a: nat, b: nat, h: int)
    requires a <= h - 1 && b <= h
    ensures Max(1 + a, b) <= h
  {
  }

  lemma {:induction false} DumpEntriesFirst(v: Value, f: Format, indent: int, depth: nat, i: nat) returns (e: Entry)
    requires v.Object? && i < |v.members|
    ensures DumpEntries(v, f, indent, depth, i) == [e] + DumpEntries(v, f, indent, depth, i + 1)
    ensures Ws(e.before) && Ws(e.colonL) && Ws(e.colonR) && Ws(e.after)
    ensures e.key == EscapeToks(v.members[i].key) && e.value == DumpTree(v.members[i].value, f, indent, depth + 1)
    ensures v.members[i..] == [v.members[i]] + v.members[i + 1..]
  {
    hide DumpTree, EscapeToks;
    e := DumpEntries(v, f, indent, depth, i)[0];
  }

  lemma {:induction false} DumpEntriesDenote(v: Value, f: Format, indent: int, depth: nat, i: nat, h: int)
    requires v.Object? && Printable(v, f) && DistinctKeys(v) && HeightWithin(v, h)
    requires i <= |v.members|
    ensures var es := DumpEntries(v, f, indent, depth, i);
            && EntriesWf(es) && EntriesInRange(es) && EntriesHeight(es) <= h
            && EntriesMeaning(es) == v.members[i..]
    decreases v, 0, |v.members| - i
  {
    hide DumpTree, DumpEntries, Meaning, Wf, InRange, Height, Printable, DistinctKeys, HeightWithin, Text,
      EntriesText, EntriesWf, EntriesInRange, EntriesHeight, EntriesMeaning, Ws, Max, ToksWf, QuotedText,
      EscapeToks, StringMeaning;
    NotNegative(v, h);
    NoElems();
    if i < |v.members| {
      DumpEntriesDenote(v, f, indent, depth, i + 1, h);
      MemberParts(v, f, i, h);
      DumpTreeDenotes(v.members[i].value, f, indent, depth + 1, h - 1);
      EscapeMeaningIs(v.members[i].key);
      var e := DumpEntriesFirst(v, f, indent, depth, i);
      EntriesCons(e, DumpEntries(v, f, indent, depth, i + 1), "");
      Higher(Height(e.value), EntriesHeight(DumpEntries(v, f, indent, depth, i + 1)), h);
    }
  }

  lemma {:induction false} DedupDistinct(ms: seq<Member>)
    requires forall i, j :: 0 <= i < j < |ms| ==> ms[i].key != ms[j].key
    ensures Dedup(ms) == ms
  {
    if ms != [] {
      var front, m := ms[..|ms| - 1], ms[|ms| - 1];
      assert ms == front + [m];
      DedupDistinct(front);
      DedupSnoc(front, m);
      UpsertAt(front, |front|, m);
    }
  }

  // ---- what the parser returns ----

  predicate Tidy(v: Value, h: int) {
    DistinctKeys(v) && HeightWithin(v, h)
  }

  lemma {:induction false} MeaningTidy(t: Tree)
    requires Wf(t)
    ensures Tidy(Meaning(t), Height(t))
    decreases t, 1
  {
    match t
    case TArr(_, es) =>
      ElemsTidy(es);
      TidyArray(ElemsMeaning(es), ElemsHeight(es));
    case TObj(_, es) =>
      var all := EntriesMeaning(es);
      EntriesTidy(es);
      FirstKeysDistinct(all);
      TidyObject(all, EntriesHeight(es));
    case _ =>
  }

  lemma {:induction false} TidyArray(items: seq<Value>, h: nat)
    requires forall x :: x in items ==> Tidy(x, h - 1)
    ensures Tidy(Array(items), h)
  {
    forall i | 0 <= i < |items| ensures Tidy(items[i], h - 1) {
      assert items[i] in items;
    }
    assert forall i :: 0 <= i < |items| ==> Tidy(items[i], h - 1);
  }

  lemma {:induction false} TidyObject(ms: seq<Member>, h: nat)
    requires forall m :: m in ms ==> Tidy(m.value, h - 1)
    ensures Tidy(Object(Dedup(ms)), h)
  {
    hide LastValue;
    var d := Dedup(ms);
    FirstKeysDistinct(ms);
    forall i | 0 <= i < |d| ensures Tidy(d[i].value, h - 1) {
      LastValueFrom(ms, d[i].key);
    }
    assert forall i :: 0 <= i < |d| ==> Tidy(d[i].value, h - 1);
  }

  lemma {:induction false} LastValueFrom(ms: seq<Member>, k: string)
    requires HasKey(ms, k)
    ensures exists i :: 0 <= i < |ms| && ms[i].key == k && ms[i].value == LastValue(ms, k)
  {
    var front := ms[..|ms| - 1];
    if ms[|ms| - 1].key != k {
      LastValueFrom(front, k);
      var i :| 0 <= i < |front| && front[i].key == k && front[i].value == LastValue(front, k);
      assert ms[i] == front[i];
    }
  }

  lemma {:induction false} HigherStill(v: Value, h: int, h': int)
    requires HeightWithin(v, h) && h <= h'
    ensures HeightWithin(v, h')
    decreases v
  {
    match v
    case Array(items) =>
      forall i | 0 <= i < |items| ensures HeightWithin(items[i], h' - 1) {
        HigherStill(items[i], h - 1, h' - 1);
      }
    case Object(ms) =>
      forall i | 0 <= i < |ms| ensures HeightWithin(ms[i].value, h' - 1) {
        HigherStill(ms[i].value, h - 1, h' - 1);
      }
    case _ =>
  }

  lemma {:induction false} TidyHigher(v: Value, h: int, h': int)
    requires Tidy(v, h) && h <= h'
    ensures Tidy(v, h')
  {
    HigherStill(v, h, h');
  }

  lemma {:induction false} ElemsTidy(es: seq<Elem>)
    requires ElemsWf(es)
    ensures forall x :: x in ElemsMeaning(es) ==> Tidy(x, ElemsHeight(es) - 1)
    decreases es, 0
  {
    hide Tidy, Meaning, Wf, Height;
    if es != [] {
      MeaningTidy(es[0].value);
      ElemsTidy(es[1..]);
      var vs, rest, h := ElemsMeaning(es), ElemsMeaning(es[1..]), ElemsHeight(es) - 1;
      TidyHigher(vs[0], Height(es[0].value), h);
      forall x | x in rest ensures Tidy(x, h) {
        TidyHigher(x, ElemsHeight(es[1..]) - 1, h);
      }
    }
  }

  lemma {:induction false} EntriesTidy(es: seq<Entry>)
    requires EntriesWf(es)
    ensures forall m :: m in EntriesMeaning(es) ==> Tidy(m.value, EntriesHeight(es) - 1)
    decreases es, 0
  {
    hide Tidy, Meaning, Wf, Height, StringMeaning;
    if es != [] {
      MeaningTidy(es[0].value);
      EntriesTidy(es[1..]);
      var ms, rest, h := EntriesMeaning(es), EntriesMeaning(es[1..]), EntriesHeight(es) - 1;
      TidyHigher(ms[0].value, Height(es[0].value), h);
      forall m | m in rest ensures Tidy(m.value, h) {
        TidyHigher(m.value, EntriesHeight(es[1..]) - 1, h);
      }
    }
  }

  lemma {:induction false} ParsedIsTidy(text: string)
    requires Parse(text).Some?
    ensures DistinctKeys(Parse(text).value) && HeightWithin(Parse(text).value, MAX_DEPTH)
  {
    var lead, t, trail := ParseSound(text);
    MeaningTidy(t);
    HigherStill(Meaning(t), Height(t), MAX_DEPTH);
  }

  // ---- what the parser returns can be printed ----

  lemma {:induction false} MeaningPrintable(t: Tree, f: Format)
    requires Wf(t) && InRange(t) && Inverts(f)
    ensures Printable(Meaning(t), f)
    decreases t, 1
  {
    hide Inverts, ReadsBack;
    match t
    case TNum(n) => NumberReadsBack(n, f);
    case TArr(_, es) =>
      ElemsPrintable(es, f);
      PrintableArray(ElemsMeaning(es), f);
    case TObj(_, es) =>
      EntriesPrintable(es, f);
      PrintableObject(EntriesMeaning(es), f);
    case _ =>
  }

  lemma {:induction false} NumberReadsBack(n: NumTok, f: Format)
    requires NumWf(n) && FiniteDouble(NumValue(n)) && Inverts(f)
    ensures ReadsBack(f, Round(NumValue(n)))
  {
    hide ReadsBack;
  }

  lemma {:induction false} PrintableArray(items: seq<Value>, f: Format)
    requires forall x :: x in items ==> Printable(x, f)
    ensures Printable(Array(items), f)
  {
    forall i | 0 <= i < |items| ensures Printable(items[i], f) {
      assert items[i] in items;
    }
  }

  lemma {:induction false} PrintableObject(ms: seq<Member>, f: Format)
    requires forall m :: m in ms ==> Printable(m.value, f)
    ensures Printable(Object(Dedup(ms)), f)
  {
    hide LastValue;
    var d := Dedup(ms);
    FirstKeysDistinct(ms);
    forall i | 0 <= i < |d| ensures Printable(d[i].value, f) {
      LastValueFrom(ms, d[i].key);
    }
  }

  lemma {:induction false} ElemsPrintable(es: seq<Elem>, f: Format)
    requires ElemsWf(es) && ElemsInRange(es) && Inverts(f)
    ensures forall x :: x in ElemsMeaning(es) ==> Printable(x, f)
    decreases es, 0
  {
    hide Printable, Meaning, Wf, InRange, Inverts;
    if es != [] {
      MeaningPrintable(es[0].value, f);
      ElemsPrintable(es[1..], f);
    }
  }

  lemma {:induction false} EntriesPrintable(es: seq<Entry>, f: Format)
    requires EntriesWf(es) && EntriesInRange(es) && Inverts(f)
    ensures forall m :: m in EntriesMeaning(es) ==> Printable(m.value, f)
    decreases es, 0
  {
    hide Printable, Meaning, Wf, InRange, Inverts, StringMeaning;
    if es != [] {
      MeaningPrintable(es[0].value, f);
      EntriesPrintable(es[1..], f);
    }
  }

  lemma {:induction false} ParsedIsPrintable(text: string, f: Format)
    requires Parse(text).Some? && Inverts(f)
    ensures Printable(Parse(text).value, f)
  {
    hide Inverts;
    var lead, t, trail := ParseSound(text);
    MeaningPrintable(t, f);
  }

  ghost function SomeText(x: real): NumTok {
    if exists t: NumTok :: Denotes(t, x) then (var t: NumTok :| Denotes(t, x); t) else IntTok(0)
  }

  /** There is such a format. */
  lemma {:induction false} SomeFormatInverts()
    ensures Inverts(SomeText)
  {
    hide NumValue, NumWf, FiniteDouble, Round;
    forall t: NumTok | NumWf(t) && FiniteDouble(NumValue(t)) ensures ReadsBack(SomeText, Round(NumValue(t))) {
      assert Denotes(t, Round(NumValue(t)));
      assert Denotes(SomeText(Round(NumValue(t))), Round(NumValue(t)));
    }
  }

  // ---- round trips ----

  /** Writing and reading back gives the value exactly when its keys are distinct and it is no deeper
      than the parser's cap, whatever the indent and the bytes of its strings. */
  lemma {:induction false} DumpThenParse(v: Value, f: Format, indent: int)
    requires Printable(v, f)
    ensures Parse(DumpAll(v, f, indent)) == Some(v) <==> DistinctKeys(v) && HeightWithin(v, MAX_DEPTH)
  {
    hide Printable, DistinctKeys, HeightWithin, DumpTree, Text, Meaning, Wf, InRange, Height, Parse;
    if DistinctKeys(v) && HeightWithin(v, MAX_DEPTH) {
      DumpTreeDenotes(v, f, indent, 0, MAX_DEPTH);
      var t := DumpTree(v, f, indent, 0);
      var trail := if indent >= 0 then "\n" else "";
      TextThen(t, trail);
      assert "" + Text(t, trail) == DumpAll(v, f, indent);
      ParseComplete(DumpAll(v, f, indent), "", t, trail);
    }
    if Parse(DumpAll(v, f, indent)) == Some(v) {
      ParsedIsTidy(DumpAll(v, f, indent));
    }
  }

  /** Rewriting a parsed document keeps its value, if its numbers are formatted so that they read back; */
  lemma {:induction false} ParseDumpParse(text: string, f: Format, indent: int)
    requires Parse(text).Some? && Printable(Parse(text).value, f)
    ensures Parse(DumpAll(Parse(text).value, f, indent)) == Parse(text)
  {
    hide Printable;
    ParsedIsTidy(text);
    DumpThenParse(Parse(text).value, f, indent);
  }

  /** and that is so for every document where every double is. */
  lemma {:induction false} RewritingKeepsValue(text: string, f: Format, indent: int)
    requires Parse(text).Some? && Inverts(f)
    ensures Parse(DumpAll(Parse(text).value, f, indent)) == Parse(text)
  {
    hide Inverts, Printable;
    ParsedIsPrintable(text, f);
    ParseDumpParse(text, f, indent);
  }
}
