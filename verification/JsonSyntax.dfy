/** JSON values (launcher/src/json.hpp) and the concrete syntax of RFC 8259 as derivation trees.

    A byte string is a `string` whose characters are below 256; nothing here depends on that bound.
    A tree is one derivation of the grammar. `Text(t, x)` is the string it derives with `x` after it
    (`Text(t, x) == Text(t, "") + x`, see `TextThen`), `Meaning(t)` the value it denotes. Neither
    mentions the parser. */
module JsonSyntax {
  import opened Doubles

  datatype Value =
    | Null
    | Bool(b: bool)
    | Number(n: real)
    | Str(s: string)
    | Array(items: seq<Value>)
    | Object(members: seq<Member>)

  datatype Member = Member(key: string, value: Value)

  const MAX_DEPTH := 64

  // ---- whitespace (section 2) ----

  predicate IsWs(c: char) {
    c == ' ' || c == '\t' || c == '\n' || c == '\r'
  }

  predicate Ws(w: string) {
    forall i :: 0 <= i < |w| ==> IsWs(w[i])
  }

  // ---- strings (section 7) ----

  /** One element of a string literal: a raw character, a two-character escape, or a `\u` escape. */
  datatype CharTok = Plain(c: char) | Esc(e: char) | U(h: string)

  predicate IsDigit(c: char) {
    '0' <= c <= '9'
  }

  predicate IsHex(c: char) {
    IsDigit(c) || 'a' <= c <= 'f' || 'A' <= c <= 'F'
  }

  function HexDigit(c: char): nat
    requires IsHex(c)
  {
    if IsDigit(c) then c as int - '0' as int
    else if 'a' <= c <= 'f' then c as int - 'a' as int + 10
    else c as int - 'A' as int + 10
  }

  predicate IsHex4(h: string) {
    |h| == 4 && IsHex(h[0]) && IsHex(h[1]) && IsHex(h[2]) && IsHex(h[3])
  }

  function Hex4Value(h: string): (cp: nat)
    requires IsHex4(h)
    ensures cp < 0x10000
  {
    4096 * HexDigit(h[0]) + 256 * HexDigit(h[1]) + 16 * HexDigit(h[2]) + HexDigit(h[3])
  }

  predicate IsEscape(e: char) {
    e in "\"\\/bfnrt"
  }

  function EscapeMeaning(e: char): char
    requires IsEscape(e)
  {
    match e
    case 'b' => '\U{8}'
    case 'f' => '\U{c}'
    case 'n' => '\n'
    case 'r' => '\r'
    case 't' => '\t'
    case _ => e
  }

  predicate TokWf(t: CharTok) {
    match t
    case Plain(c) => c as int >= 0x20 && c != '"' && c != '\\'
    case Esc(e) => IsEscape(e)
    case U(h) => IsHex4(h)
  }

  predicate ToksWf(ts: seq<CharTok>) {
    forall i :: 0 <= i < |ts| ==> TokWf(ts[i])
  }

  function TokText(t: CharTok, x: string): string {
    match t
    case Plain(c) => [c] + x
    case Esc(e) => ['\\', e] + x
    case U(h) => ("\\u" + h) + x
  }

  function ToksText(ts: seq<CharTok>, x: string): string {
    if ts == [] then x else TokText(ts[0], ToksText(ts[1..], x))
  }

  /** UTF-8 (RFC 3629) of one code point; surrogate code points get their three-byte form. */
  function Utf8(cp: nat): string
    requires cp < 0x110000
  {
    if cp < 0x80 then [cp as char]
    else if cp < 0x800 then [(0xC0 + cp / 64) as char, (0x80 + cp % 64) as char]
    else if cp < 0x10000 then
      [(0xE0 + cp / 4096) as char, (0x80 + cp / 64 % 64) as char, (0x80 + cp % 64) as char]
    else
      [(0xF0 + cp / 262144) as char, (0x80 + cp / 4096 % 64) as char,
       (0x80 + cp / 64 % 64) as char, (0x80 + cp % 64) as char]
  }

  predicate IsHigh(t: CharTok)
    requires TokWf(t)
  {
    t.U? && 0xD800 <= Hex4Value(t.h) <= 0xDBFF
  }

  predicate IsLow(t: CharTok)
    requires TokWf(t)
  {
    t.U? && 0xDC00 <= Hex4Value(t.h) <= 0xDFFF
  }

  function TokMeaning(t: CharTok): string
    requires TokWf(t)
  {
    match t
    case Plain(c) => [c]
    case Esc(e) => [EscapeMeaning(e)]
    case U(h) => Utf8(Hex4Value(h))
  }

  function JoinSurrogates(hi: CharTok, lo: CharTok): (cp: nat)
    requires TokWf(hi) && TokWf(lo) && IsHigh(hi) && IsLow(lo)
    ensures 0x10000 <= cp < 0x110000
  {
    0x10000 + (Hex4Value(hi.h) - 0xD800) * 0x400 + (Hex4Value(lo.h) - 0xDC00)
  }

  /** The bytes a string literal denotes: a high surrogate joins the low one right after it; any
      other surrogate stands alone. */
  function StringMeaning(ts: seq<CharTok>): string
    requires ToksWf(ts)
  {
    if ts == [] then ""
    else if |ts| >= 2 && IsHigh(ts[0]) && IsLow(ts[1]) then
      Utf8(JoinSurrogates(ts[0], ts[1])) + StringMeaning(ts[2..])
    else TokMeaning(ts[0]) + StringMeaning(ts[1..])
  }

  // ---- numbers (section 6) ----

  datatype ExpTok = NoExp | Exp(e: char, sign: string, digits: string)

  /** `frac` is "" when there is no fraction part. */
  datatype NumTok = NumTok(neg: bool, whole: string, frac: string, exp: ExpTok)

  predicate Digits(d: string) {
    forall i :: 0 <= i < |d| ==> IsDigit(d[i])
  }

  predicate WholeWf(d: string) {
    d != "" && Digits(d) && (d[0] == '0' ==> |d| == 1)
  }

  predicate ExpWf(x: ExpTok) {
    x.Exp? ==>
      && (x.e == 'e' || x.e == 'E')
      && (x.sign == "" || x.sign == "+" || x.sign == "-")
      && x.digits != "" && Digits(x.digits)
  }

  predicate NumWf(n: NumTok) {
    WholeWf(n.whole) && Digits(n.frac) && ExpWf(n.exp)
  }

  function ExpText(e: ExpTok, x: string): string {
    if e.NoExp? then x else [e.e] + (e.sign + (e.digits + x))
  }

  function FracText(frac: string, x: string): string {
    if frac == "" then x else ['.'] + (frac + x)
  }

  function SignText(neg: bool, x: string): string {
    if neg then ['-'] + x else x
  }

  function NumText(n: NumTok, x: string): string {
    SignText(n.neg, n.whole + FracText(n.frac, ExpText(n.exp, x)))
  }

  function DigitsValue(d: string): nat
    requires Digits(d)
  {
    if d == "" then 0
    else 10 * DigitsValue(d[..|d| - 1]) + (d[|d| - 1] as int - '0' as int)
  }

  /** The decimal a token stands for. */
  function NumValue(n: NumTok): real
    requires NumWf(n)
  {
    var mag := DigitsValue(n.whole) as real
               + DigitsValue(n.frac) as real / Pow(10, |n.frac|) as real;
    var scaled := if n.exp.NoExp? then mag
                  else if n.exp.sign == "-" then mag / Pow(10, DigitsValue(n.exp.digits)) as real
                  else mag * Pow(10, DigitsValue(n.exp.digits)) as real;
    if n.neg then -scaled else scaled
  }

  // ---- values, arrays, objects (sections 3 to 5) ----

  /** `gap` is the whitespace between the brackets of an empty array or object, else "". */
  datatype Tree =
    | TNull
    | TTrue
    | TFalse
    | TNum(num: NumTok)
    | TStr(toks: seq<CharTok>)
    | TArr(gap: string, elems: seq<Elem>)
    | TObj(gap: string, entries: seq<Entry>)

  datatype Elem = Elem(before: string, value: Tree, after: string)

  datatype Entry = Entry(before: string, key: seq<CharTok>, colonL: string, colonR: string,
                         value: Tree, after: string)

  function QuotedText(toks: seq<CharTok>, x: string): string {
    ['"'] + ToksText(toks, ['"'] + x)
  }

  function Text(t: Tree, x: string): string
    decreases t, 1
  {
    match t
    case TNull => "null" + x
    case TTrue => "true" + x
    case TFalse => "false" + x
    case TNum(n) => NumText(n, x)
    case TStr(ts) => QuotedText(ts, x)
    case TArr(gap, es) => ['['] + (if es == [] then gap + ([']'] + x) else ElemsText(es, x))
    case TObj(gap, es) => ['{'] + (if es == [] then gap + (['}'] + x) else EntriesText(es, x))
  }

  /** The elements of a non-empty array with their separators and the closing bracket. */
  function ElemsText(es: seq<Elem>, x: string): string
    requires es != []
    decreases es, 0
  {
    var sep := if |es| == 1 then [']'] + x else [','] + ElemsText(es[1..], x);
    es[0].before + Text(es[0].value, es[0].after + sep)
  }

  function EntriesText(es: seq<Entry>, x: string): string
    requires es != []
    decreases es, 0
  {
    var e := es[0];
    var sep := if |es| == 1 then ['}'] + x else [','] + EntriesText(es[1..], x);
    e.before + QuotedText(e.key, e.colonL + ([':'] + (e.colonR + Text(e.value, e.after + sep))))
  }

  predicate Wf(t: Tree)
    decreases t, 1
  {
    match t
    case TNum(n) => NumWf(n)
    case TStr(ts) => ToksWf(ts)
    case TArr(gap, es) => Ws(gap) && (es != [] ==> gap == "") && ElemsWf(es)
    case TObj(gap, es) => Ws(gap) && (es != [] ==> gap == "") && EntriesWf(es)
    case _ => true
  }

  predicate ElemsWf(es: seq<Elem>)
    decreases es, 0
  {
    es != [] ==> Ws(es[0].before) && Wf(es[0].value) && Ws(es[0].after) && ElemsWf(es[1..])
  }

  predicate EntriesWf(es: seq<Entry>)
    decreases es, 0
  {
    es != [] ==>
      && Ws(es[0].before) && ToksWf(es[0].key) && Ws(es[0].colonL) && Ws(es[0].colonR)
      && Wf(es[0].value) && Ws(es[0].after) && EntriesWf(es[1..])
  }

  function Max(a: nat, b: nat): nat {
    if a < b then b else a
  }

  /** Nesting depth: the number of arrays and objects around the innermost value. */
  function Height(t: Tree): nat
    decreases t, 1
  {
    match t
    case TArr(_, es) => ElemsHeight(es)
    case TObj(_, es) => EntriesHeight(es)
    case _ => 0
  }

  function ElemsHeight(es: seq<Elem>): nat
    decreases es, 0
  {
    if es == [] then 0 else Max(1 + Height(es[0].value), ElemsHeight(es[1..]))
  }

  function EntriesHeight(es: seq<Entry>): nat
    decreases es, 0
  {
    if es == [] then 0 else Max(1 + Height(es[0].value), EntriesHeight(es[1..]))
  }

  predicate InRange(t: Tree)
    requires Wf(t)
    decreases t, 1
  {
    match t
    case TNum(n) => FiniteDouble(NumValue(n))
    case TArr(_, es) => ElemsInRange(es)
    case TObj(_, es) => EntriesInRange(es)
    case _ => true
  }

  predicate ElemsInRange(es: seq<Elem>)
    requires ElemsWf(es)
    decreases es, 0
  {
    es != [] ==> InRange(es[0].value) && ElemsInRange(es[1..])
  }

  predicate EntriesInRange(es: seq<Entry>)
    requires EntriesWf(es)
    decreases es, 0
  {
    es != [] ==> InRange(es[0].value) && EntriesInRange(es[1..])
  }

  // ---- duplicate keys ----

  predicate HasKey(ms: seq<Member>, k: string) {
    exists i :: 0 <= i < |ms| && ms[i].key == k
  }

  /** The value of the last pair with key `k`. */
  function LastValue(ms: seq<Member>, k: string): Value
    requires HasKey(ms, k)
  {
    var last := ms[|ms| - 1];
    if last.key == k then last.value else LastValue(ms[..|ms| - 1], k)
  }

  /** The keys of `ms` in order of first occurrence. */
  function FirstKeys(ms: seq<Member>): seq<string> {
    if ms == [] then []
    else
      var front := ms[..|ms| - 1];
      var k := ms[|ms| - 1].key;
      if HasKey(front, k) then FirstKeys(front) else FirstKeys(front) + [k]
  }

  lemma {:induction false} FirstKeysHave(ms: seq<Member>, k: string)
    ensures k in FirstKeys(ms) <==> HasKey(ms, k)
  {
    if ms != [] {
      var front := ms[..|ms| - 1];
      FirstKeysHave(front, k);
      assert HasKey(ms, k) <==> HasKey(front, k) || ms[|ms| - 1].key == k by {
        assert ms == front + [ms[|ms| - 1]];
        if HasKey(front, k) {
          var i :| 0 <= i < |front| && front[i].key == k;
          assert ms[i].key == k;
        }
      }
      if ms[|ms| - 1].key != k && k in FirstKeys(ms) {
        assert k in FirstKeys(front);
      }
    }
  }

  /** An object keeps one member per key: the last duplicate wins, in the first one's position. */
  function Dedup(ms: seq<Member>): (r: seq<Member>)
    ensures |r| == |FirstKeys(ms)|
    ensures forall i :: 0 <= i < |r| ==> HasKey(ms, r[i].key) && r[i].key == FirstKeys(ms)[i]
    ensures forall i :: 0 <= i < |r| ==> r[i].value == LastValue(ms, r[i].key)
  {
    forall k ensures k in FirstKeys(ms) <==> HasKey(ms, k) { FirstKeysHave(ms, k); }
    var ks := FirstKeys(ms);
    seq(|ks|, i requires 0 <= i < |ks| =>
      assert ks[i] in ks; Member(ks[i], LastValue(ms, ks[i])))
  }

  function Meaning(t: Tree): Value
    requires Wf(t)
    decreases t, 1
  {
    match t
    case TNull => Null
    case TTrue => Bool(true)
    case TFalse => Bool(false)
    case TNum(n) => Number(Round(NumValue(n)))
    case TStr(ts) => Str(StringMeaning(ts))
    case TArr(_, es) => Array(ElemsMeaning(es))
    case TObj(_, es) => Object(Dedup(EntriesMeaning(es)))
  }

  function ElemsMeaning(es: seq<Elem>): seq<Value>
    requires ElemsWf(es)
    decreases es, 0
  {
    if es == [] then [] else [Meaning(es[0].value)] + ElemsMeaning(es[1..])
  }

  function EntriesMeaning(es: seq<Entry>): seq<Member>
    requires EntriesWf(es)
    decreases es, 0
  {
    if es == [] then []
    else [Member(StringMeaning(es[0].key), Meaning(es[0].value))] + EntriesMeaning(es[1..])
  }

  /** A document (section 2): one value between optional whitespace, nested at most MAX_DEPTH. */
  ghost predicate Derives(text: string, lead: string, t: Tree, trail: string) {
    && Ws(lead) && Ws(trail) && Wf(t)
    && text == lead + Text(t, trail)
    && Height(t) <= MAX_DEPTH && InRange(t)
  }

  // ---- `Text(t, x)` is a string followed by `x` ----

  lemma {:induction false} ToksTextThen(ts: seq<CharTok>, x: string)
    ensures ToksText(ts, x) == ToksText(ts, "") + x
  {
    if ts != [] {
      ToksTextThen(ts[1..], x);
    }
  }

  lemma {:induction false} QuotedTextThen(ts: seq<CharTok>, x: string)
    ensures QuotedText(ts, x) == QuotedText(ts, "") + x
  {
    ToksTextThen(ts, ['"'] + x);
    ToksTextThen(ts, ['"']);
    assert ['"'] + "" == ['"'];
  }

  lemma {:induction false} NumTextThen(n: NumTok, x: string)
    ensures NumText(n, x) == NumText(n, "") + x
  {
    assert ExpText(n.exp, x) == ExpText(n.exp, "") + x;
    assert FracText(n.frac, ExpText(n.exp, x)) == FracText(n.frac, ExpText(n.exp, "")) + x;
  }

  lemma {:induction false} TextThen(t: Tree, x: string)
    ensures Text(t, x) == Text(t, "") + x
    decreases t, 1
  {
    hide NumText, QuotedText, ElemsText, EntriesText;
    match t
    case TStr(ts) => QuotedTextThen(ts, x);
    case TArr(_, es) => if es != [] { ElemsTextThen(es, x); }
    case TObj(_, es) => if es != [] { EntriesTextThen(es, x); }
    case TNum(n) => NumTextThen(n, x);
    case _ =>
  }

  lemma {:induction false} ElemsTextThen(es: seq<Elem>, x: string)
    requires es != []
    ensures ElemsText(es, x) == ElemsText(es, "") + x
    decreases es, 0
  {
    var sep := if |es| == 1 then [']'] + x else [','] + ElemsText(es[1..], x);
    var sep' := if |es| == 1 then [']'] + "" else [','] + ElemsText(es[1..], "");
    if |es| > 1 {
      ElemsTextThen(es[1..], x);
    }
    assert es[0].after + sep == (es[0].after + sep') + x;
    TextThen(es[0].value, es[0].after + sep);
    TextThen(es[0].value, es[0].after + sep');
  }

  lemma {:induction false} EntriesTextThen(es: seq<Entry>, x: string)
    requires es != []
    ensures EntriesText(es, x) == EntriesText(es, "") + x
    decreases es, 0
  {
    hide Text, QuotedText;
    var e := es[0];
    var sep := if |es| == 1 then ['}'] + x else [','] + EntriesText(es[1..], x);
    var sep' := if |es| == 1 then ['}'] + "" else [','] + EntriesText(es[1..], "");
    if |es| > 1 {
      EntriesTextThen(es[1..], x);
    }
    assert e.after + sep == (e.after + sep') + x;
    TextThen(e.value, e.after + sep);
    TextThen(e.value, e.after + sep');
    var r := e.colonL + ([':'] + (e.colonR + Text(e.value, e.after + sep)));
    var r' := e.colonL + ([':'] + (e.colonR + Text(e.value, e.after + sep')));
    assert r == r' + x;
    QuotedTextThen(e.key, r);
    QuotedTextThen(e.key, r');
  }
}
