/** The parser of launcher/src/json.cpp recognises exactly RFC 8259 and computes each text's meaning.

    `...Complete` lemmas run the parser over the text of a derivation tree; `...Sound` lemmas build
    the tree of a text the parser accepted. */
module JsonGrammar {
  import opened Options
  import opened Doubles
  import opened JsonSyntax
  import opened JsonParser

  // ---- whitespace ----

  lemma {:induction false} SkipWsOver(w: string, s: string)
    requires Ws(w) && (s == "" || !IsWs(s[0]))
    ensures SkipWs(w + s) == s
  {
    if w == "" {
      assert w + s == s;
    } else {
      assert (w + s)[1..] == w[1..] + s;
      SkipWsOver(w[1..], s);
    }
  }

  lemma {:induction false} SkipWsSplit(s: string) returns (w: string)
    ensures Ws(w) && s == w + SkipWs(s)
    ensures SkipWs(s) == "" || !IsWs(SkipWs(s)[0])
  {
    if s != "" && IsWs(s[0]) {
      var w' := SkipWsSplit(s[1..]);
      w := [s[0]] + w';
      assert w + SkipWs(s) == [s[0]] + (w' + SkipWs(s[1..]));
    } else {
      w := "";
    }
  }

  // ---- strings ----

  lemma {:induction false} HeadTokComplete(t: CharTok, x: string)
    requires TokWf(t)
    ensures HeadTok(TokText(t, x)) == Some(Parsed(t, x))
  {
    var s := TokText(t, x);
    if t.U? {
      assert s[..6] == "\\u" + t.h;
      assert s[2..6] == t.h;
      assert s[6..] == x;
    }
  }

  lemma {:induction false} HeadTokSound(s: string)
    requires HeadTok(s).Some?
    ensures s == TokText(HeadTok(s).value.value, HeadTok(s).value.rest)
  {
    if s[0] == '\\' && s[1] == 'u' {
      assert s[..2] == "\\u";
      assert s == ("\\u" + s[2..6]) + s[6..];
    }
  }

  /** The text of `ts` and a closing quote starts with `\u` only if `ts` starts with a `\u` escape. */
  lemma {:induction false} StartsWithU(ts: seq<CharTok>, x: string)
    requires ToksWf(ts)
    ensures StartsU(ToksText(ts, ['"'] + x)) <==> ts != [] && ts[0].U?
  {
  }

  lemma {:induction false} ToksCons(t: CharTok, ts: seq<CharTok>, x: string)
    requires TokWf(t) && ToksWf(ts)
    ensures ToksWf([t] + ts) && ToksText([t] + ts, x) == TokText(t, ToksText(ts, x))
    ensures !(IsHigh(t) && ts != [] && IsLow(ts[0])) ==>
              StringMeaning([t] + ts) == TokMeaning(t) + StringMeaning(ts)
  {
    assert ([t] + ts)[1..] == ts;
  }

  lemma {:induction false} PairMeaning(t: CharTok, t2: CharTok, ts: seq<CharTok>)
    requires TokWf(t) && TokWf(t2) && ToksWf(ts) && IsHigh(t) && IsLow(t2)
    ensures ToksWf([t] + ([t2] + ts))
    ensures StringMeaning([t] + ([t2] + ts)) == Utf8(JoinSurrogates(t, t2)) + StringMeaning(ts)
  {
    assert ([t] + ([t2] + ts))[2..] == ts;
  }

  lemma {:induction false} CharsComplete(ts: seq<CharTok>, x: string)
    requires ToksWf(ts)
    ensures Chars(ToksText(ts, ['"'] + x)) == Some(Parsed(StringMeaning(ts), x))
    decreases |ts|
  {
    if ts != [] {
      HeadTokComplete(ts[0], ToksText(ts[1..], ['"'] + x));
      StartsWithU(ts[1..], x);
      CharsComplete(ts[1..], x);
      if IsHigh(ts[0]) && |ts| >= 2 && ts[1].U? {
        assert ts[1..][1..] == ts[2..];
        HeadTokComplete(ts[1], ToksText(ts[2..], ['"'] + x));
        CharsComplete(ts[2..], x);
      }
    }
  }

  lemma {:induction false} CharsSound(s: string) returns (ts: seq<CharTok>)
    requires Chars(s).Some?
    ensures ToksWf(ts) && StringMeaning(ts) == Chars(s).value.value
    ensures s == ToksText(ts, ['"'] + Chars(s).value.rest)
    decreases |s|
  {
    var x := Chars(s).value.rest;
    if s[0] == '"' {
      return [];
    }
    HeadTokSound(s);
    var Parsed(t, rest) := HeadTok(s).value;
    if IsHigh(t) && StartsU(rest) && IsLow(HeadTok(rest).value.value) {
      var Parsed(t2, rest2) := HeadTok(rest).value;
      HeadTokSound(rest);
      ts := CharsSound(rest2);
      ToksCons(t2, ts, ['"'] + x);
      ToksCons(t, [t2] + ts, ['"'] + x);
      PairMeaning(t, t2, ts);
      ts := [t] + ([t2] + ts);
    } else {
      ts := CharsSound(rest);
      StartsWithU(ts, x);
      if ts != [] {
        HeadTokComplete(ts[0], ToksText(ts[1..], ['"'] + x));
      }
      ToksCons(t, ts, ['"'] + x);
      ts := [t] + ts;
    }
  }

  // ---- numbers ----

  /** What may come right after a value in a document. */
  predicate Follow(x: string) {
    x == "" || IsWs(x[0]) || x[0] in ",]}"
  }

  lemma {:induction false} DigitRunComplete(d: string, x: string)
    requires Digits(d) && (x == "" || !IsDigit(x[0]))
    ensures DigitRun(d + x) == |d|
  {
    if d == "" {
      assert d + x == x;
    } else {
      assert (d + x)[1..] == d[1..] + x;
      DigitRunComplete(d[1..], x);
    }
  }

  lemma {:induction false} SomeDigitsComplete(d: string, x: string)
    requires Digits(d) && d != "" && (x == "" || !IsDigit(x[0]))
    ensures SomeDigits(d + x) == Some(Parsed(d, x))
  {
    DigitRunComplete(d, x);
    assert (d + x)[..|d|] == d && (d + x)[|d|..] == x;
  }

  lemma {:induction false} SignComplete(sign: string, d: string, x: string)
    requires sign in {"", "+", "-"} && d != "" && Digits(d)
    ensures SignPart(sign + (d + x)) == Parsed(sign, d + x)
  {
    assert "" + (d + x) == d + x;
    assert (d + x)[0] == d[0];
  }

  lemma {:induction false} ExpComplete(e: ExpTok, x: string)
    requires ExpWf(e) && Follow(x)
    ensures ExpPart(ExpText(e, x)) == Some(Parsed(e, x))
  {
    hide SomeDigits, SignPart, Digits;
    if e.Exp? {
      SignComplete(e.sign, e.digits, x);
      SomeDigitsComplete(e.digits, x);
    }
  }

  lemma {:induction false} FracComplete(frac: string, x: string)
    requires Digits(frac) && (x == "" || (!IsDigit(x[0]) && x[0] != '.'))
    ensures FracPart(FracText(frac, x)) == Some(Parsed(frac, x))
  {
    if frac != "" {
      SomeDigitsComplete(frac, x);
    }
  }

  lemma {:induction false} WholeComplete(d: string, x: string)
    requires WholeWf(d) && (x == "" || !IsDigit(x[0]))
    ensures WholePart(d + x) == Some(Parsed(d, x))
  {
    if d[0] == '0' {
      assert d == "0";
      assert (d + x)[1..] == x;
    } else {
      SomeDigitsComplete(d, x);
    }
  }

  lemma {:induction false} NumberComplete(n: NumTok, x: string)
    requires NumWf(n) && Follow(x)
    ensures NumberTok(NumText(n, x)) == Some(Parsed(n, x))
  {
    hide WholePart, FracPart, ExpPart;
    var x3 := ExpText(n.exp, x);
    var x2 := FracText(n.frac, x3);
    assert (n.whole + x2)[0] == n.whole[0];
    WholeComplete(n.whole, x2);
    FracComplete(n.frac, x3);
    ExpComplete(n.exp, x);
  }

  lemma {:induction false} SomeDigitsSound(s: string)
    requires SomeDigits(s).Some?
    ensures s == SomeDigits(s).value.value + SomeDigits(s).value.rest
  {
  }

  lemma {:induction false} SignSound(s: string)
    ensures s == SignPart(s).value + SignPart(s).rest
  {
    assert "" + s == s;
  }

  lemma {:induction false} ExpSound(s: string)
    requires ExpPart(s).Some?
    ensures s == ExpText(ExpPart(s).value.value, ExpPart(s).value.rest)
  {
    if ExpPart(s).value.value.Exp? {
      hide SomeDigits, SignPart;
      SignSound(s[1..]);
      var sign := SignPart(s[1..]);
      SomeDigitsSound(sign.rest);
    }
  }

  lemma {:induction false} FracSound(s: string)
    requires FracPart(s).Some?
    ensures s == FracText(FracPart(s).value.value, FracPart(s).value.rest)
  {
    if s != "" && s[0] == '.' {
      SomeDigitsSound(s[1..]);
      assert s == ['.'] + s[1..];
    }
  }

  lemma {:induction false} WholeSound(s: string)
    requires WholePart(s).Some?
    ensures s == WholePart(s).value.value + WholePart(s).value.rest
  {
    if s != "" && s[0] == '0' {
      assert s == "0" + s[1..];
    } else {
      SomeDigitsSound(s);
    }
  }

  lemma {:induction false} NumberSound(s: string)
    requires NumberTok(s).Some?
    ensures s == NumText(NumberTok(s).value.value, NumberTok(s).value.rest)
  {
    hide WholePart, FracPart, ExpPart, ExpText, FracText;
    var neg := s != "" && s[0] == '-';
    var s1 := if neg then s[1..] else s;
    var Parsed(whole, s2) := WholePart(s1).value;
    WholeSound(s1);
    FracSound(s2);
    ExpSound(FracPart(s2).value.rest);
  }

  // ---- values ----

  /** `Upsert` changes the first member with the key, or appends. */
  lemma {:induction false} UpsertAt(ms: seq<Member>, i: nat, m: Member)
    requires i <= |ms| && (forall j :: 0 <= j < i ==> ms[j].key != m.key)
    requires i < |ms| ==> ms[i].key == m.key
    ensures Upsert(ms, m.key, m.value) == if i < |ms| then ms[i := m] else ms + [m]
  {
    UpsertSkip(ms, i, m.key, m.value);
    UpsertFront(ms[i..], m);
    hide Upsert;
    if i < |ms| {
      assert ms[i..][1..] == ms[i + 1..];
      assert ms[i := m] == ms[..i] + ([m] + ms[i + 1..]);
    } else {
      assert ms[..i] == ms;
    }
  }

  lemma {:induction false} UpsertFront(ms: seq<Member>, m: Member)
    requires ms != [] ==> ms[0].key == m.key
    ensures Upsert(ms, m.key, m.value) == if ms == [] then [m] else [m] + ms[1..]
  {
  }

  lemma {:induction false} FirstKeysDistinct(ms: seq<Member>)
    ensures forall i, j :: 0 <= i < j < |FirstKeys(ms)| ==> FirstKeys(ms)[i] != FirstKeys(ms)[j]
  {
    if ms != [] {
      FirstKeysDistinct(ms[..|ms| - 1]);
      FirstKeysHave(ms[..|ms| - 1], ms[|ms| - 1].key);
    }
  }

  /** Adding one more member: the parser's in-place update agrees with the declarative meaning. */
  lemma {:induction false} DedupSnoc(ms: seq<Member>, m: Member)
    ensures Dedup(ms + [m]) == Upsert(Dedup(ms), m.key, m.value)
  {
    hide Upsert;
    var ms' := ms + [m];
    var d := Dedup(ms);
    assert ms'[..|ms'| - 1] == ms;
    FirstKeysHave(ms, m.key);
    FirstKeysDistinct(ms);
    forall k | HasKey(ms, k) ensures HasKey(ms', k) {
      var i :| 0 <= i < |ms| && ms[i].key == k;
      assert ms'[i].key == k;
    }
    assert ms'[|ms|].key == m.key;
    if HasKey(ms, m.key) {
      var i :| 0 <= i < |d| && FirstKeys(ms)[i] == m.key;
      UpsertAt(d, i, m);
      assert Dedup(ms') == d[i := m];
    } else {
      UpsertAt(d, |d|, m);
      assert Dedup(ms') == d + [m];
    }
  }

  lemma {:induction false} TextHead(t: Tree, x: string)
    requires Wf(t)
    ensures var s := Text(t, x); s != "" && !IsWs(s[0]) && s[0] !in ",]}:"
    ensures t.TNum? ==> Text(t, x)[0] !in "{[\"tfn"
  {
    if t.TNum? {
      assert IsDigit(t.num.whole[0]);
    }
  }

  lemma {:induction false} SkipToText(w: string, t: Tree, x: string)
    requires Ws(w) && Wf(t)
    ensures SkipWs(w + Text(t, x)) == Text(t, x) == SkipWs(Text(t, x))
  {
    TextHead(t, x);
    SkipWsOver(w, Text(t, x));
  }

  lemma {:induction false} WsFollow(w: string, x: string)
    requires Ws(w) && x != "" && x[0] in ",]}"
    ensures Follow(w + x) && SkipWs(w + x) == x
  {
    SkipWsOver(w, x);
    if w == "" {
      assert w + x == x;
    }
  }

  /** What separates an element from the rest of its array, or closes it. */
  function ElemsSep(es: seq<Elem>, x: string): string
    requires es != []
  {
    if |es| == 1 then [']'] + x else [','] + ElemsText(es[1..], x)
  }

  function EntriesSep(es: seq<Entry>, x: string): string
    requires es != []
  {
    if |es| == 1 then ['}'] + x else [','] + EntriesText(es[1..], x)
  }

  lemma {:induction false} NumComplete(n: NumTok, depth: nat, x: string)
    requires NumWf(n) && FiniteDouble(NumValue(n)) && depth <= MAX_DEPTH && Follow(x)
    requires NumText(n, x) != "" && NumText(n, x)[0] !in "{[\"tfn"
    ensures Val(NumText(n, x), depth) == Some(Parsed(Number(Round(NumValue(n))), x))
  {
    hide Val, NumberTok, NumText, NumWf;
    NumberComplete(n, x);
    ValNumber(NumText(n, x), depth);
  }

  lemma {:induction false} StrComplete(ts: seq<CharTok>, depth: nat, x: string)
    requires ToksWf(ts) && depth <= MAX_DEPTH
    ensures Val(QuotedText(ts, x), depth) == Some(Parsed(Str(StringMeaning(ts)), x))
  {
    hide Val, Chars, ToksText, StringMeaning, ToksWf;
    var s := QuotedText(ts, x);
    CharsComplete(ts, x);
    ValString(s, depth);
    assert s[1..] == ToksText(ts, ['"'] + x);
  }

  lemma {:induction false} WordComplete(t: Tree, depth: nat, x: string)
    requires depth <= MAX_DEPTH && (t.TNull? || t.TTrue? || t.TFalse?)
    ensures Val(Text(t, x), depth) == Some(Parsed(Meaning(t), x))
  {
    hide Items, Members, SkipWs, NumberVal, Chars;
  }

  lemma {:induction false} AtomComplete(t: Tree, depth: nat, x: string)
    requires Wf(t) && InRange(t) && depth <= MAX_DEPTH && Follow(x) && !t.TArr? && !t.TObj?
    ensures Val(Text(t, x), depth) == Some(Parsed(Meaning(t), x))
  {
    hide Val, NumText, QuotedText, StringMeaning, NumValue, Round;
    match t
    case TNum(n) =>
      TextHead(t, x);
      NumComplete(n, depth, x);
    case TStr(ts) => StrComplete(ts, depth, x);
    case _ => WordComplete(t, depth, x);
  }

  lemma {:induction false} ArrComplete(gap: string, es: seq<Elem>, depth: nat, x: string)
    requires var t := TArr(gap, es); Wf(t) && InRange(t) && depth + Height(t) <= MAX_DEPTH && Follow(x)
    ensures Val(Text(TArr(gap, es), x), depth) == Some(Parsed(Meaning(TArr(gap, es)), x))
    decreases es, 2
  {
    hide Val, Items, Members, SkipWs, ElemsText, ElemsWf;
    ValBracket(Text(TArr(gap, es), x), depth);
    if es == [] {
      EmptyBrackets(gap, x);
      WsFollow(gap, [']'] + x);
    } else {
      ItemsComplete(es, depth, [], x);
      assert [] + ElemsMeaning(es) == ElemsMeaning(es);
    }
  }

  lemma {:induction false} ObjComplete(gap: string, es: seq<Entry>, depth: nat, x: string)
    requires var t := TObj(gap, es); Wf(t) && InRange(t) && depth + Height(t) <= MAX_DEPTH && Follow(x)
    ensures Val(Text(TObj(gap, es), x), depth) == Some(Parsed(Meaning(TObj(gap, es)), x))
    decreases es, 2
  {
    hide Val, Items, Members, SkipWs, EntriesText, EntriesWf;
    ValBracket(Text(TObj(gap, es), x), depth);
    if es == [] {
      EmptyBrackets(gap, x);
      WsFollow(gap, ['}'] + x);
    } else {
      MembersComplete(es, depth, [], x);
      assert [] + EntriesMeaning(es) == EntriesMeaning(es);
    }
  }

  lemma {:induction false} ValComplete(t: Tree, depth: nat, x: string)
    requires Wf(t) && InRange(t) && depth + Height(t) <= MAX_DEPTH && Follow(x)
    ensures Val(Text(t, x), depth) == Some(Parsed(Meaning(t), x))
    decreases t, 1
  {
    hide Val, Text, Meaning, Wf, InRange;
    match t
    case TArr(gap, es) => ArrComplete(gap, es, depth, x);
    case TObj(gap, es) => ObjComplete(gap, es, depth, x);
    case _ => AtomComplete(t, depth, x);
  }

  /** One round of each loop: read up to the separator, which stays as the next input. */
  lemma {:induction false} ItemsRound(s: string, depth: nat, acc: seq<Value>, v: Value, w: string, sep: string)
    requires Val(SkipWs(s), depth + 1) == Some(Parsed(v, w + sep))
    requires Ws(w) && sep != "" && sep[0] in ",]"
    ensures Items(s, depth, acc)
            == if sep[0] == ',' then Items(sep[1..], depth, acc + [v])
               else Some(Parsed(Array(acc + [v]), sep[1..]))
  {
    WsFollow(w, sep);
  }

  lemma {:induction false} ItemsComplete(es: seq<Elem>, depth: nat, acc: seq<Value>, x: string)
    requires es != [] && ElemsWf(es) && ElemsInRange(es) && Follow(x)
    requires depth + ElemsHeight(es) <= MAX_DEPTH
    ensures var s := ElemsText(es, x);
            var r := Some(Parsed(Array(acc + ElemsMeaning(es)), x));
            && Items(s, depth, acc) == r
            && SkipWs(s) != "" && SkipWs(s)[0] != ']' && Items(SkipWs(s), depth, acc) == r
    decreases es, 0
  {
    hide Val, Items, Members, Text, SkipWs, Meaning, Wf, InRange, Height;
    var e := es[0];
    var sep := ElemsSep(es, x);
    var v := Meaning(e.value);
    var s1 := Text(e.value, e.after + sep);
    var s := ElemsText(es, x);
    assert s == e.before + s1;
    SkipToText(e.before, e.value, e.after + sep);
    TextHead(e.value, e.after + sep);
    WsFollow(e.after, sep);
    ValComplete(e.value, depth + 1, e.after + sep);
    ItemsRound(s, depth, acc, v, e.after, sep);
    ItemsRound(s1, depth, acc, v, e.after, sep);
    if |es| == 1 {
      assert ElemsMeaning(es) == [v];
    } else {
      ItemsComplete(es[1..], depth, acc + [v], x);
      assert acc + ElemsMeaning(es) == acc + [v] + ElemsMeaning(es[1..]);
    }
  }

  lemma {:induction false} KeyComplete(key: seq<CharTok>, w: string, x: string)
    requires ToksWf(key) && Ws(w)
    ensures KeyPart(QuotedText(key, w + ([':'] + x))) == Some(Parsed(StringMeaning(key), x))
  {
    CharsComplete(key, w + ([':'] + x));
    SkipWsOver(w, [':'] + x);
  }

  lemma {:induction false} MembersRound(s: string, depth: nat, acc: seq<Member>, k: string, s1: string, v: Value,
                     w: string, sep: string)
    requires KeyPart(SkipWs(s)) == Some(Parsed(k, s1))
    requires Val(SkipWs(s1), depth + 1) == Some(Parsed(v, w + sep))
    requires Ws(w) && sep != "" && sep[0] in ",}"
    ensures Members(s, depth, acc)
            == if sep[0] == ',' then Members(sep[1..], depth, Upsert(acc, k, v))
               else Some(Parsed(Object(Upsert(acc, k, v)), sep[1..]))
  {
    WsFollow(w, sep);
  }

  function FirstMember(es: seq<Entry>): Member
    requires es != [] && EntriesWf(es)
  {
    Member(StringMeaning(es[0].key), Meaning(es[0].value))
  }

  lemma {:induction false} MembersFirst(es: seq<Entry>, depth: nat, acc: seq<Member>, x: string)
    requires es != [] && EntriesWf(es) && EntriesInRange(es) && Follow(x)
    requires depth + EntriesHeight(es) <= MAX_DEPTH
    ensures var s := EntriesText(es, x);
            var m := FirstMember(es);
            var acc' := Upsert(acc, m.key, m.value);
            var r := if |es| == 1 then Some(Parsed(Object(acc'), x))
                     else Members(EntriesText(es[1..], x), depth, acc');
            && Members(s, depth, acc) == r
            && SkipWs(s) != "" && SkipWs(s)[0] == '"' && Members(SkipWs(s), depth, acc) == r
    decreases es, 0
  {
    hide Val, Members, Text, SkipWs, Meaning, Wf, InRange, Height, ToksText, ToksWf, Upsert, StringMeaning;
    var e := es[0];
    var sep := EntriesSep(es, x);
    var s5 := Text(e.value, e.after + sep);
    var s1 := QuotedText(e.key, e.colonL + ([':'] + (e.colonR + s5)));
    SkipWsOver(e.before, s1);
    SkipWsOver("", s1);
    assert "" + s1 == s1;
    KeyComplete(e.key, e.colonL, e.colonR + s5);
    SkipToText(e.colonR, e.value, e.after + sep);
    WsFollow(e.after, sep);
    ValComplete(e.value, depth + 1, e.after + sep);
    var m := FirstMember(es);
    MembersRound(e.before + s1, depth, acc, m.key, e.colonR + s5, m.value, e.after, sep);
    MembersRound(s1, depth, acc, m.key, e.colonR + s5, m.value, e.after, sep);
  }

  lemma {:induction false} MembersComplete(es: seq<Entry>, depth: nat, prior: seq<Member>, x: string)
    requires es != [] && EntriesWf(es) && EntriesInRange(es) && Follow(x)
    requires depth + EntriesHeight(es) <= MAX_DEPTH
    ensures var s := EntriesText(es, x);
            var r := Some(Parsed(Object(Dedup(prior + EntriesMeaning(es))), x));
            && Members(s, depth, Dedup(prior)) == r
            && SkipWs(s) != "" && SkipWs(s)[0] == '"' && Members(SkipWs(s), depth, Dedup(prior)) == r
    decreases es, 1
  {
    hide Members, Text, SkipWs, Meaning, Wf, InRange, Height, EntriesText, Dedup, Upsert, ToksWf,
      StringMeaning, FirstKeys;
    MembersFirst(es, depth, Dedup(prior), x);
    var m := FirstMember(es);
    DedupSnoc(prior, m);
    if |es| == 1 {
      assert EntriesMeaning(es) == [m];
    } else {
      MembersComplete(es[1..], depth, prior + [m], x);
      assert prior + EntriesMeaning(es) == prior + [m] + EntriesMeaning(es[1..]);
    }
  }

  // ---- soundness ----

  lemma {:induction false} NoElems()
    ensures ElemsWf([]) && ElemsInRange([]) && ElemsHeight([]) == 0 && ElemsMeaning([]) == []
    ensures EntriesWf([]) && EntriesInRange([]) && EntriesHeight([]) == 0 && EntriesMeaning([]) == []
  {
  }

  lemma {:induction false} ElemsCons(e: Elem, es: seq<Elem>, x: string)
    requires Ws(e.before) && Wf(e.value) && Ws(e.after) && ElemsWf(es)
    ensures ElemsWf([e] + es)
    ensures ElemsText([e] + es, x)
            == e.before + Text(e.value, e.after + (if es == [] then [']'] + x else [','] + ElemsText(es, x)))
    ensures ElemsHeight([e] + es) == Max(1 + Height(e.value), ElemsHeight(es))
    ensures InRange(e.value) && ElemsInRange(es) ==> ElemsInRange([e] + es)
    ensures ElemsMeaning([e] + es) == [Meaning(e.value)] + ElemsMeaning(es)
  {
    hide Text, Wf, Height, InRange, Meaning;
    assert ([e] + es)[1..] == es;
  }

  lemma {:induction false} EntriesCons(e: Entry, es: seq<Entry>, x: string)
    requires Ws(e.before) && ToksWf(e.key) && Ws(e.colonL) && Ws(e.colonR) && Wf(e.value)
    requires Ws(e.after) && EntriesWf(es)
    ensures EntriesWf([e] + es)
    ensures var sep := if es == [] then ['}'] + x else [','] + EntriesText(es, x);
            EntriesText([e] + es, x)
            == e.before + QuotedText(e.key, e.colonL + ([':'] + (e.colonR + Text(e.value, e.after + sep))))
    ensures EntriesHeight([e] + es) == Max(1 + Height(e.value), EntriesHeight(es))
    ensures InRange(e.value) && EntriesInRange(es) ==> EntriesInRange([e] + es)
    ensures EntriesMeaning([e] + es)
            == [Member(StringMeaning(e.key), Meaning(e.value))] + EntriesMeaning(es)
  {
    hide Text, Wf, Height, InRange, Meaning, ToksText, ToksWf, QuotedText, StringMeaning;
    assert ([e] + es)[1..] == es;
  }

  /** A bracket, whitespace, and a list are the bracket and a list that starts with whitespace. */
  lemma {:induction false} ElemsWiden(gap: string, es: seq<Elem>, x: string) returns (es': seq<Elem>)
    requires es != [] && ElemsWf(es) && ElemsInRange(es) && Ws(gap)
    ensures es' != [] && ElemsWf(es') && ElemsInRange(es')
    ensures ElemsHeight(es') == ElemsHeight(es) && ElemsMeaning(es') == ElemsMeaning(es)
    ensures ElemsText(es', x) == gap + ElemsText(es, x)
  {
    hide Text, Wf, Height, InRange, Meaning;
    var e := es[0].(before := gap + es[0].before);
    ElemsCons(es[0], es[1..], x);
    ElemsCons(e, es[1..], x);
    assert [es[0]] + es[1..] == es;
    es' := [e] + es[1..];
  }

  lemma {:induction false} EntriesWiden(gap: string, es: seq<Entry>, x: string) returns (es': seq<Entry>)
    requires es != [] && EntriesWf(es) && EntriesInRange(es) && Ws(gap)
    ensures es' != [] && EntriesWf(es') && EntriesInRange(es')
    ensures EntriesHeight(es') == EntriesHeight(es) && EntriesMeaning(es') == EntriesMeaning(es)
    ensures EntriesText(es', x) == gap + EntriesText(es, x)
  {
    hide Text, Wf, Height, InRange, Meaning, ToksText, ToksWf, QuotedText, StringMeaning;
    var e := es[0].(before := gap + es[0].before);
    EntriesCons(es[0], es[1..], x);
    EntriesCons(e, es[1..], x);
    assert [es[0]] + es[1..] == es;
    es' := [e] + es[1..];
  }

  lemma {:induction false} ValSound(s: string, depth: nat) returns (t: Tree)
    requires Val(s, depth).Some?
    ensures Wf(t) && InRange(t) && depth + Height(t) <= MAX_DEPTH
    ensures s == Text(t, Val(s, depth).value.rest) && Meaning(t) == Val(s, depth).value.value
    decreases |s|, 1
  {
    hide Val;
    if s != "" && s[0] == '{' {
      t := ObjectSound(s, depth);
    } else if s != "" && s[0] == '[' {
      t := ArraySound(s, depth);
    } else {
      t := AtomSound(s, depth);
    }
  }

  lemma {:induction false} StrSound(s: string, depth: nat) returns (ts: seq<CharTok>)
    requires s != "" && s[0] == '"' && Val(s, depth).Some?
    ensures ToksWf(ts) && s == QuotedText(ts, Val(s, depth).value.rest)
    ensures Val(s, depth).value.value == Str(StringMeaning(ts))
  {
    hide Val, Chars, ToksText, StringMeaning, ToksWf;
    ValTooDeep(s, depth);
    ValString(s, depth);
    ts := CharsSound(s[1..]);
    assert s == ['"'] + s[1..];
  }

  lemma {:induction false} NumSound(s: string, depth: nat) returns (n: NumTok)
    requires s != "" && s[0] !in "{[\"tfn" && Val(s, depth).Some?
    ensures NumWf(n) && FiniteDouble(NumValue(n)) && s == NumText(n, Val(s, depth).value.rest)
    ensures Val(s, depth).value.value == Number(Round(NumValue(n)))
  {
    hide Val, NumberTok, NumText, NumWf, NumValue, Round;
    ValTooDeep(s, depth);
    ValNumber(s, depth);
    NumberSound(s);
    n := NumberTok(s).value.value;
  }

  lemma {:induction false} WordSound(s: string, depth: nat) returns (t: Tree)
    requires s != "" && s[0] in "tfn" && Val(s, depth).Some?
    ensures t.TNull? || t.TTrue? || t.TFalse?
    ensures s == Text(t, Val(s, depth).value.rest) && Meaning(t) == Val(s, depth).value.value
  {
    hide Items, Members, SkipWs, NumberVal, Chars;
    t := if s[0] == 't' then TTrue else if s[0] == 'f' then TFalse else TNull;
  }

  lemma {:induction false} AtomSound(s: string, depth: nat) returns (t: Tree)
    requires Val(s, depth).Some? && s != "" && s[0] != '{' && s[0] != '['
    ensures Wf(t) && InRange(t) && depth + Height(t) <= MAX_DEPTH
    ensures s == Text(t, Val(s, depth).value.rest) && Meaning(t) == Val(s, depth).value.value
  {
    hide Val, NumText, QuotedText, StringMeaning, NumValue, Round;
    ValTooDeep(s, depth);
    if s[0] == '"' {
      var ts := StrSound(s, depth);
      t := TStr(ts);
    } else if s[0] in "tfn" {
      t := WordSound(s, depth);
    } else {
      var n := NumSound(s, depth);
      t := TNum(n);
    }
  }

  lemma {:induction false} EmptyBrackets(gap: string, x: string)
    requires Ws(gap)
    ensures var t := TObj(gap, []);
            && Wf(t) && InRange(t) && Height(t) == 0 && Meaning(t) == Object([])
            && Text(t, x) == ['{'] + (gap + (['}'] + x))
    ensures var t := TArr(gap, []);
            && Wf(t) && InRange(t) && Height(t) == 0 && Meaning(t) == Array([])
            && Text(t, x) == ['['] + (gap + ([']'] + x))
  {
  }

  lemma {:induction false} FilledObject(es: seq<Entry>, x: string)
    requires es != [] && EntriesWf(es) && EntriesInRange(es)
    ensures var t := TObj("", es);
            && Wf(t) && InRange(t) && Meaning(t) == Object(Dedup(EntriesMeaning(es)))
            && Height(t) == EntriesHeight(es) && Text(t, x) == ['{'] + EntriesText(es, x)
  {
    hide EntriesWf, EntriesInRange, EntriesMeaning, EntriesHeight, EntriesText, Dedup;
  }

  lemma {:induction false} FilledArray(es: seq<Elem>, x: string)
    requires es != [] && ElemsWf(es) && ElemsInRange(es)
    ensures var t := TArr("", es);
            && Wf(t) && InRange(t) && Meaning(t) == Array(ElemsMeaning(es))
            && Height(t) == ElemsHeight(es) && Text(t, x) == ['['] + ElemsText(es, x)
  {
    hide ElemsWf, ElemsInRange, ElemsMeaning, ElemsHeight, ElemsText;
  }

  lemma {:induction false} Unfold(s: string, rest: string)
    requires s != "" && s[1..] == rest
    ensures s == [s[0]] + rest
  {
  }

  lemma {:induction false} ObjectSound(s: string, depth: nat) returns (t: Tree)
    requires Val(s, depth).Some? && s[0] == '{'
    ensures Wf(t) && InRange(t) && depth + Height(t) <= MAX_DEPTH
    ensures s == Text(t, Val(s, depth).value.rest) && Meaning(t) == Val(s, depth).value.value
    decreases |s|, 0
  {
    hide Val, Members, SkipWs, EntriesText, EntriesMeaning, EntriesWf, EntriesInRange, EntriesHeight,
      Dedup, Text, Wf, InRange, Meaning;
    ValBracket(s, depth);
    var rest := Val(s, depth).value.rest;
    var gap := SkipWsSplit(s[1..]);
    var s1 := SkipWs(s[1..]);
    Unfold(s, gap + s1);
    if s1 != "" && s1[0] == '}' {
      t := TObj(gap, []);
      EmptyBrackets(gap, rest);
      Unfold(s1, rest);
    } else {
      var es := BodySound(gap, s1, depth);
      FilledObject(es, rest);
      t := TObj("", es);
    }
  }

  lemma {:induction false} BodySound(gap: string, s: string, depth: nat) returns (es: seq<Entry>)
    requires Ws(gap) && Members(s, depth, []).Some?
    ensures es != [] && EntriesWf(es) && EntriesInRange(es) && depth + EntriesHeight(es) <= MAX_DEPTH
    ensures gap + s == EntriesText(es, Members(s, depth, []).value.rest)
    ensures Members(s, depth, []).value.value == Object(Dedup(EntriesMeaning(es)))
    decreases |s|, 3
  {
    hide Members, EntriesText, EntriesMeaning, EntriesWf, EntriesInRange, EntriesHeight;
    es := MembersSound(s, depth, []);
    assert [] + EntriesMeaning(es) == EntriesMeaning(es);
    es := EntriesWiden(gap, es, Members(s, depth, []).value.rest);
  }

  lemma {:induction false} ArraySound(s: string, depth: nat) returns (t: Tree)
    requires Val(s, depth).Some? && s[0] == '['
    ensures Wf(t) && InRange(t) && depth + Height(t) <= MAX_DEPTH
    ensures s == Text(t, Val(s, depth).value.rest) && Meaning(t) == Val(s, depth).value.value
    decreases |s|, 0
  {
    hide Val, Items, SkipWs, ElemsText, ElemsMeaning, ElemsWf, ElemsInRange, ElemsHeight,
      Text, Wf, InRange, Meaning;
    ValBracket(s, depth);
    var rest := Val(s, depth).value.rest;
    var gap := SkipWsSplit(s[1..]);
    var s1 := SkipWs(s[1..]);
    Unfold(s, gap + s1);
    if s1 != "" && s1[0] == ']' {
      t := TArr(gap, []);
      EmptyBrackets(gap, rest);
      Unfold(s1, rest);
    } else {
      var es := ItemsSound(s1, depth, []);
      assert [] + ElemsMeaning(es) == ElemsMeaning(es);
      es := ElemsWiden(gap, es, rest);
      FilledArray(es, rest);
      t := TArr("", es);
    }
  }

  lemma {:induction false} ItemsOut(s: string, depth: nat, acc: seq<Value>)
    requires Items(s, depth, acc).Some?
    ensures Val(SkipWs(s), depth + 1).Some?
    ensures var Parsed(v, s2) := Val(SkipWs(s), depth + 1).value;
            var s3 := SkipWs(s2);
            && s3 != "" && s3[0] in ",]"
            && Items(s, depth, acc) == if s3[0] == ',' then Items(s3[1..], depth, acc + [v])
                                       else Some(Parsed(Array(acc + [v]), s3[1..]))
  {
    hide Val, SkipWs;
  }

  lemma {:induction false} ItemsSound(s: string, depth: nat, acc: seq<Value>) returns (es: seq<Elem>)
    requires Items(s, depth, acc).Some?
    ensures es != [] && ElemsWf(es) && ElemsInRange(es) && depth + ElemsHeight(es) <= MAX_DEPTH
    ensures s == ElemsText(es, Items(s, depth, acc).value.rest)
    ensures Items(s, depth, acc).value.value == Array(acc + ElemsMeaning(es))
    decreases |s|, 2
  {
    hide Val, Items, Text, SkipWs, Meaning, Wf, InRange, Height, ElemsText, ElemsWf, ElemsInRange,
      ElemsHeight, ElemsMeaning;
    NoElems();
    ItemsOut(s, depth, acc);
    var rest := Items(s, depth, acc).value.rest;
    var before := SkipWsSplit(s);
    var t := ValSound(SkipWs(s), depth + 1);
    var Parsed(v, s2) := Val(SkipWs(s), depth + 1).value;
    var after := SkipWsSplit(s2);
    var s3 := SkipWs(s2);
    assert s3 == [s3[0]] + s3[1..];
    var e := Elem(before, t, after);
    es := [];
    if s3[0] == ',' {
      es := ItemsSound(s3[1..], depth, acc + [v]);
      assert acc + ([v] + ElemsMeaning(es)) == acc + [v] + ElemsMeaning(es);
    }
    ElemsCons(e, es, rest);
    es := [e] + es;
  }

  lemma {:induction false} KeySound(s: string) returns (key: seq<CharTok>, w: string)
    requires KeyPart(s).Some?
    ensures ToksWf(key) && Ws(w) && StringMeaning(key) == KeyPart(s).value.value
    ensures s == QuotedText(key, w + ([':'] + KeyPart(s).value.rest))
  {
    key := CharsSound(s[1..]);
    var s2 := Chars(s[1..]).value.rest;
    w := SkipWsSplit(s2);
    var s3 := SkipWs(s2);
    assert s3 == [s3[0]] + s3[1..];
  }

  lemma {:induction false} MembersSound(s: string, depth: nat, prior: seq<Member>)
    returns (es: seq<Entry>)
    requires Members(s, depth, Dedup(prior)).Some?
    ensures es != [] && EntriesWf(es) && EntriesInRange(es)
    ensures depth + EntriesHeight(es) <= MAX_DEPTH
    ensures s == EntriesText(es, Members(s, depth, Dedup(prior)).value.rest)
    ensures Members(s, depth, Dedup(prior)).value.value == Object(Dedup(prior + EntriesMeaning(es)))
    decreases |s|, 2
  {
    hide Val, Text, SkipWs, Meaning, Wf, InRange, Height, EntriesText, EntriesWf, EntriesInRange,
      EntriesHeight, EntriesMeaning, KeyPart, Dedup, Upsert, ToksText, ToksWf, QuotedText, StringMeaning;
    NoElems();
    var rest := Members(s, depth, Dedup(prior)).value.rest;
    var before := SkipWsSplit(s);
    var key, colonL := KeySound(SkipWs(s));
    var Parsed(k, s1) := KeyPart(SkipWs(s)).value;
    var colonR := SkipWsSplit(s1);
    var t := ValSound(SkipWs(s1), depth + 1);
    var Parsed(v, s2) := Val(SkipWs(s1), depth + 1).value;
    var after := SkipWsSplit(s2);
    var s3 := SkipWs(s2);
    assert s3 == [s3[0]] + s3[1..];
    var e := Entry(before, key, colonL, colonR, t, after);
    var m := Member(k, v);
    DedupSnoc(prior, m);
    es := [];
    if s3[0] == ',' {
      es := MembersSound(s3[1..], depth, prior + [m]);
      assert prior + ([m] + EntriesMeaning(es)) == prior + [m] + EntriesMeaning(es);
    }
    EntriesCons(e, es, rest);
    es := [e] + es;
  }

  // ---- the two directions ----

  /** Every derivation nested at most MAX_DEPTH with in-range numbers is accepted, with its meaning. */
  lemma {:induction false} ParseComplete(text: string, lead: string, t: Tree, trail: string)
    requires Derives(text, lead, t, trail)
    ensures Parse(text) == Some(Meaning(t))
  {
    SkipToText(lead, t, trail);
    ValComplete(t, 0, trail);
    SkipWsOver(trail, "");
    assert trail + "" == trail;
  }

  lemma {:induction false} ParseSound(text: string) returns (lead: string, t: Tree, trail: string)
    requires Parse(text).Some?
    ensures Derives(text, lead, t, trail) && Parse(text) == Some(Meaning(t))
  {
    hide Val, Text, Meaning, Wf, InRange, Height;
    lead := SkipWsSplit(text);
    t := ValSound(SkipWs(text), 0);
    trail := SkipWsSplit(Val(SkipWs(text), 0).value.rest);
    assert trail + "" == trail;
  }

  ghost predicate DerivesValue(text: string, v: Value) {
    exists lead, t, trail :: Derives(text, lead, t, trail) && Meaning(t) == v
  }

  /** `parse` decides RFC 8259 and returns the value the grammar gives. */
  lemma {:induction false} ParseExactly(text: string, v: Value)
    ensures Parse(text) == Some(v) <==> DerivesValue(text, v)
  {
    if Parse(text) == Some(v) {
      var lead, t, trail := ParseSound(text);
    }
    if DerivesValue(text, v) {
      var lead, t, trail :| Derives(text, lead, t, trail) && Meaning(t) == v;
      ParseComplete(text, lead, t, trail);
    }
  }
}
