/** The user.json overlay of launcher/src/config_store.cpp: an allowlisted set of keys laid over the
    read-only configuration and written back whole after every change. */
module ConfigStore {
  import opened Options
  import opened JsonSyntax
  import opened JsonParser
  import opened JsonGrammar
  import opened JsonDump

  const INDENT := 2

  /** The configuration members an overlay may change. */
  datatype Config = Config(
    captionsToast: bool, captionRemember: bool, captionType: string, captionLanguage: string,
    captionLanguages: seq<string>, captionControl: string, captionOn: bool, disableTouch: bool,
    touchGestures: bool, touchHideCursor: bool)

  datatype Field =
    | CaptionsToast | CaptionRemember | CaptionType | CaptionLanguage | CaptionLanguages | CaptionControl
    | CaptionOn | DisableTouch | TouchGestures | TouchHideCursor

  const TABLE: seq<(string, Field)> := [
    ("captions_toast", CaptionsToast), ("caption_remember", CaptionRemember), ("caption_type", CaptionType),
    ("caption_language", CaptionLanguage), ("caption_languages", CaptionLanguages),
    ("caption_control", CaptionControl), ("caption_on", CaptionOn), ("disable_touch", DisableTouch),
    ("touch_gestures", TouchGestures), ("touch_hide_cursor", TouchHideCursor)]

  predicate Overlayable(key: string) {
    exists i :: 0 <= i < |TABLE| && TABLE[i].0 == key
  }

  /** The first member named `key`. */
  function FindMember(ms: seq<Member>, key: string): (r: Option<Value>)
    ensures r.Some? ==> exists i :: 0 <= i < |ms| && ms[i] == Member(key, r.value)
    ensures r.None? ==> forall i :: 0 <= i < |ms| ==> ms[i].key != key
  {
    if ms == [] then None else if ms[0].key == key then Some(ms[0].value) else FindMember(ms[1..], key)
  }

  function Strings(vs: seq<Value>): seq<string> {
    if vs == [] then [] else (if vs[0].Str? then [vs[0].s] else []) + Strings(vs[1..])
  }

  function BoolOr(v: Option<Value>, old_: bool): bool {
    if v.Some? && v.value.Bool? then v.value.b else old_
  }

  function StringOr(v: Option<Value>, old_: string): string {
    if v.Some? && v.value.Str? then v.value.s else old_
  }

  function ListOr(v: Option<Value>, old_: seq<string>): seq<string> {
    if v.Some? && v.value.Array? then Strings(v.value.items) else old_
  }

  /** A value of the wrong type leaves the member as it was. */
  function Assign(c: Config, f: Field, v: Value): Config {
    match f
    case CaptionsToast => c.(captionsToast := BoolOr(Some(v), c.captionsToast))
    case CaptionRemember => c.(captionRemember := BoolOr(Some(v), c.captionRemember))
    case CaptionType => c.(captionType := StringOr(Some(v), c.captionType))
    case CaptionLanguage => c.(captionLanguage := StringOr(Some(v), c.captionLanguage))
    case CaptionLanguages => c.(captionLanguages := ListOr(Some(v), c.captionLanguages))
    case CaptionControl => c.(captionControl := StringOr(Some(v), c.captionControl))
    case CaptionOn => c.(captionOn := BoolOr(Some(v), c.captionOn))
    case DisableTouch => c.(disableTouch := BoolOr(Some(v), c.disableTouch))
    case TouchGestures => c.(touchGestures := BoolOr(Some(v), c.touchGestures))
    case TouchHideCursor => c.(touchHideCursor := BoolOr(Some(v), c.touchHideCursor))
  }

  function AssignFound(c: Config, f: Field, v: Option<Value>): Config {
    if v.Some? then Assign(c, f, v.value) else c
  }

  /** The first `n` entries of the table applied in order. */
  function Applied(c: Config, ms: seq<Member>, n: nat): Config
    requires n <= |TABLE|
  {
    if n == 0 then c else AssignFound(Applied(c, ms, n - 1), TABLE[n - 1].1, FindMember(ms, TABLE[n - 1].0))
  }

  /** What `apply` makes of each member. */
  function Overlaid(c: Config, ms: seq<Member>): Config {
    Config(
      BoolOr(FindMember(ms, "captions_toast"), c.captionsToast),
      BoolOr(FindMember(ms, "caption_remember"), c.captionRemember),
      StringOr(FindMember(ms, "caption_type"), c.captionType),
      StringOr(FindMember(ms, "caption_language"), c.captionLanguage),
      ListOr(FindMember(ms, "caption_languages"), c.captionLanguages),
      StringOr(FindMember(ms, "caption_control"), c.captionControl),
      BoolOr(FindMember(ms, "caption_on"), c.captionOn),
      BoolOr(FindMember(ms, "disable_touch"), c.disableTouch),
      BoolOr(FindMember(ms, "touch_gestures"), c.touchGestures),
      BoolOr(FindMember(ms, "touch_hide_cursor"), c.touchHideCursor))
  }

  /** What one assignment does, found or not. */
  function Set(c: Config, f: Field, v: Option<Value>): Config {
    match f
    case CaptionsToast => c.(captionsToast := BoolOr(v, c.captionsToast))
    case CaptionRemember => c.(captionRemember := BoolOr(v, c.captionRemember))
    case CaptionType => c.(captionType := StringOr(v, c.captionType))
    case CaptionLanguage => c.(captionLanguage := StringOr(v, c.captionLanguage))
    case CaptionLanguages => c.(captionLanguages := ListOr(v, c.captionLanguages))
    case CaptionControl => c.(captionControl := StringOr(v, c.captionControl))
    case CaptionOn => c.(captionOn := BoolOr(v, c.captionOn))
    case DisableTouch => c.(disableTouch := BoolOr(v, c.disableTouch))
    case TouchGestures => c.(touchGestures := BoolOr(v, c.touchGestures))
    case TouchHideCursor => c.(touchHideCursor := BoolOr(v, c.touchHideCursor))
  }

  /** One entry of the table. */
  lemma {:induction false} AppliedNext(c: Config, ms: seq<Member>, n: nat, key: string, f: Field)
    requires n < |TABLE| && TABLE[n] == (key, f)
    ensures Applied(c, ms, n + 1) == Set(Applied(c, ms, n), f, FindMember(ms, key))
  {
  }

  /** Each assignment changes its own member only. */
  lemma {:induction false} SetsApart(c: Config, v: seq<Option<Value>>)
    requires |v| == 10
    ensures var c5 := Set(Set(Set(Set(Set(c, CaptionsToast, v[0]), CaptionRemember, v[1]), CaptionType, v[2]),
                              CaptionLanguage, v[3]), CaptionLanguages, v[4]);
            Set(Set(Set(Set(Set(c5, CaptionControl, v[5]), CaptionOn, v[6]), DisableTouch, v[7]),
                    TouchGestures, v[8]), TouchHideCursor, v[9])
            == Config(BoolOr(v[0], c.captionsToast), BoolOr(v[1], c.captionRemember), StringOr(v[2], c.captionType),
                      StringOr(v[3], c.captionLanguage), ListOr(v[4], c.captionLanguages),
                      StringOr(v[5], c.captionControl), BoolOr(v[6], c.captionOn), BoolOr(v[7], c.disableTouch),
                      BoolOr(v[8], c.touchGestures), BoolOr(v[9], c.touchHideCursor))
  {
    hide BoolOr, StringOr, ListOr;
  }

  function Found(ms: seq<Member>): (v: seq<Option<Value>>)
    ensures |v| == 10
  {
    [FindMember(ms, "captions_toast"),
     FindMember(ms, "caption_remember"),
     FindMember(ms, "caption_type"),
     FindMember(ms, "caption_language"),
     FindMember(ms, "caption_languages"),
     FindMember(ms, "caption_control"),
     FindMember(ms, "caption_on"),
     FindMember(ms, "disable_touch"),
     FindMember(ms, "touch_gestures"),
     FindMember(ms, "touch_hide_cursor")]
  }

  lemma {:induction false} AppliedIsOverlaid(c: Config, ms: seq<Member>)
    ensures Applied(c, ms, |TABLE|) == Overlaid(c, ms)
  {
    var v := Found(ms);
    SetsApart(c, v);
    hide FindMember, BoolOr, StringOr, ListOr, Set, Overlayable;
    assert Applied(c, ms, 0) == c;
    AppliedNext(c, ms, 0, "captions_toast", CaptionsToast);
    assert Applied(c, ms, 1) == Set(Applied(c, ms, 0), CaptionsToast, v[0]);
    AppliedNext(c, ms, 1, "caption_remember", CaptionRemember);
    assert Applied(c, ms, 2) == Set(Applied(c, ms, 1), CaptionRemember, v[1]);
    AppliedNext(c, ms, 2, "caption_type", CaptionType);
    assert Applied(c, ms, 3) == Set(Applied(c, ms, 2), CaptionType, v[2]);
    AppliedNext(c, ms, 3, "caption_language", CaptionLanguage);
    assert Applied(c, ms, 4) == Set(Applied(c, ms, 3), CaptionLanguage, v[3]);
    AppliedNext(c, ms, 4, "caption_languages", CaptionLanguages);
    assert Applied(c, ms, 5) == Set(Applied(c, ms, 4), CaptionLanguages, v[4]);
    AppliedNext(c, ms, 5, "caption_control", CaptionControl);
    assert Applied(c, ms, 6) == Set(Applied(c, ms, 5), CaptionControl, v[5]);
    AppliedNext(c, ms, 6, "caption_on", CaptionOn);
    assert Applied(c, ms, 7) == Set(Applied(c, ms, 6), CaptionOn, v[6]);
    AppliedNext(c, ms, 7, "disable_touch", DisableTouch);
    assert Applied(c, ms, 8) == Set(Applied(c, ms, 7), DisableTouch, v[7]);
    AppliedNext(c, ms, 8, "touch_gestures", TouchGestures);
    assert Applied(c, ms, 9) == Set(Applied(c, ms, 8), TouchGestures, v[8]);
    AppliedNext(c, ms, 9, "touch_hide_cursor", TouchHideCursor);
    assert Applied(c, ms, 10) == Set(Applied(c, ms, 9), TouchHideCursor, v[9]);
    hide Applied;
  }

  /** The members of a file that `load` keeps; an unreadable file or one that is not an object gives none. */
  function Loaded(file: Option<string>): seq<Member> {
    match file
    case None => []
    case Some(text) =>
      match Parse(text)
      case Some(Object(ms)) => Allowed(ms)
      case _ => []
  }

  function Allowed(ms: seq<Member>): seq<Member> {
    if ms == [] then [] else (if Overlayable(ms[0].key) then [ms[0]] else []) + Allowed(ms[1..])
  }

  function Removed(ms: seq<Member>, key: string): seq<Member> {
    if ms == [] then [] else if ms[0].key == key then ms[1..] else [ms[0]] + Removed(ms[1..], key)
  }

  /** `i` is the first member named `key`, or the end. */
  predicate IsFirst(ms: seq<Member>, key: string, i: nat) {
    i <= |ms| && (forall j :: 0 <= j < i ==> ms[j].key != key) && (i < |ms| ==> ms[i].key == key)
  }

  lemma {:induction false} RemovedIs(ms: seq<Member>, key: string, i: nat)
    requires IsFirst(ms, key, i)
    ensures Removed(ms, key) == if i < |ms| then ms[..i] + ms[i + 1..] else ms
    ensures FindMember(ms, key).Some? <==> i < |ms|
    decreases |ms|
  {
    if ms != [] && ms[0].key != key {
      RemovedIs(ms[1..], key, i - 1);
    }
  }

  function StringsValue(xs: seq<string>): Value {
    Array(seq(|xs|, i requires 0 <= i < |xs| => Str(xs[i])))
  }

  /** A value `dump` prints and `parse` reads back, below the root. */
  predicate Storable(v: Value, f: Format) {
    Printable(v, f) && DistinctKeys(v) && HeightWithin(v, MAX_DEPTH - 1)
  }

  /** An overlay that reads back as itself. */
  predicate Sound(ms: seq<Member>, f: Format) {
    && (forall i :: 0 <= i < |ms| ==> Overlayable(ms[i].key) && Storable(ms[i].value, f))
    && (forall i, j :: 0 <= i < j < |ms| ==> ms[i].key != ms[j].key)
  }

  /** A list is read item by item, and items that are no strings are passed over. */
  lemma {:induction false} StringsJoin(a: seq<Value>, b: seq<Value>, v: Value)
    ensures Strings(a + b) == Strings(a) + Strings(b)
    ensures Strings([v]) == if v.Str? then [v.s] else []
  {
    assert [v][1..] == [];
    if a == [] {
      assert a + b == b;
    } else {
      StringsJoin(a[1..], b, v);
      assert (a + b)[1..] == a[1..] + b;
    }
  }

  /** How a file of one setting is laid out. */
  lemma {:induction false} SavedLooks(f: Format, key: string, on: bool)
    ensures Saved([Member(key, Bool(on))], f)
            == "{\n  " + QuotedText(EscapeToks(key), "") + ": " + (if on then "true" else "false") + "\n}\n"
  {
    hide EscapeToks, QuotedText, DumpTree, DumpText, EntriesText, DumpEntries, NewlineIndent;
    var v, name := Object([Member(key, Bool(on))]), QuotedText(EscapeToks(key), "");
    var value := if on then "true" else "false";
    NewlineIs(2, 0);
    NewlineIs(2, 1);
    assert NewlineIndent(2, 0) == "\n" && NewlineIndent(2, 1) == "\n  ";
    OpenObject(v, f, 2, 0);
    DumpEntriesText(v, f, 2, 0, 0);
    BoolText(on, f);
    assert DumpText(v, f, 2, 0) == "{" + ("\n  " + (name + (": " + (value + ("" + ("\n" + "}"))))));
  }

  lemma {:induction false} BoolText(on: bool, f: Format)
    ensures DumpText(Bool(on), f, 2, 1) == if on then "true" else "false"
  {
    assert "true" + "" == "true" && "false" + "" == "false";
  }

  /** A start over a file: a member of the right type sets its field, to an empty list or text too; a missing one and
      one of another type leave the configured value. */
  lemma {:induction false} FileSets(c: Config, ms: seq<Member>)
    ensures var z, f := Overlaid(c, ms), (key: string) => FindMember(ms, key);
            && (match f("caption_languages")
                case Some(Array(items)) => z.captionLanguages == Strings(items)
                case _ => z.captionLanguages == c.captionLanguages)
            && (match f("caption_control")
                case Some(Str(s)) => z.captionControl == s
                case _ => z.captionControl == c.captionControl)
            && (match f("caption_type")
                case Some(Str(s)) => z.captionType == s
                case _ => z.captionType == c.captionType)
            && (match f("caption_on")
                case Some(Bool(b)) => z.captionOn == b
                case _ => z.captionOn == c.captionOn)
            && (match f("caption_remember")
                case Some(Bool(b)) => z.captionRemember == b
                case _ => z.captionRemember == c.captionRemember)
            && (match f("disable_touch")
                case Some(Bool(b)) => z.disableTouch == b
                case _ => z.disableTouch == c.disableTouch)
  {
    hide FindMember, Strings;
  }

  lemma {:induction false} FindUpsert(ms: seq<Member>, key: string, v: Value, k: string)
    ensures FindMember(Upsert(ms, key, v), k) == if k == key then Some(v) else FindMember(ms, k)
    decreases |ms|
  {
    if ms != [] && ms[0].key != key {
      FindUpsert(ms[1..], key, v, k);
    }
  }

  lemma {:induction false} UpsertSound(ms: seq<Member>, f: Format, key: string, v: Value)
    requires Sound(ms, f) && Overlayable(key) && Storable(v, f)
    ensures Sound(Upsert(ms, key, v), f)
  {
    hide Overlayable, Storable;
    var i := FirstIndex(ms, key);
    UpsertAt(ms, i, Member(key, v));
  }

  ghost function FirstIndex(ms: seq<Member>, key: string): (i: nat)
    ensures IsFirst(ms, key, i)
  {
    if ms == [] || ms[0].key == key then 0
    else
      var i := FirstIndex(ms[1..], key);
      assert forall j :: 0 < j < i + 1 ==> ms[j] == ms[1..][j - 1];
      i + 1
  }

  lemma {:induction false} AllowedAll(ms: seq<Member>)
    requires forall i :: 0 <= i < |ms| ==> Overlayable(ms[i].key)
    ensures Allowed(ms) == ms
  {
    hide Overlayable;
    if ms != [] {
      AllowedAll(ms[1..]);
    }
  }

  lemma {:induction false} AllowedKeeps(ms: seq<Member>)
    requires forall i, j :: 0 <= i < j < |ms| ==> ms[i].key != ms[j].key
    ensures forall m :: m in Allowed(ms) ==> m in ms && Overlayable(m.key)
    ensures forall i, j :: 0 <= i < j < |Allowed(ms)| ==> Allowed(ms)[i].key != Allowed(ms)[j].key
  {
    if ms != [] {
      hide Overlayable;
      var kept := Allowed(ms[1..]);
      AllowedKeeps(ms[1..]);
      forall m | m in kept ensures m in ms && m.key != ms[0].key {
        var k :| 0 <= k < |ms[1..]| && ms[1..][k] == m;
        assert ms[k + 1] == m;
      }
      assert forall j :: 0 <= j < |kept| ==> kept[j] in kept;
    }
  }

  /** The file `save` writes. */
  function Saved(ms: seq<Member>, f: Format): string {
    DumpAll(Object(ms), f, INDENT)
  }

  /** What is written is what the next start loads. */
  lemma {:induction false} SavedLoads(ms: seq<Member>, f: Format)
    requires Sound(ms, f)
    ensures Loaded(Some(Saved(ms, f))) == ms
  {
    hide DumpAll, Parse;
    DumpThenParse(Object(ms), f, INDENT);
    AllowedAll(ms);
  }

  /** A loaded overlay is sound if its numbers are formatted so that they read back, */
  lemma {:induction false} LoadedSound(file: Option<string>, f: Format)
    requires forall m :: m in Loaded(file) ==> Printable(m.value, f)
    ensures Sound(Loaded(file), f)
  {
    hide Overlayable, Parse, Printable;
    if file.Some? && Parse(file.value).Some? && Parse(file.value).value.Object? {
      var ms := Parse(file.value).value.members;
      ParsedIsTidy(file.value);
      AllowedKeeps(ms);
      forall i | 0 <= i < |Allowed(ms)| ensures Storable(Allowed(ms)[i].value, f) {
        var m := Allowed(ms)[i];
        assert m in Allowed(ms) && m in Loaded(file);
        var k :| 0 <= k < |ms| && ms[k] == m;
      }
    }
  }

  /** so whatever the file held, where every double is. */
  lemma {:induction false} AlwaysSound(file: Option<string>, f: Format)
    requires Inverts(f)
    ensures Sound(Loaded(file), f)
  {
    hide Overlayable, Parse, Inverts;
    if file.Some? && Parse(file.value).Some? && Parse(file.value).value.Object? {
      var ms := Parse(file.value).value.members;
      ParsedIsTidy(file.value);
      ParsedIsPrintable(file.value, f);
      AllowedKeeps(ms);
      forall m | m in Allowed(ms) ensures Printable(m.value, f) {
        var k :| 0 <= k < |ms| && ms[k] == m;
      }
    }
    LoadedSound(file, f);
  }

  // ---- the store ----

  class Store {
    const format: Format
    var overlay: seq<Member>
    var file: Option<string>

    /** Constructed and loaded. */
    constructor (text: Option<string>, format: Format)
      ensures overlay == Loaded(text) && file == text && this.format == format
    {
      this.format := format;
      file := text;
      overlay := [];
      new;
      Load();
    }

    method Load()
      modifies this`overlay
      ensures overlay == Loaded(file)
    {
      overlay := [];
      if file.None? {
        return;
      }
      var v := ParseText(file.value);
      if v.None? || !v.value.Object? {
        return;
      }
      overlay := KeepAllowed(v.value.members);
    }

    /** The loop of `put` and `remove`. */
    method IndexOf(key: string) returns (i: nat)
      ensures IsFirst(overlay, key, i)
    {
      i := 0;
      while i < |overlay| && overlay[i].key != key
        invariant i <= |overlay| && forall j :: 0 <= j < i ==> overlay[j].key != key
      {
        i := i + 1;
      }
    }

    /** `put`; `written` says whether the atomic write succeeded. */
    method Put(key: string, v: Value, written: bool) returns (ok: bool)
      modifies this
      ensures overlay == if Overlayable(key) then Upsert(old(overlay), key, v) else old(overlay)
      ensures file == if Overlayable(key) && written then Some(Saved(overlay, format)) else old(file)
      ensures ok == (Overlayable(key) && written)
    {
      var allowed := IsOverlayable(key);
      if !allowed {
        return false;
      }
      var i := IndexOf(key);
      UpsertAt(overlay, i, Member(key, v));
      overlay := if i < |overlay| then overlay[i := Member(key, v)] else overlay + [Member(key, v)];
      ok := Save(written);
    }

    method Remove(key: string, written: bool) returns (ok: bool)
      modifies this
      ensures overlay == Removed(old(overlay), key)
      ensures file == if FindMember(old(overlay), key).Some? && written
                      then Some(Saved(overlay, format)) else old(file)
    {
      var i := IndexOf(key);
      RemovedIs(overlay, key, i);
      if i < |overlay| {
        overlay := overlay[..i] + overlay[i + 1..];
        ok := Save(written);
        return;
      }
      ok := true;
    }

    method Save(written: bool) returns (ok: bool)
      modifies this`file
      ensures file == if written then Some(Saved(overlay, format)) else old(file)
      ensures ok == written
    {
      var text := Dump(Object(overlay), format, INDENT);
      if written {
        file := Some(text);
      }
      ok := written;
    }
  }

  /** The loop of `load`. */
  method KeepAllowed(ms: seq<Member>) returns (kept: seq<Member>)
    ensures kept == Allowed(ms)
  {
    hide Overlayable;
    kept := [];
    for i := 0 to |ms|
      invariant kept + Allowed(ms[i..]) == Allowed(ms)
    {
      assert ms[i..][1..] == ms[i + 1..];
      var ok := IsOverlayable(ms[i].key);
      if ok {
        kept := kept + [ms[i]];
      }
    }
  }

  method IsOverlayable(key: string) returns (r: bool)
    ensures r == Overlayable(key)
  {
    for i := 0 to |TABLE|
      invariant forall j :: 0 <= j < i ==> TABLE[j].0 != key
    {
      if TABLE[i].0 == key {
        return true;
      }
    }
    r := false;
  }
}
