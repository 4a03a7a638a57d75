/** The caption settings of launcher/src/caption_settings.cpp, kept by the launcher and persisted through
    the overlay of `ConfigStore`. Labels and the rendered scripts are not part of the model. */
module Captions {
  import opened Options
  import opened JsonSyntax
  import opened JsonParser
  import opened JsonDump
  import opened ConfigStore

  const SYSTEM := "system"
  const CONTROLS: seq<string> := ["local", "youtube"]
  const KINDS: seq<string> := ["author_first", "auto_first", "author_only", "auto_only"]
  const ON_OFF: seq<string> := ["on", "off"]

  /** `known`: `on` is a real state rather than a default waiting for the first video. */
  datatype Captions = Captions(
    control: string, languages: seq<string>, kind: string, remember: bool, toast: bool, on: bool, known: bool)

  /** What the constructor makes of the configuration it is handed. */
  function Normal(control: string, languages: seq<string>, kind: string, remember: bool, toast: bool,
                  on: bool): Captions {
    Captions(if control in CONTROLS then control else "local",
             if languages == [] then [SYSTEM] else languages,
             if kind in KINDS then kind else "author_first",
             remember, toast, on, remember)
  }

  /** Start-up: the legacy scalar seeds an empty language list. */
  function Started(c: Config): Captions {
    var languages :=
      if c.captionLanguages == [] && c.captionLanguage != "" then [c.captionLanguage] else c.captionLanguages;
    Normal(c.captionControl, languages, c.captionType, c.captionRemember, c.captionsToast, c.captionOn)
  }

  // ---- lists ----

  /** The first index of `x`, or the length. */
  function IndexOf(xs: seq<string>, x: string): (i: nat)
    ensures i <= |xs| && (i < |xs| ==> xs[i] == x) && forall j :: 0 <= j < i ==> xs[j] != x
  {
    if xs == [] || xs[0] == x then 0 else 1 + IndexOf(xs[1..], x)
  }

  function Without(xs: seq<string>, i: nat): seq<string>
    requires i < |xs|
  {
    xs[..i] + xs[i + 1..]
  }

  function Swap(xs: seq<string>, i: nat, j: nat): seq<string>
    requires i < |xs| && j < |xs|
  {
    xs[i := xs[j]][j := xs[i]]
  }

  predicate Distinct(xs: seq<string>) {
    forall i, j :: 0 <= i < j < |xs| ==> xs[i] != xs[j]
  }

  // ---- actions ----

  /** What precedes and follows the first '=' of `s`. */
  function Cut(s: string): (string, string) {
    if s == "" then ("", "")
    else if s[0] == '=' then ("", s[1..])
    else ([s[0]] + Cut(s[1..]).0, Cut(s[1..]).1)
  }

  /** The settings after an edit, and the member it persists. */
  datatype Outcome = Outcome(next: Captions, write: Option<Member>)

  function OnOff(on: bool): string {
    if on then "on" else "off"
  }

  function Relisted(c: Captions, languages: seq<string>): Outcome {
    Outcome(c.(languages := languages), Some(Member("caption_languages", StringsValue(languages))))
  }

  function EditLanguages(c: Captions, key: string, val: string): Outcome {
    var i := IndexOf(c.languages, val);
    if key == "lang.add" then
      if val == "" || i < |c.languages| then Outcome(c, None) else Relisted(c, c.languages + [val])
    else if i == |c.languages| then Outcome(c, None)
    else if key == "lang.remove" then
      var rest := Without(c.languages, i);
      Relisted(c, if rest == [] then [SYSTEM] else rest)
    else if key == "lang.up" then
      if i == 0 then Outcome(c, None) else Relisted(c, Swap(c.languages, i, i - 1))
    else if key == "lang.down" then
      if i + 1 == |c.languages| then Outcome(c, None) else Relisted(c, Swap(c.languages, i, i + 1))
    else Outcome(c, None)
  }

  function Edit(c: Captions, key: string, val: string): Outcome {
    if key == "control" then
      if val !in CONTROLS || c.control == val then Outcome(c, None)
      else Outcome(c.(control := val), Some(Member("caption_control", Str(val))))
    else if key == "type" then
      if val !in KINDS || c.kind == val then Outcome(c, None)
      else Outcome(c.(kind := val), Some(Member("caption_type", Str(val))))
    else if key == "remember" then
      if c.remember == (val == "on") then Outcome(c, None)
      else Outcome(c.(remember := val == "on"), Some(Member("caption_remember", Bool(val == "on"))))
    else if key == "toast" then
      if c.toast == (val == "on") then Outcome(c, None)
      else Outcome(c.(toast := val == "on"), Some(Member("captions_toast", Bool(val == "on"))))
    else EditLanguages(c, key, val)
  }

  function Act(c: Captions, action: string): Outcome {
    if !StartsWith(action, "cc.") then Outcome(c, None)
    else Edit(c, Cut(action[3..]).0, Cut(action[3..]).1)
  }

  function SetOnTo(c: Captions, on: bool): Outcome {
    Outcome(c.(on := on, known := true), if c.remember then Some(Member("caption_on", Bool(on))) else None)
  }

  /** What an apply result says about the on/off state, if anything. */
  function Seed(result: string): Option<bool> {
    if StartsWith(result, "seed_on:") then Some(true) else if result == "seed_off" then Some(false) else None
  }

  function Written(ms: seq<Member>, write: Option<Member>): seq<Member> {
    if write.Some? then Upsert(ms, write.value.key, write.value.value) else ms
  }

  function Filed(file: Option<string>, f: Format, ms: seq<Member>, write: Option<Member>,
                 written: bool): Option<string> {
    if write.Some? && written then Some(Saved(Written(ms, write), f)) else file
  }

  // ---- what the menu is given ----

  /** One row of the Captions sub-tab: a value cycled through its options, or the language list. */
  datatype Row = Combo(key: string, options: seq<string>, value: string) | LangList(key: string, items: seq<string>)

  function OsdRows(c: Captions): seq<Row> {
    [Combo("control", CONTROLS, c.control), LangList("languages", c.languages), Combo("type", KINDS, c.kind),
     Combo("remember", ON_OFF, OnOff(c.remember)), Combo("toast", ON_OFF, OnOff(c.toast))]
  }

  // ---- effective languages ----

  /** "system" stands for the locale, or for nothing when that is unknown; later repeats are dropped. */
  function Effective(xs: seq<string>, system: string): (r: seq<string>)
    decreases |xs|
  {
    if xs == [] then []
    else
      var front, x := Effective(xs[..|xs| - 1], system), xs[|xs| - 1];
      var c := if x == SYSTEM then system else x;
      if (x == SYSTEM && system == "") || c in front then front else front + [c]
  }

  /** Every preferred language is tried once, in the order of its first mention. */
  lemma {:induction false} EffectiveIs(xs: seq<string>, system: string)
    ensures Distinct(Effective(xs, system))
    ensures forall c :: c in Effective(xs, system) <==>
                          (c in xs && c != SYSTEM) || (SYSTEM in xs && c == system && system != "")
    ensures forall n: nat :: n <= |xs| ==> Effective(xs[..n], system) <= Effective(xs, system)
    decreases |xs|
  {
    if xs != [] {
      var front := xs[..|xs| - 1];
      EffectiveIs(front, system);
      assert xs == front + [xs[|xs| - 1]];
      forall n: nat | n <= |xs| ensures Effective(xs[..n], system) <= Effective(xs, system) {
        if n < |xs| {
          assert xs[..n] == front[..n];
        } else {
          assert xs[..n] == xs;
        }
      }
    }
  }

  // ---- the settings object ----

  class CaptionSettings {
    const store: Store
    const system: string
    var control: string
    var languages: seq<string>
    var kind: string
    var remember: bool
    var toast: bool
    var on: bool
    var known: bool

    function Value(): Captions
      reads this
    {
      Captions(control, languages, kind, remember, toast, on, known)
    }

    constructor (store: Store, system: string, control: string, languages: seq<string>, kind: string,
                 remember: bool, toast: bool, on: bool)
      ensures this.store == store && this.system == system
      ensures Value() == Normal(control, languages, kind, remember, toast, on)
    {
      this.store := store;
      this.system := system;
      this.control := if control in CONTROLS then control else "local";
      this.languages := if languages == [] then [SYSTEM] else languages;
      this.kind := if kind in KINDS then kind else "author_first";
      this.remember := remember;
      this.toast := toast;
      this.on := on;
      this.known := remember;
    }

    method FindLanguage(val: string) returns (i: nat)
      ensures i == IndexOf(languages, val)
    {
      i := 0;
      while i < |languages| && languages[i] != val
        invariant i <= |languages| && IndexOf(languages, val) == i + IndexOf(languages[i..], val)
      {
        assert languages[i..][1..] == languages[i + 1..];
        i := i + 1;
      }
    }

    /** Persist one member. */
    method Write(m: Member, written: bool)
      requires Overlayable(m.key)
      modifies store
      ensures store.overlay == Written(old(store.overlay), Some(m))
      ensures store.file == Filed(old(store.file), store.format, old(store.overlay), Some(m), written)
    {
      var ok := store.Put(m.key, m.value, written);
    }

    method PersistLanguages(written: bool)
      modifies store
      ensures var w := Some(Member("caption_languages", StringsValue(languages)));
              && store.overlay == Written(old(store.overlay), w)
              && store.file == Filed(old(store.file), store.format, old(store.overlay), w, written)
    {
      assert TABLE[4].0 == "caption_languages";
      Write(Member("caption_languages", StringsValue(languages)), written);
    }

    method ApplyLanguages(key: string, val: string, written: bool) returns (changed: bool)
      modifies this, store
      ensures var r := EditLanguages(old(Value()), key, val);
              && Value() == r.next && changed == r.write.Some?
              && store.overlay == Written(old(store.overlay), r.write)
              && store.file == Filed(old(store.file), store.format, old(store.overlay), r.write, written)
    {
      var i := FindLanguage(val);
      if key == "lang.add" {
        if val == "" || i < |languages| {
          return false;
        }
        languages := languages + [val];
      } else if key == "lang.remove" {
        if i == |languages| {
          return false;
        }
        languages := languages[..i] + languages[i + 1..];
        if languages == [] {
          languages := [SYSTEM];
        }
      } else if key == "lang.up" || key == "lang.down" {
        if i == |languages| {
          return false;
        }
        var j := if key == "lang.up" then (if i == 0 then i else i - 1) else i + 1;
        if j == i || j >= |languages| {
          return false;
        }
        languages := languages[i := languages[j]][j := languages[i]];
      } else {
        return false;
      }
      PersistLanguages(written);
      changed := true;
    }
  
    method ApplyField(key: string, val: string, written: bool) returns (changed: bool)
      requires key == "control" || key == "type" || key == "remember" || key == "toast"
      modifies this, store
      ensures var r := Edit(old(Value()), key, val);
              && Value() == r.next && changed == r.write.Some?
              && store.overlay == Written(old(store.overlay), r.write)
              && store.file == Filed(old(store.file), store.format, old(store.overlay), r.write, written)
    {
      FieldKeys();
      if key == "control" {
        if val !in CONTROLS || control == val {
          return false;
        }
        control := val;
        Write(Member("caption_control", Str(control)), written);
      } else if key == "type" {
        if val !in KINDS || kind == val {
          return false;
        }
        kind := val;
        Write(Member("caption_type", Str(kind)), written);
      } else {
        var isOn := val == "on";
        if key == "remember" {
          if remember == isOn {
            return false;
          }
          remember := isOn;
        } else {
          if toast == isOn {
            return false;
          }
          toast := isOn;
        }
        Write(Member(if key == "remember" then "caption_remember" else "captions_toast", Bool(isOn)), written);
      }
      changed := true;
    }

    /** `apply_action`: true when a setting changed. */
    method ApplyAction(action: string, written: bool) returns (changed: bool)
      modifies this, store
      ensures var r := Act(old(Value()), action);
              && Value() == r.next && changed == r.write.Some?
              && store.overlay == Written(old(store.overlay), r.write)
              && store.file == Filed(old(store.file), store.format, old(store.overlay), r.write, written)
    {
      hide Filed, Written, EditLanguages;
      if !StartsWith(action, "cc.") {
        NothingWritten(store.overlay, store.file, store.format, written);
        return false;
      }
      var key, val := CutAtEquals(action[3..]);
      if key == "control" || key == "type" || key == "remember" || key == "toast" {
        changed := ApplyField(key, val, written);
      } else {
        changed := ApplyLanguages(key, val, written);
      }
    }

    method SetOn(v: bool, written: bool)
      modifies this, store
      ensures var r := SetOnTo(old(Value()), v);
              && Value() == r.next
              && store.overlay == Written(old(store.overlay), r.write)
              && store.file == Filed(old(store.file), store.format, old(store.overlay), r.write, written)
    {
      FieldKeys();
      on := v;
      known := true;
      if remember {
        Write(Member("caption_on", Bool(on)), written);
      }
    }

    method NoteApply(result: string, written: bool)
      modifies this, store
      ensures Seed(result).None? ==>
                Value() == old(Value()) && store.overlay == old(store.overlay) && store.file == old(store.file)
      ensures Seed(result).Some? ==>
                var r := SetOnTo(old(Value()), Seed(result).value);
                && Value() == r.next && store.overlay == Written(old(store.overlay), r.write)
                && store.file == Filed(old(store.file), store.format, old(store.overlay), r.write, written)
    {
      if StartsWith(result, "seed_on:") {
        SetOn(true, written);
      } else if result == "seed_off" {
        SetOn(false, written);
      }
    }

    method EffectiveLanguages() returns (langs: seq<string>)
      ensures langs == Effective(languages, system)
    {
      langs := [];
      for i := 0 to |languages|
        invariant langs == Effective(languages[..i], system)
      {
        assert languages[..i + 1][..i] == languages[..i];
        var c := languages[i];
        if c == SYSTEM {
          if system == "" {
            continue;
          }
          c := system;
        }
        if c !in langs {
          langs := langs + [c];
        }
      }
      assert languages[..|languages|] == languages;
    }
  }

  lemma {:induction false} NothingWritten(ms: seq<Member>, file: Option<string>, f: Format, written: bool)
    ensures Written(ms, None) == ms && Filed(file, f, ms, None, written) == file
  {
  }

  lemma {:induction false} FieldKeys()
    ensures Overlayable("caption_control") && Overlayable("caption_type") && Overlayable("caption_remember")
    ensures Overlayable("captions_toast") && Overlayable("caption_on") && Overlayable("caption_languages")
  {
    assert TABLE[0].0 == "captions_toast" && TABLE[1].0 == "caption_remember" && TABLE[2].0 == "caption_type";
    assert TABLE[4].0 == "caption_languages" && TABLE[5].0 == "caption_control" && TABLE[6].0 == "caption_on";
  }

  method CutAtEquals(s: string) returns (key: string, val: string)
    ensures (key, val) == Cut(s)
  {
    var i := 0;
    assert s[0..] == s;
    while i < |s| && s[i] != '='
      invariant i <= |s|
      invariant Cut(s).0 == s[..i] + Cut(s[i..]).0 && Cut(s).1 == Cut(s[i..]).1
    {
      assert s[i..][1..] == s[i + 1..];
      assert s[..i + 1] == s[..i] + [s[i]];
      i := i + 1;
    }
    key := s[..i];
    val := if i < |s| then s[i + 1..] else "";
    assert i < |s| ==> s[i..][1..] == s[i + 1..];
    assert s[..i] + "" == s[..i];
  }
}
