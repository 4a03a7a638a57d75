/** The caption settings over a run of the launcher and across its restart.

    A launcher holds the settings, the overlay of user.json in memory and the file itself. `Mirrors` says that
    the read-only configuration with the overlay over it gives the settings as they are, up to the on-state,
    which is written only while it is to be remembered: `keptOn` is the one a restart would find. A write may
    fail; `synced` says that the last one did not, so the file holds the overlay. */
module CaptionRestart {
  import opened Options
  import opened JsonSyntax
  import opened JsonParser
  import opened JsonDump
  import opened ConfigStore
  import opened Captions

  /** A call into `CaptionSettings`, and whether the write it may cause succeeds. */
  datatype Event =
    | Applied(action: string, written: bool)
    | Toggled(on: bool, written: bool)
    | Noted(result: string, written: bool)

  /** `synced`: the last write that was tried succeeded. `kept`: the on/off state was last changed, if ever,
      while it was to be remembered; `keptOn` is the value it last had from such a change. */
  datatype Launcher = Launcher(
    caps: Captions, overlay: seq<Member>, file: Option<string>, synced: bool, kept: bool, keptOn: bool)

  /** A start from the read-only configuration and whatever user.json holds. */
  function Start(base: Config, file: Option<string>): Launcher {
    var caps := Started(Overlaid(base, Loaded(file)));
    Launcher(caps, Loaded(file), file, true, true, caps.on)
  }

  function OutcomeOf(c: Captions, e: Event): Outcome {
    match e
    case Applied(action, _) => Act(c, action)
    case Toggled(on, _) => SetOnTo(c, on)
    case Noted(result, _) => if Seed(result).Some? then SetOnTo(c, Seed(result).value) else Outcome(c, None)
  }

  predicate ChangesOn(e: Event) {
    e.Toggled? || (e.Noted? && Seed(e.result).Some?)
  }

  function Step(f: Format, l: Launcher, e: Event): Launcher {
    var r := OutcomeOf(l.caps, e);
    Launcher(r.next, Written(l.overlay, r.write), Filed(l.file, f, l.overlay, r.write, e.written),
             if r.write.Some? then e.written else l.synced,
             if ChangesOn(e) then l.caps.remember else l.kept,
             if ChangesOn(e) && l.caps.remember then r.next.on else l.keptOn)
  }

  // ---- one write ----

  lemma {:induction false} StringsBack(xs: seq<string>)
    ensures Strings(StringsValue(xs).items) == xs
  {
    if xs != [] {
      StringsBack(xs[1..]);
      assert StringsValue(xs).items[1..] == StringsValue(xs[1..]).items;
    }
  }

  /** The settings, with the on/off state as it was last remembered, are what a restart would make of the
      overlay. */
  predicate Mirrors(base: Config, ms: seq<Member>, c: Captions, keptOn: bool) {
    Started(Overlaid(base, ms)) == c.(on := keptOn, known := c.remember)
  }

  lemma {:induction false} OverlaidUpsert(base: Config, ms: seq<Member>, m: Member)
    ensures var z := Overlaid(base, Upsert(ms, m.key, m.value));
            var a := Overlaid(base, ms);
            && z.captionControl == (if m.key == "caption_control" then StringOr(Some(m.value), base.captionControl)
                                    else a.captionControl)
            && z.captionType == (if m.key == "caption_type" then StringOr(Some(m.value), base.captionType)
                                 else a.captionType)
            && z.captionRemember == (if m.key == "caption_remember" then BoolOr(Some(m.value), base.captionRemember)
                                     else a.captionRemember)
            && z.captionsToast == (if m.key == "captions_toast" then BoolOr(Some(m.value), base.captionsToast)
                                   else a.captionsToast)
            && z.captionOn == (if m.key == "caption_on" then BoolOr(Some(m.value), base.captionOn)
                               else a.captionOn)
            && z.captionLanguages == (if m.key == "caption_languages" then ListOr(Some(m.value), base.captionLanguages)
                                      else a.captionLanguages)
            && z.captionLanguage == (if m.key == "caption_language" then StringOr(Some(m.value), base.captionLanguage)
                                     else a.captionLanguage)
  {
    hide StringOr, BoolOr, ListOr, FindMember, Upsert;
    FindUpsert(ms, m.key, m.value, "caption_control");
    FindUpsert(ms, m.key, m.value, "caption_type");
    FindUpsert(ms, m.key, m.value, "caption_remember");
    FindUpsert(ms, m.key, m.value, "captions_toast");
    FindUpsert(ms, m.key, m.value, "caption_on");
    FindUpsert(ms, m.key, m.value, "caption_languages");
    FindUpsert(ms, m.key, m.value, "caption_language");
  }

  lemma {:induction false} RelistMirrors(base: Config, ms: seq<Member>, c: Captions, keptOn: bool, xs: seq<string>)
    requires Mirrors(base, ms, c, keptOn) && xs != []
    ensures Mirrors(base, Written(ms, Relisted(c, xs).write), Relisted(c, xs).next, keptOn)
  {
    hide Strings;
    OverlaidUpsert(base, ms, Relisted(c, xs).write.value);
    StringsBack(xs);
  }

  lemma {:induction false} EditRelists(c: Captions, key: string, val: string)
    ensures var r := EditLanguages(c, key, val);
            (r.write.None? && r.next == c) || (r == Relisted(c, r.next.languages) && r.next.languages != [])
  {
    hide StringsValue, IndexOf;
  }

  lemma {:induction false} LanguagesMirror(base: Config, ms: seq<Member>, c: Captions, keptOn: bool, key: string,
                                           val: string)
    requires Mirrors(base, ms, c, keptOn)
    ensures Mirrors(base, Written(ms, EditLanguages(c, key, val).write), EditLanguages(c, key, val).next, keptOn)
  {
    hide Mirrors, EditLanguages;
    var r := EditLanguages(c, key, val);
    EditRelists(c, key, val);
    if r.write.Some? {
      RelistMirrors(base, ms, c, keptOn, r.next.languages);
    }
  }

  lemma {:induction false} FieldMirrors(base: Config, ms: seq<Member>, c: Captions, keptOn: bool, key: string,
                                        val: string)
    requires Mirrors(base, ms, c, keptOn)
    requires key == "control" || key == "type" || key == "remember" || key == "toast"
    ensures Mirrors(base, Written(ms, Edit(c, key, val).write), Edit(c, key, val).next, keptOn)
  {
    hide Overlaid, Upsert, EditLanguages;
    var r := Edit(c, key, val);
    if r.write.Some? {
      OverlaidUpsert(base, ms, r.write.value);
    }
  }

  lemma {:induction false} ActMirrors(base: Config, ms: seq<Member>, c: Captions, keptOn: bool, action: string)
    requires Mirrors(base, ms, c, keptOn)
    ensures Mirrors(base, Written(ms, Act(c, action).write), Act(c, action).next, keptOn)
  {
    hide Mirrors;
    if StartsWith(action, "cc.") {
      var key, val := Cut(action[3..]).0, Cut(action[3..]).1;
      if key == "control" || key == "type" || key == "remember" || key == "toast" {
        FieldMirrors(base, ms, c, keptOn, key, val);
      } else {
        LanguagesMirror(base, ms, c, keptOn, key, val);
      }
    }
  }

  lemma {:induction false} SetOnMirrors(base: Config, ms: seq<Member>, c: Captions, keptOn: bool, on: bool)
    requires Mirrors(base, ms, c, keptOn)
    ensures Mirrors(base, Written(ms, SetOnTo(c, on).write), SetOnTo(c, on).next, if c.remember then on else keptOn)
  {
    hide Overlaid, Upsert;
    if c.remember {
      OverlaidUpsert(base, ms, Member("caption_on", Bool(on)));
    }
  }

  // ---- runs ----

  lemma {:induction false} StringsStorable(xs: seq<string>, f: Format)
    ensures Storable(StringsValue(xs), f)
  {
    var v := StringsValue(xs);
    assert forall i :: 0 <= i < |v.items| ==> v.items[i].Str?;
  }

  predicate IsSimple(v: Value) {
    v.Str? || v.Bool?
  }

  lemma {:induction false} FieldWrites(c: Captions, key: string, val: string)
    requires key == "control" || key == "type" || key == "remember" || key == "toast"
    ensures var w := Edit(c, key, val).write; w.Some? ==> Overlayable(w.value.key) && IsSimple(w.value.value)
  {
    FieldKeys();
    hide Overlayable, EditLanguages;
  }

  lemma {:induction false} LanguagesWritten(c: Captions, key: string, val: string, f: Format)
    ensures var w := EditLanguages(c, key, val).write;
            w.Some? ==> Overlayable(w.value.key) && Storable(w.value.value, f)
  {
    FieldKeys();
    hide Overlayable, StringsValue, EditLanguages, Storable;
    EditRelists(c, key, val);
    StringsStorable(EditLanguages(c, key, val).next.languages, f);
  }

  lemma {:induction false} SimpleStorable(v: Value, f: Format)
    requires IsSimple(v)
    ensures Storable(v, f)
  {
  }

  lemma {:induction false} ActStorable(c: Captions, action: string, f: Format)
    ensures var w := Act(c, action).write; w.Some? ==> Overlayable(w.value.key) && Storable(w.value.value, f)
  {
    hide Overlayable, Storable, EditLanguages;
    if StartsWith(action, "cc.") {
      var key, val := Cut(action[3..]).0, Cut(action[3..]).1;
      if key == "control" || key == "type" || key == "remember" || key == "toast" {
        FieldWrites(c, key, val);
        var w := Edit(c, key, val).write;
        if w.Some? {
          SimpleStorable(w.value.value, f);
        }
      } else {
        LanguagesWritten(c, key, val, f);
      }
    }
  }

  lemma {:induction false} OutcomeStorable(c: Captions, e: Event, f: Format)
    ensures var w := OutcomeOf(c, e).write; w.Some? ==> Overlayable(w.value.key) && Storable(w.value.value, f)
  {
    FieldKeys();
    hide Overlayable, Storable, Act;
    SimpleStorable(Bool(true), f);
    SimpleStorable(Bool(false), f);
    if e.Applied? {
      ActStorable(c, e.action, f);
    }
  }

  ghost predicate Inv(base: Config, f: Format, l: Launcher) {
    && Sound(l.overlay, f) && Mirrors(base, l.overlay, l.caps, l.keptOn)
    && (l.kept ==> l.keptOn == l.caps.on)
    && (l.synced ==> Loaded(l.file) == l.overlay)
  }

  lemma {:induction false} StepKeeps(base: Config, f: Format, l: Launcher, e: Event)
    requires Inv(base, f, l)
    ensures Inv(base, f, Step(f, l, e))
  {
    hide Act, SetOnTo, Mirrors, Sound, Loaded, DumpAll;
    var r := OutcomeOf(l.caps, e);
    OutcomeStorable(l.caps, e, f);
    if r.write.Some? {
      UpsertSound(l.overlay, f, r.write.value.key, r.write.value.value);
    }
    SavedLoads(Written(l.overlay, r.write), f);
    StepMirrors(base, f, l, e);
  }

  lemma {:induction false} StepMirrors(base: Config, f: Format, l: Launcher, e: Event)
    requires Inv(base, f, l)
    ensures var z := Step(f, l, e);
            Mirrors(base, z.overlay, z.caps, z.keptOn) && (z.kept ==> z.keptOn == z.caps.on)
  {
    match e
    case Applied(action, _) =>
      ActMirrors(base, l.overlay, l.caps, l.keptOn, action);
      ActKeepsOn(l.caps, action);
    case Toggled(on, _) => SetOnMirrors(base, l.overlay, l.caps, l.keptOn, on);
    case Noted(result, _) =>
      if Seed(result).Some? {
        SetOnMirrors(base, l.overlay, l.caps, l.keptOn, Seed(result).value);
      }
  }

  lemma {:induction false} ActKeepsOn(c: Captions, action: string)
    ensures Act(c, action).next.on == c.on
  {
  }

  function After(f: Format, l: Launcher, es: seq<Event>): Launcher
    decreases |es|
  {
    if es == [] then l else After(f, Step(f, l, es[0]), es[1..])
  }

  lemma {:induction false} RunKeeps(base: Config, f: Format, l: Launcher, es: seq<Event>)
    requires Inv(base, f, l)
    ensures Inv(base, f, After(f, l, es))
    decreases |es|
  {
    hide Inv, Step;
    if es != [] {
      StepKeeps(base, f, l, es[0]);
      RunKeeps(base, f, Step(f, l, es[0]), es[1..]);
    }
  }

  /** After any calls, the last attempted write having succeeded, a restart restores the control, language
      list, type, remember and toast settings. The on/off state it restores is the last one set while it was
      to be remembered, and it trusts that state exactly when it is to be remembered now. */
  lemma {:induction false} RestartRestores(base: Config, f: Format, file: Option<string>, es: seq<Event>)
    requires Sound(Loaded(file), f)
    ensures var l := After(f, Start(base, file), es);
            l.synced ==> Start(base, l.file).caps == l.caps.(on := l.keptOn, known := l.caps.remember)
  {
    hide Sound, Step;
    StartHolds(base, f, file);
    RunKeeps(base, f, Start(base, file), es);
  }

  /** In particular it restores the on/off state if that was last changed while to be remembered. */
  lemma {:induction false} RestartKeepsOn(base: Config, f: Format, file: Option<string>, es: seq<Event>)
    requires Sound(Loaded(file), f)
    requires After(f, Start(base, file), es).synced && After(f, Start(base, file), es).kept
    ensures Start(base, After(f, Start(base, file), es).file).caps.on == After(f, Start(base, file), es).caps.on
  {
    hide Start, Sound, Loaded, Step, Mirrors;
    RestartRestores(base, f, file, es);
    StartHolds(base, f, file);
    RunKeeps(base, f, Start(base, file), es);
  }

  /** Both whatever user.json held, the number formatting keeping every double; and without any such
      assumption when there was no user.json. */
  lemma {:induction false} AnyFileRestores(base: Config, f: Format, file: Option<string>, es: seq<Event>)
    requires Inverts(f) || file.None?
    ensures var l := After(f, Start(base, file), es);
            && (l.synced ==> Start(base, l.file).caps == l.caps.(on := l.keptOn, known := l.caps.remember))
            && (l.synced && l.kept ==> Start(base, l.file).caps.on == l.caps.on)
  {
    hide Inverts, Start, Sound, Step, Mirrors;
    if file.Some? {
      AlwaysSound(file, f);
    } else {
      LoadedSound(file, f);
    }
    RestartRestores(base, f, file, es);
    if After(f, Start(base, file), es).synced && After(f, Start(base, file), es).kept {
      RestartKeepsOn(base, f, file, es);
    }
  }

  lemma {:induction false} StartHolds(base: Config, f: Format, file: Option<string>)
    requires Sound(Loaded(file), f)
    ensures Inv(base, f, Start(base, file))
  {
    hide Sound, Overlaid;
  }
}
