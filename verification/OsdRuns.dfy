/** Whole sessions with the settings menu: it is opened on the launcher's settings, driven by commands, its
    Updates tab refreshed, closed or lost with the page, and opened again. */
module OsdRuns {
  import opened Options
  import opened Captions
  import opened OsdPage
  import opened OsdMenu

  datatype Menu = Menu(page: Option<State>, open: bool, caps: Captions)

  /** `Open` hands the page the picker's languages, "system" first. Every command is answered. */
  datatype Event =
    | Open(more: seq<string>, about: bool, buttons: seq<string>, notes: bool, exit: bool)
    | Press(cmd: Cmd)
    | Push(buttons: seq<string>)
    | PageLost

  function DoPress(m: Menu, s: State, cmd: Cmd): Menu
    requires s.order != []
  {
    var (z, v) := Exec(s, cmd);
    Menu(if Closes(v) then None else Some(z), m.open && !Shuts(v), Replayed(m.caps, v))
  }

  predicate CanStep(m: Menu) {
    m.page.Some? ==> m.page.value.order != []
  }

  function Step(m: Menu, e: Event): Menu
    requires CanStep(m)
  {
    match e
    case Open(more, about, buttons, notes, exit) =>
      Menu(Some(Opened(Some(OsdRows(m.caps)), [SYSTEM] + more, about, buttons, notes, exit)), true, m.caps)
    case Press(cmd) => if m.page.Some? then DoPress(m, m.page.value, cmd) else m.(open := false)
    case Push(buttons) => if m.page.Some? then m.(page := Some(Updated(m.page.value, buttons))) else m
    case PageLost => m.(page := None)
  }

  predicate Feasible(m: Menu, es: seq<Event>)
    decreases |es|
  {
    es == [] || (CanStep(m) && Feasible(Step(m, es[0]), es[1..]))
  }

  function After(m: Menu, es: seq<Event>): Menu
    requires Feasible(m, es)
    decreases |es|
  {
    if es == [] then m else After(Step(m, es[0]), es[1..])
  }

  /** The page's rows are the launcher's, the list is non-empty and free of duplicates, and focus and picker
      name what exists. */
  predicate Agrees(m: Menu) {
    Good(m.caps) && (m.page.Some? ==> PageOk(m.page.value) && InStep(m.page.value, m.caps))
  }

  lemma {:induction false} StepAgrees(m: Menu, e: Event)
    requires Agrees(m)
    ensures CanStep(m) && Agrees(Step(m, e))
  {
    hide OsdRows, Good, Exec, Replayed, Closes;
    match e
    case Open(more, about, buttons, notes, exit) =>
      RowsHaveLangs(m.caps);
      OpenedOk(Some(OsdRows(m.caps)), [SYSTEM] + more, about, buttons, notes, exit);
    case Press(cmd) =>
      if m.page.Some? {
        ExecOk(m.page.value, cmd);
        ExecInStep(m.page.value, m.caps, cmd);
      }
    case Push(buttons) =>
      if m.page.Some? {
        UpdatedOk(m.page.value, buttons);
      }
    case PageLost =>
  }

  lemma {:induction false} RowsHaveLangs(c: Captions)
    ensures LangRow(OsdRows(c)) < |OsdRows(c)|
  {
    var rows := OsdRows(c);
    assert rows[1..][0] == rows[1] && rows[1].LangList?;
  }

  lemma {:induction false} RunAgrees(m: Menu, es: seq<Event>)
    requires Agrees(m)
    ensures Feasible(m, es) && Agrees(After(m, es))
    decreases |es|
  {
    hide Agrees, CanStep, Step;
    if es != [] {
      StepAgrees(m, es[0]);
      RunAgrees(Step(m, es[0]), es[1..]);
    }
  }

  /** From a duplicate-free language list, page and launcher agree after any session. */
  lemma {:induction false} StaysInStep(c: Captions, es: seq<Event>)
    requires c == Normal(c.control, c.languages, c.kind, c.remember, c.toast, c.on) && Distinct(c.languages)
    ensures Feasible(Menu(None, false, c), es) && Agrees(After(Menu(None, false, c), es))
  {
    RunAgrees(Menu(None, false, c), es);
  }

  // ---- duplicates ----

  const EN := "en"

  /** One press; `Down` pressed `k` times. */
  function Downs(k: nat): seq<Event> {
    if k == 0 then [] else [Press(Down)] + Downs(k - 1)
  }

  lemma {:induction false} DownsMove(m: Menu, s: State, k: nat)
    requires m.page == Some(s) && s.order != [] && s.picker.None? && s.tab.Settings? && s.sub.Subtitles?
    requires 0 <= s.focusIdx && s.focusIdx + k < |s.focusables|
    ensures Feasible(m, Downs(k)) && After(m, Downs(k)) == m.(page := Some(s.(focusIdx := s.focusIdx + k)))
    decreases k
  {
    if k > 0 {
      ConsumedIsQuiet(m.caps);
      var z := s.(focusIdx := s.focusIdx + 1);
      assert Exec(s, Down) == (z, CONSUMED);
      assert Step(m, Press(Down)) == m.(page := Some(z));
      DownsMove(m.(page := Some(z)), z, k - 1);
      assert Downs(k)[1..] == Downs(k - 1);
    }
  }

  lemma {:induction false} RunAppend(m: Menu, es: seq<Event>, fs: seq<Event>)
    requires Feasible(m, es) && Feasible(After(m, es), fs)
    ensures Feasible(m, es + fs) && After(m, es + fs) == After(After(m, es), fs)
    decreases |es|
  {
    hide CanStep, Step;
    if es == [] {
      assert es + fs == fs;
    } else {
      RunAppend(Step(m, es[0]), es[1..], fs);
      assert (es + fs)[1..] == es[1..] + fs;
    }
  }

  /** The Captions sub-tab just opened on `c`. */
  function Shown(c: Captions, more: seq<string>): State {
    CycleSub(Opened(Some(OsdRows(c)), [SYSTEM] + more, false, [], false, true))
  }

  lemma {:induction false} ShownIs(c: Captions, more: seq<string>)
    ensures var s := Shown(c, more);
            && s.rows == Some(OsdRows(c)) && s.langs == [SYSTEM] + more && s.order != []
            && s.picker.None? && s.tab.Settings? && s.sub.Subtitles?
            && s.focusables == [SubSel] + CaptionNodes(OsdRows(c), 0) && s.focusables == Panel(s)
            && s.focusIdx == 0
  {
    hide OsdRows;
  }

  /** The menu is opened on `c` and focus moved to the `k`-th element of the Captions sub-tab. */
  lemma {:induction false} Reaches(c: Captions, more: seq<string>, k: nat) returns (es: seq<Event>)
    requires k < |Shown(c, more).focusables|
    ensures Feasible(Menu(None, false, c), es)
    ensures After(Menu(None, false, c), es) == Menu(Some(Shown(c, more).(focusIdx := k)), true, c)
  {
    var m0 := Menu(None, false, c);
    var open, right := Open(more, false, [], false, true), Press(Right);
    var m1 := Step(m0, open);
    var s1 := m1.page.value;
    assert s1.focusables == [SubSel];
    ConsumedIsQuiet(c);
    var s2 := Shown(c, more);
    assert Exec(s1, Right) == (s2, CONSUMED);
    var m2 := Menu(Some(s2), true, c);
    assert Step(m1, right) == m2;
    ShownIs(c, more);
    DownsMove(m2, s2, k);
    assert [open, right][1..] == [right] && [right][1..] == [];
    assert Feasible(m2, []) && Feasible(m1, [right]) && Feasible(m0, [open, right]);
    assert After(m1, [right]) == m2 && After(m0, [open, right]) == m2;
    RunAppend(m0, [open, right], Downs(k));
    es := [open, right] + Downs(k);
  }

  lemma {:induction false} LangNodesAt(items: seq<string>, i: nat)
    requires i < |items|
    ensures i < |LangNodes(items)| && LangNodes(items)[i] == LangNode(items[i])
  {
    if i > 0 {
      LangNodesAt(items[1..], i - 1);
    }
  }

  /** The languages come after two other elements, and the row to add one after them. */
  lemma {:induction false} ShownAt(c: Captions, more: seq<string>, i: nat)
    requires i <= |c.languages|
    ensures var nodes := Shown(c, more).focusables;
            i + 2 < |nodes| && nodes[i + 2] == if i < |c.languages| then LangNode(c.languages[i]) else AddNode
  {
    ShownIs(c, more);
    NodesAt(c, i);
  }

  lemma {:induction false} NodesAt(c: Captions, i: nat)
    requires i <= |c.languages|
    ensures var nodes := CaptionNodes(OsdRows(c), 0);
            i + 1 < |nodes| && nodes[i + 1] == if i < |c.languages| then LangNode(c.languages[i]) else AddNode
  {
    var rows := OsdRows(c);
    LangNodesCount(c.languages);
    if i < |c.languages| {
      LangNodesAt(c.languages, i);
    }
    assert CaptionNodes(rows, 0) == [ComboNode(0)] + CaptionNodes(rows, 1);
    assert CaptionNodes(rows, 1) == LangNodes(c.languages) + [AddNode] + CaptionNodes(rows, 2);
  }

  lemma {:induction false} KeptShorter(xs: seq<string>, i: nat, j: nat)
    requires i < j < |xs| && xs[i] == xs[j]
    ensures |Kept(xs, xs[i])| <= |xs| - 2
    decreases |xs|
  {
    if i > 0 {
      KeptShorter(xs[1..], i - 1, j - 1);
    } else {
      KeptLess(xs[1..], j - 1);
    }
  }

  lemma {:induction false} KeptLess(xs: seq<string>, j: nat)
    requires j < |xs|
    ensures |Kept(xs, xs[j])| <= |xs| - 1
    decreases |xs|
  {
    if j > 0 {
      KeptLess(xs[1..], j - 1);
    } else {
      KeptBound(xs[1..], xs[0]);
    }
  }

  lemma {:induction false} KeptBound(xs: seq<string>, x: string)
    ensures |Kept(xs, x)| <= |xs|
  {
    if xs != [] {
      KeptBound(xs[1..], x);
    }
  }

  /** Focus is on a language that occurs twice: Delete takes every copy off the page and one off the
      launcher, and the two differ unless that leaves "system" on both. */
  lemma {:induction false} DeleteDiverges(m: Menu, s: State, i: nat, j: nat)
    requires m.page == Some(s) && s.order != [] && s.picker.None? && InStep(s, m.caps)
    requires i < j < |m.caps.languages| && m.caps.languages[i] == m.caps.languages[j]
    requires m.caps.languages != [SYSTEM, SYSTEM] && Focused(s) == Some(LangNode(m.caps.languages[i]))
    ensures var es := [Press(Delete)];
            && Feasible(m, es) && After(m, es).page.Some?
            && !InStep(After(m, es).page.value, After(m, es).caps)
  {
    var es := [Press(Delete)];
    RemoveDiverges(s, m.caps, i, j);
    DeletesFocused(m, s, m.caps.languages[i]);
    hide Step, CanStep, RemoveLang, OsdRows, Replayed;
    assert es[1..] == [];
    assert Feasible(Step(m, es[0]), []) && After(Step(m, es[0]), []) == Step(m, es[0]);
  }

  /** The picker's second language is added from the row that opens it. */
  lemma {:induction false} AddsEnglish(m: Menu, s: State)
    requires m.page == Some(s) && s.order != [] && s.picker.None? && InStep(s, m.caps)
    requires Focused(s) == Some(AddNode) && |s.langs| > 1 && s.langs[1] == EN && EN !in m.caps.languages
    ensures var es := [Press(Select), Press(Down), Press(Select)];
            var c := m.caps.(languages := m.caps.languages + [EN]);
            && Feasible(m, es)
            && After(m, es) == Menu(Some(Collected(s.(rows := Some(OsdRows(c))))), m.open, c)
  {
    hide OsdRows, Edit, ParseVerdict, Collected, HasLangs, Items, WithItems;
    var es := [Press(Select), Press(Down), Press(Select)];
    var c := m.caps.(languages := m.caps.languages + [EN]);
    ConsumedIsQuiet(m.caps);
    var s1, s2 := s.(picker := Some(0)), s.(picker := Some(1));
    var m1, m2 := m.(page := Some(s1)), m.(page := Some(s2));
    assert Step(m, es[0]) == m1 && Step(m1, es[1]) == m2;
    LangRowOf(s, m.caps);
    EditAdds(m.caps, EN);
    EditArrives(m.caps, "lang.add", EN);
    assert "apply:cc." + "lang.add" + "=" + EN == "apply:cc.lang.add=" + EN;
    PicksEnglish(s, m.caps);
    NotShut(m.caps, "cc.lang.add=" + EN);
    var z := Collected(s.(rows := Some(OsdRows(c))));
    assert Step(m2, es[2]) == Menu(Some(z), m.open, c);
    assert es[1..] == [es[1], es[2]] && es[1..][1..] == [es[2]] && [es[2]][1..] == [];
    assert Feasible(m2, [es[2]]) && Feasible(m1, es[1..]);
  }

  lemma {:induction false} PicksEnglish(s: State, c: Captions)
    requires s.picker.None? && InStep(s, c) && |s.langs| > 1 && s.langs[1] == EN && EN !in c.languages
    ensures var d := c.(languages := c.languages + [EN]);
            PickerSelect(s.(picker := Some(1))) == (Collected(s.(rows := Some(OsdRows(d)))), "apply:cc.lang.add=" + EN)
  {
    hide OsdRows;
    LangRowOf(s, c);
  }

  lemma {:induction false} NotShut(c: Captions, action: string)
    ensures !Shuts("apply:" + action)
  {
    var v := "apply:" + action;
    assert v[..6] == "apply:" && v[0] == 'a' && v[1] == 'p';
  }

  /** From a list with a duplicate, one language removed in the menu takes page and launcher apart. From
      ["system", "system"] another language has to be added first. The picker offers English after "system",
      and whatever else. */
  lemma {:induction false} DuplicatesDiverge(c: Captions, more: seq<string>, i: nat, j: nat) returns (es: seq<Event>)
    requires i < j < |c.languages| && c.languages[i] == c.languages[j] && more != [] && more[0] == EN
    ensures Feasible(Menu(None, false, c), es)
    ensures var m := After(Menu(None, false, c), es); m.page.Some? && !InStep(m.page.value, m.caps)
  {
    var m0, s := Menu(None, false, c), Shown(c, more);
    ShownIs(c, more);
    if c.languages == [SYSTEM, SYSTEM] {
      es := SystemTwice(c, more);
    } else {
      ShownAt(c, more, i);
      var at := s.(focusIdx := i + 2);
      var es0 := Reaches(c, more, i + 2);
      hide Shown;
      DeleteDiverges(Menu(Some(at), true, c), at, i, j);
      RunAppend(m0, es0, [Press(Delete)]);
      es := es0 + [Press(Delete)];
    }
  }

  lemma {:induction false} SystemTwice(c: Captions, more: seq<string>) returns (es: seq<Event>)
    requires c.languages == [SYSTEM, SYSTEM] && more != [] && more[0] == EN
    ensures Feasible(Menu(None, false, c), es)
    ensures var m := After(Menu(None, false, c), es); m.page.Some? && !InStep(m.page.value, m.caps)
  {
    var m0, s := Menu(None, false, c), Shown(c, more).(focusIdx := 4);
    ShownIs(c, more);
    ShownAt(c, more, 2);
    var es0 := Reaches(c, more, 4);
    var m1, add := Menu(Some(s), true, c), [Press(Select), Press(Down), Press(Select)];
    AddsEnglish(m1, s);
    var d := c.(languages := c.languages + [EN]);
    var z := Collected(s.(rows := Some(OsdRows(d))));
    var m2 := Menu(Some(z), true, d);
    NodesAt(d, 1);
    UpMoves(m2, z);
    var at := z.(focusIdx := 3);
    var m3 := Menu(Some(at), true, d);
    DeleteDiverges(m3, at, 0, 1);
    hide Shown, Step, CanStep, OsdRows, Collected;
    RunAppend(m2, [Press(Up)], [Press(Delete)]);
    RunAppend(m1, add, [Press(Up)] + [Press(Delete)]);
    RunAppend(m0, es0, add + ([Press(Up)] + [Press(Delete)]));
    es := es0 + (add + ([Press(Up)] + [Press(Delete)]));
  }

  lemma {:induction false} UpMoves(m: Menu, s: State)
    requires m.page == Some(s) && s.order != [] && s.picker.None? && s.tab.Settings? && s.sub.Subtitles?
    requires 0 < s.focusIdx < |s.focusables|
    ensures var es := [Press(Up)];
            Feasible(m, es) && After(m, es) == m.(page := Some(s.(focusIdx := s.focusIdx - 1)))
  {
    ConsumedIsQuiet(m.caps);
    var z := s.(focusIdx := s.focusIdx - 1);
    assert Exec(s, Up) == (z, CONSUMED);
    assert Step(m, Press(Up)) == m.(page := Some(z)) && [Press(Up)][1..] == [];
  }

  lemma {:induction false} DeletesFocused(m: Menu, s: State, code: string)
    requires m.page == Some(s) && s.order != [] && s.picker.None? && Focused(s) == Some(LangNode(code))
    requires !Closes(RemoveLang(s, code).1)
    ensures CanStep(m)
    ensures var (z, v) := RemoveLang(s, code);
            Step(m, Press(Delete)) == Menu(Some(z), m.open && !Shuts(v), Replayed(m.caps, v))
  {
    hide RemoveLang, Replayed, Closes, Shuts;
  }

  lemma {:induction false} RemoveDiverges(s: State, c: Captions, i: nat, j: nat)
    requires InStep(s, c)
    requires i < j < |c.languages| && c.languages[i] == c.languages[j] && c.languages != [SYSTEM, SYSTEM]
    ensures var (z, v) := RemoveLang(s, c.languages[i]); !Closes(v) && !InStep(z, Replayed(c, v))
  {
    hide Edit, ParseVerdict, IndexOf;
    var code, xs := c.languages[i], c.languages;
    LangRowOf(s, c);
    KeptShorter(xs, i, j);
    EditRemoves(c, code);
    EditArrives(c, "lang.remove", code);
    assert "apply:cc." + "lang.remove" + "=" + code == "apply:cc.lang.remove=" + code;
    var rest := Without(xs, IndexOf(xs, code));
    var items := if Kept(xs, code) == [] then [SYSTEM] else Kept(xs, code);
    if |xs| == 2 {
      assert rest == [code];
    }
    assert items != rest;
    assert OsdRows(c.(languages := items))[1] != OsdRows(c.(languages := rest))[1];
  }

  ghost predicate AlwaysInStep(c: Captions) {
    forall es: seq<Event> :: Feasible(Menu(None, false, c), es) ==> PageInStep(After(Menu(None, false, c), es))
  }

  predicate PageInStep(m: Menu) {
    m.page.Some? ==> InStep(m.page.value, m.caps)
  }

  /** Page and launcher stay in step through every session exactly when the list they start from has no
      duplicates. */
  lemma {:induction false} InStepExactly(c: Captions)
    requires c == Normal(c.control, c.languages, c.kind, c.remember, c.toast, c.on)
    ensures AlwaysInStep(c) <==> Distinct(c.languages)
  {
    hide Step, CanStep, OsdRows;
    if Distinct(c.languages) {
      forall es: seq<Event> | Feasible(Menu(None, false, c), es) ensures PageInStep(After(Menu(None, false, c), es)) {
        StaysInStep(c, es);
      }
    } else {
      var i: nat, j: nat :| i < j < |c.languages| && c.languages[i] == c.languages[j];
      var es := DuplicatesDiverge(c, [EN], i, j);
      assert !PageInStep(After(Menu(None, false, c), es));
    }
  }
}
