/** What each key does in the settings menu: to the page, and through its verdict to the launcher's settings. */
module OsdEdits {
  import opened Options
  import opened Captions
  import opened OsdPage
  import opened OsdMenu
  import opened OsdRuns

  /** The page is idle on an element, and agrees with the launcher. */
  predicate At(s: State, c: Captions, n: Node) {
    InStep(s, c) && Good(c) && s.picker.None? && s.order != [] && Focused(s) == Some(n)
  }

  /** A key on `s` leads to `z`, and to the settings `d` by way of its verdict. */
  predicate Does(s: State, c: Captions, cmd: Cmd, z: State, d: Captions)
    requires s.order != []
  {
    Exec(s, cmd).0 == z && Replayed(c, Exec(s, cmd).1) == d && !Shuts(Exec(s, cmd).1)
  }

  // ---- combos ----

  /** The rows of the Captions sub-tab. */
  lemma {:induction false} RowsAre(c: Captions)
    ensures OsdRows(c) == [
              Combo("control", ["local", "youtube"], c.control),
              LangList("languages", c.languages),
              Combo("type", ["author_first", "auto_first", "author_only", "auto_only"], c.kind),
              Combo("remember", ["on", "off"], if c.remember then "on" else "off"),
              Combo("toast", ["on", "off"], if c.toast then "on" else "off")]
  {
  }

  /** The settings with row `r` set to `value`. */
  function Set(c: Captions, r: nat, value: string): Captions
    requires r < 5 && r != 1
  {
    if r == 0 then c.(control := value)
    else if r == 2 then c.(kind := value)
    else if r == 3 then c.(remember := value == "on")
    else c.(toast := value == "on")
  }

  lemma {:induction false} OnlyPlace(opts: seq<string>, i: nat)
    requires i < |opts| && forall k :: 0 <= k < |opts| && k != i ==> opts[k] != opts[i]
    ensures LastIndex(opts, opts[i]) == i
  {
  }

  lemma {:induction false} OptionsDiffer(c: Captions, r: nat)
    requires r < 5 && r != 1
    ensures OsdRows(c)[r].Combo? && OsdRows(c)[r].options != [] && Distinct(OsdRows(c)[r].options)
  {
  }

  lemma {:induction false} EditSets(c: Captions, r: nat, i: nat)
    requires r < 5 && r != 1 && Good(c) && OsdRows(c)[r].Combo? && i < |OsdRows(c)[r].options|
    ensures var row := OsdRows(c)[r];
            Edit(c, row.key, row.options[i]).next == Set(c, r, row.options[i])
  {
    hide Distinct, EditLanguages;
  }

  /** The place after `i`, or before it, among `n` in a ring. */
  function Turned(i: nat, n: nat, right: bool): (j: nat)
    requires i < n
    ensures j < n
  {
    if right then (if i + 1 == n then 0 else i + 1) else if i == 0 then n - 1 else i - 1
  }

  lemma {:induction false} CycledIs(opts: seq<string>, i: nat, right: bool)
    requires i < |opts| && Distinct(opts)
    ensures Cycled(opts, opts[i], if right then 1 else -1) == opts[Turned(i, |opts|, right)]
  {
    hide LastIndex;
    OnlyPlace(opts, i);
    Ring(i, |opts|);
  }

  lemma {:induction false} Ring(i: nat, n: nat)
    requires i < n
    ensures (i + 1 + n) % n == Turned(i, n, true) && (i + -1 + n) % n == Turned(i, n, false)
  {
    hide Turned;
    TurnedIs(i, n);
    if i + 1 < n {
      Remainder(i + 1, n, 1);
    } else {
      Remainder(0, n, 2);
    }
    if i > 0 {
      Remainder(i - 1, n, 1);
    } else {
      Remainder(n - 1, n, 0);
    }
  }

  lemma {:induction false} TurnedIs(i: nat, n: nat)
    requires i < n
    ensures i + 1 < n ==> Turned(i, n, true) == i + 1
    ensures i + 1 == n ==> Turned(i, n, true) == 0
    ensures i > 0 ==> Turned(i, n, false) == i - 1
    ensures i == 0 ==> Turned(i, n, false) == n - 1
  {
  }

  lemma {:induction false} Remainder(j: nat, n: nat, k: nat)
    requires j < n && k <= 2
    ensures (j + k * n) % n == j
  {
    if k == 2 {
      assert (j + n) % n == j;
    }
  }

  lemma {:induction false} FiveRows(c: Captions)
    ensures |OsdRows(c)| == 5
  {
  }

  /** An option chosen on the page is set by the launcher. */
  lemma {:induction false} ChoiceArrives(c: Captions, r: nat, j: nat)
    requires r < 5 && r != 1 && Good(c) && OsdRows(c)[r].Combo? && j < |OsdRows(c)[r].options|
    ensures var row, d := OsdRows(c)[r], Set(c, r, OsdRows(c)[r].options[j]);
            var v := "apply:cc." + row.key + "=" + row.options[j];
            && Replayed(c, v) == d && !Shuts(v)
            && OsdRows(d) == OsdRows(c)[r := row.(value := row.options[j])] && Good(d)
  {
    hide OsdRows, Edit, ParseVerdict, Set, Good;
    FiveRows(c);
    var row := OsdRows(c)[r];
    KeysPlain(c, r);
    EditSets(c, r, j);
    EditChooses(c, r, row.options[j]);
    EditArrives(c, row.key, row.options[j]);
    ApplyIsQuiet(c, row.key, row.options[j]);
  }

  /** Right turns the combo in focus to the next option and Left to the one before, round and round, on the page
      and in the settings. */
  lemma {:induction false} ComboTurns(s: State, c: Captions, r: nat, i: nat, right: bool)
    requires r < 5 && r != 1 && At(s, c, ComboNode(r))
    requires OsdRows(c)[r].Combo? && i < |OsdRows(c)[r].options| && OsdRows(c)[r].options[i] == OsdRows(c)[r].value
    ensures var row := OsdRows(c)[r];
            var value := row.options[Turned(i, |row.options|, right)];
            var d := Set(c, r, value);
            && Does(s, c, if right then Right else Left, s.(rows := Some(OsdRows(d))), d)
            && OsdRows(d) == OsdRows(c)[r := row.(value := value)] && Good(d)
  {
    OptionsDiffer(c, r);
    hide OsdRows, Replayed, Shuts, Set, Good, Cycled, Distinct;
    var row := OsdRows(c)[r];
    CycledIs(row.options, i, right);
    ChoiceArrives(c, r, Turned(i, |row.options|, right));
  }

  lemma {:induction false} KeysPlain(c: Captions, r: nat)
    requires r < 5 && r != 1
    ensures OsdRows(c)[r].Combo? && '=' !in OsdRows(c)[r].key
  {
  }

  lemma {:induction false} ApplyIsQuiet(c: Captions, key: string, value: string)
    ensures !Shuts("apply:cc." + key + "=" + value)
  {
    var v := "apply:cc." + key + "=" + value;
    assert v[..6] == "apply:" && v[0] == 'a' && v[1] == 'p';
  }

  /** Setting a row twice is setting it once, and setting it to what it is changes nothing. */
  lemma {:induction false} SetTwice(c: Captions, r: nat, v: string, w: string)
    requires r < 5 && r != 1
    ensures Set(Set(c, r, v), r, w) == Set(c, r, w)
    ensures OsdRows(c)[r].Combo? && Set(c, r, OsdRows(c)[r].value) == c
  {
  }

  lemma {:induction false} SameOptions(c: Captions, r: nat, v: string)
    requires r < 5 && r != 1
    ensures OsdRows(c)[r].Combo? && OsdRows(Set(c, r, v))[r].Combo?
    ensures OsdRows(Set(c, r, v))[r].options == OsdRows(c)[r].options
  {
  }

  /** Left takes back what Right did, and Right what Left did. */
  lemma {:induction false} TurnAndBack(s: State, c: Captions, r: nat, i: nat, right: bool)
    requires r < 5 && r != 1 && At(s, c, ComboNode(r))
    requires OsdRows(c)[r].Combo? && i < |OsdRows(c)[r].options| && OsdRows(c)[r].options[i] == OsdRows(c)[r].value
    ensures var (z, v) := Exec(s, if right then Right else Left);
            z.order != [] && Does(z, Replayed(c, v), if right then Left else Right, s, c)
  {
    FiveRows(c);
    hide OsdRows, Set, Good, Exec, Replayed, Shuts;
    var row := OsdRows(c)[r];
    var j := Turned(i, |row.options|, right);
    var d := Set(c, r, row.options[j]);
    ComboTurns(s, c, r, i, right);
    SameOptions(c, r, row.options[j]);
    SetTwice(c, r, row.options[j], row.options[i]);
    TurnedKeepsFocus(s, c, d, r);
    ComboTurns(s.(rows := Some(OsdRows(d))), d, r, j, !right);
    assert s.(rows := Some(OsdRows(d))).(rows := Some(OsdRows(c))) == s;
  }

  lemma {:induction false} TurnedKeepsFocus(s: State, c: Captions, d: Captions, r: nat)
    requires At(s, c, ComboNode(r)) && Good(d)
    ensures At(s.(rows := Some(OsdRows(d))), d, ComboNode(r))
  {
    hide OsdRows, Good;
  }

  // ---- a key held down ----

  function Rights(k: nat): seq<Event> {
    if k == 0 then [] else [Press(Right)] + Rights(k - 1)
  }

  /** `k` presses of Right go `k` options on, starting over after the last. */
  lemma {:induction false} RightsTurn(m: Menu, s: State, r: nat, i: nat, k: nat)
    requires r < 5 && r != 1 && m.page == Some(s) && At(s, m.caps, ComboNode(r))
    requires OsdRows(m.caps)[r].Combo? && i < |OsdRows(m.caps)[r].options| && k <= |OsdRows(m.caps)[r].options|
    requires OsdRows(m.caps)[r].options[i] == OsdRows(m.caps)[r].value
    ensures var options := OsdRows(m.caps)[r].options;
            var d := Set(m.caps, r, options[if i + k < |options| then i + k else i + k - |options|]);
            && Feasible(m, Rights(k))
            && After(m, Rights(k)) == Menu(Some(s.(rows := Some(OsdRows(d)))), m.open, d)
    decreases k
  {
    FiveRows(m.caps);
    hide OsdRows, Set, Good, Exec, Replayed, Shuts, Distinct;
    var c, row := m.caps, OsdRows(m.caps)[r];
    var n := |row.options|;
    if k == 0 {
      SetTwice(c, r, row.value, row.value);
      assert s.(rows := Some(OsdRows(c))) == s;
    } else {
      var j := Turned(i, n, true);
      var d := Set(c, r, row.options[j]);
      var z := s.(rows := Some(OsdRows(d)));
      ComboTurns(s, c, r, i, true);
      SameOptions(c, r, row.options[j]);
      TurnedKeepsFocus(s, c, d, r);
      QuietStep(m, s, Right, z, d);
      RightsTurn(Menu(Some(z), m.open, d), z, r, j, k - 1);
      var at := if i + k < n then i + k else i + k - n;
      SetTwice(c, r, row.options[j], row.options[at]);
      assert Rights(k)[1..] == Rights(k - 1);
    }
  }

  lemma {:induction false} QuietStep(m: Menu, s: State, cmd: Cmd, z: State, d: Captions)
    requires m.page == Some(s) && s.order != [] && Does(s, m.caps, cmd, z, d)
    ensures CanStep(m) && Step(m, Press(cmd)) == Menu(Some(z), m.open, d)
  {
    hide Exec, Replayed, ParseVerdict;
  }

  /** So presses of Right reach every option, each after one number of them below the number of options. */
  lemma {:induction false} RightsReachAll(m: Menu, s: State, r: nat, i: nat, j: nat)
    requires r < 5 && r != 1 && m.page == Some(s) && At(s, m.caps, ComboNode(r))
    requires OsdRows(m.caps)[r].Combo?
    requires i < |OsdRows(m.caps)[r].options| && j < |OsdRows(m.caps)[r].options|
    requires OsdRows(m.caps)[r].options[i] == OsdRows(m.caps)[r].value
    ensures var options := OsdRows(m.caps)[r].options;
            var presses := Rights(if i <= j then j - i else j + |options| - i);
            Feasible(m, presses) && After(m, presses).caps == Set(m.caps, r, options[j])
  {
    FiveRows(m.caps);
    hide Set, OsdRows, At, Rights;
    var n := |OsdRows(m.caps)[r].options|;
    RightsTurn(m, s, r, i, if i <= j then j - i else j + n - i);
  }

  // ---- the language list ----

  /** Delete takes the language in focus off both lists; "system" takes the place of the last one. */
  lemma {:induction false} DeleteTakes(s: State, c: Captions, i: nat)
    requires PageOk(s) && i < |c.languages| && At(s, c, LangNode(c.languages[i]))
    ensures var xs := c.languages[..i] + c.languages[i + 1..];
            var d := c.(languages := if xs == [] then ["system"] else xs);
            var z := Exec(s, Delete).0;
            && Does(s, c, Delete, z, d) && InStep(z, d)
            && z.focusIdx == if s.focusIdx < |z.focusables| - 1 then s.focusIdx else |z.focusables| - 1
  {
    hide Edit, ParseVerdict, OsdRows, Kept, Panel, Distinct, RemoveLang, Closes;
    var code := c.languages[i];
    PageDrops(s, c, i);
    LauncherDrops(c, i);
    ApplyIsQuiet(c, "lang.remove", code);
    assert "apply:cc." + "lang.remove" + "=" + code == "apply:cc.lang.remove=" + code;
  }

  lemma {:induction false} PageDrops(s: State, c: Captions, i: nat)
    requires i < |c.languages| && InStep(s, c) && Distinct(c.languages)
    ensures var xs := c.languages[..i] + c.languages[i + 1..];
            var (z, v) := RemoveLang(s, c.languages[i]);
            && InStep(z, c.(languages := if xs == [] then ["system"] else xs))
            && v == "apply:cc.lang.remove=" + c.languages[i]
            && z.focusIdx == if s.focusIdx < |z.focusables| - 1 then s.focusIdx else |z.focusables| - 1
  {
    hide OsdRows, Kept, Panel, Distinct, LangRow, IndexOf, HasLangs, Items, WithItems;
    OnlyFirst(c.languages, i);
    LangRowOf(s, c);
    KeptIsWithout(c.languages, c.languages[i]);
  }

  lemma {:induction false} LauncherDrops(c: Captions, i: nat)
    requires i < |c.languages| && Distinct(c.languages)
    ensures var xs := c.languages[..i] + c.languages[i + 1..];
            Replayed(c, "apply:cc." + "lang.remove" + "=" + c.languages[i])
            == c.(languages := if xs == [] then ["system"] else xs)
  {
    hide Edit, Replayed, Distinct, IndexOf;
    OnlyFirst(c.languages, i);
    EditRemoves(c, c.languages[i]);
    EditArrives(c, "lang.remove", c.languages[i]);
  }

  lemma {:induction false} OnlyFirst(xs: seq<string>, i: nat)
    requires i < |xs| && Distinct(xs)
    ensures IndexOf(xs, xs[i]) == i
  {
  }

  /** Left moves the language in focus up by one place in both lists and Right moves it down, and the focus goes
      with it; at the end of the list nothing happens. */
  lemma {:induction false} LanguageMoves(s: State, c: Captions, i: nat, right: bool)
    requires PageOk(s) && i < |c.languages| && At(s, c, LangNode(c.languages[i]))
    ensures var key, j := if right then Right else Left, if right then i + 1 else i - 1;
            var z := Exec(s, key).0;
            if 0 <= j < |c.languages| then
              var d := c.(languages := c.languages[i := c.languages[j]][j := c.languages[i]]);
              Does(s, c, key, z, d) && InStep(z, d) && Focused(z) == Some(LangNode(c.languages[i]))
            else Does(s, c, key, s, c)
  {
    hide Edit, ParseVerdict, OsdRows, Distinct, MoveLang, Replayed, Closes, PageOk;
    var code, dir, key := c.languages[i], if right then 1 else -1, if right then "lang.down" else "lang.up";
    LangShown(s);
    PageSwaps(s, c, i, dir);
    LauncherSwaps(c, i, !right);
    ConsumedIsQuiet(c);
    ApplyIsQuiet(c, key, code);
  }

  lemma {:induction false} PageSwaps(s: State, c: Captions, i: nat, dir: int)
    requires i < |c.languages| && InStep(s, c) && Good(c) && s.tab.Settings? && s.sub.Subtitles?
    requires dir == 1 || dir == -1
    ensures var (z, v) := MoveLang(s, c.languages[i], dir);
            if 0 <= i + dir < |c.languages| then
              && InStep(z, c.(languages := c.languages[i := c.languages[i + dir]][i + dir := c.languages[i]]))
              && v == "apply:cc." + (if dir < 0 then "lang.up" else "lang.down") + "=" + c.languages[i]
              && Focused(z) == Some(LangNode(c.languages[i]))
            else z == s && v == CONSUMED
  {
    hide OsdRows, Distinct, LangRow, IndexOf, Refocused, Panel, LastIndex;
    var code := c.languages[i];
    OnlyFirst(c.languages, i);
    PageMoves(s, c, code, dir);
    LangRowOf(s, c);
    OnlyIndex(c.languages, code);
    if 0 <= i + dir < |c.languages| {
      SwapMoves(c.languages, i, i + dir);
      FollowsLanguage(s, c, i, i + dir);
    }
  }

  lemma {:induction false} LauncherSwaps(c: Captions, i: nat, up: bool)
    requires i < |c.languages| && Distinct(c.languages)
    ensures var j := if up then i - 1 else i + 1;
            0 <= j < |c.languages| ==>
              Replayed(c, "apply:cc." + (if up then "lang.up" else "lang.down") + "=" + c.languages[i])
              == c.(languages := c.languages[i := c.languages[j]][j := c.languages[i]])
  {
    hide Edit, Replayed, Distinct, IndexOf;
    OnlyFirst(c.languages, i);
    EditMoves(c, c.languages[i], up);
    EditArrives(c, if up then "lang.up" else "lang.down", c.languages[i]);
  }

  lemma {:induction false} FollowsLanguage(s: State, c: Captions, i: nat, j: nat)
    requires InStep(s, c) && s.tab.Settings? && s.sub.Subtitles? && i < |c.languages| && j < |c.languages|
    ensures HasLangs(s)
    ensures var z := Collected(WithItems(s, Swap(c.languages, i, j)));
            Focused(Refocused(z, c.languages[i])) == Some(LangNode(c.languages[i]))
  {
    LangRowOf(s, c);
    hide OsdRows, LangRow, Swap;
    var d := c.(languages := Swap(c.languages, i, j));
    var z := Collected(WithItems(s, d.languages));
    SwapPuts(c.languages, i, j);
    NodesAt(d, j);
    var nodes := CaptionNodes(OsdRows(d), 0);
    assert z.focusables == [SubSel] + nodes && z.focusables[j + 2] == nodes[j + 1];
    FirstLangIs(z.focusables, c.languages[i], j + 2);
  }

  lemma {:induction false} SwapPuts(xs: seq<string>, i: nat, j: nat)
    requires i < |xs| && j < |xs|
    ensures |Swap(xs, i, j)| == |xs| && Swap(xs, i, j)[j] == xs[i]
  {
  }

  lemma {:induction false} FirstLangIs(nodes: seq<Node>, code: string, k: nat)
    requires k < |nodes| && nodes[k] == LangNode(code)
    ensures var i := FirstLang(nodes, code); i < |nodes| && nodes[i] == LangNode(code)
  {
    if nodes[0] != LangNode(code) {
      FirstLangIs(nodes[1..], code, k - 1);
    }
  }

  // ---- the picker ----

  /** The picker is up on the `p`-th of its languages. */
  predicate Picking(s: State, c: Captions, p: nat) {
    InStep(s, c) && Good(c) && s.order != [] && s.picker == Some(p) && p < |s.langs|
  }

  /** In the picker ↑ and ↓ go one language and the tab keys ten, as far as the list goes; no key edits the list
      but Select. */
  lemma {:induction false} PickerMoves(s: State, c: Captions, p: nat)
    requires Picking(s, c, p)
    ensures var last := |s.langs| - 1;
            && Does(s, c, Up, s.(picker := Some(if p == 0 then 0 else p - 1)), c)
            && Does(s, c, Down, s.(picker := Some(if p == last then last else p + 1)), c)
            && Does(s, c, TabPrev, s.(picker := Some(if p < 10 then 0 else p - 10)), c)
            && Does(s, c, TabNext, s.(picker := Some(if p + 10 > last then last else p + 10)), c)
            && Does(s, c, ScrollUp, s.(picker := Some(if p == 0 then 0 else p - 1)), c)
            && Does(s, c, ScrollDown, s.(picker := Some(if p == last then last else p + 1)), c)
            && Does(s, c, Back, s.(picker := None), c)
    ensures forall cmd: Cmd :: cmd != Select ==> Replayed(c, Exec(s, cmd).1) == c
  {
    hide OsdRows, Good, ParseVerdict, Replayed, Closes;
    ConsumedIsQuiet(c);
  }

  /** Select adds the picker's language at the end of both lists, unless it is there, and takes the picker down. */
  lemma {:induction false} PickerAdds(s: State, c: Captions, p: nat)
    requires Picking(s, c, p) && s.langs[p] != ""
    ensures var d := if s.langs[p] in c.languages then c else c.(languages := c.languages + [s.langs[p]]);
            var z := Exec(s, Select).0;
            Does(s, c, Select, z, d) && InStep(z, d) && z.picker.None? && z.focusIdx == s.focusIdx
  {
    hide Edit, ParseVerdict, OsdRows, Closes, Good, LangRow, Panel;
    var code := s.langs[p];
    LangRowOf(s.(picker := None), c);
    ConsumedIsQuiet(c);
    if code !in c.languages {
      EditAdds(c, code);
      EditArrives(c, "lang.add", code);
      ApplyIsQuiet(c, "lang.add", code);
      assert "apply:cc." + "lang.add" + "=" + code == "apply:cc.lang.add=" + code;
    }
  }

  // ---- what is shown ----

  /** The Captions sub-tab lists, from the top, the selector, the first choice, the languages and the row that adds
      one, and the other three choices; the Updates tab lists its buttons. */
  lemma {:induction false} PanelIs(s: State, c: Captions)
    requires PageOk(s) && InStep(s, c)
    ensures s.tab.Settings? && s.sub.Subtitles? ==>
              && |s.focusables| == |c.languages| + 6
              && s.focusables[0] == SubSel && s.focusables[1] == ComboNode(0)
              && (forall i :: 0 <= i < |c.languages| ==> s.focusables[i + 2] == LangNode(c.languages[i]))
              && s.focusables[|c.languages| + 2..] == [AddNode, ComboNode(2), ComboNode(3), ComboNode(4)]
    ensures s.tab.Settings? && s.sub.Keys? ==> s.focusables == [SubSel]
    ensures s.tab.Updates? ==>
              && |s.focusables| == |s.buttons|
              && forall i :: 0 <= i < |s.buttons| ==> s.focusables[i] == ButtonNode(s.buttons[i])
    ensures s.tab.About? ==> s.focusables == []
  {
    hide LangRow, Good;
    CaptionPanelIs(c);
    ButtonsAre(s.buttons);
  }

  lemma {:induction false} CaptionPanelIs(c: Captions)
    ensures var nodes, n := CaptionNodes(OsdRows(c), 0), |c.languages|;
            && |nodes| == n + 5 && nodes[0] == ComboNode(0)
            && (forall i :: 0 <= i < n ==> nodes[i + 1] == LangNode(c.languages[i]))
            && nodes[n + 1..] == [AddNode, ComboNode(2), ComboNode(3), ComboNode(4)]
  {
    var rows := OsdRows(c);
    LangNodesCount(c.languages);
    assert CaptionNodes(rows, 4) == [ComboNode(4)] + CaptionNodes(rows, 5);
    assert CaptionNodes(rows, 3) == [ComboNode(3)] + CaptionNodes(rows, 4);
    assert CaptionNodes(rows, 2) == [ComboNode(2)] + CaptionNodes(rows, 3);
    assert CaptionNodes(rows, 1) == LangNodes(c.languages) + [AddNode] + CaptionNodes(rows, 2);
    assert CaptionNodes(rows, 0) == [ComboNode(0)] + CaptionNodes(rows, 1);
    forall i | 0 <= i < |c.languages| ensures CaptionNodes(rows, 0)[i + 1] == LangNode(c.languages[i]) {
      NodesAt(c, i);
    }
  }

  lemma {:induction false} ButtonsAre(buttons: seq<string>)
    ensures |ButtonNodes(buttons)| == |buttons|
    ensures forall i :: 0 <= i < |buttons| ==> ButtonNodes(buttons)[i] == ButtonNode(buttons[i])
  {
    if buttons != [] {
      ButtonsAre(buttons[1..]);
    }
  }

  /** The menu opens on the key list, with the selector in focus, on the settings as the launcher has them. */
  lemma {:induction false} OpensOn(m: Menu, more: seq<string>, about: bool, buttons: seq<string>, notes: bool,
                                   exit: bool)
    requires CanStep(m)
    ensures var z := Step(m, Open(more, about, buttons, notes, exit));
            && z.open && z.caps == m.caps && z.page.Some?
            && var s := z.page.value;
               && InStep(s, m.caps) && s.tab == Settings && s.sub == Keys && Focused(s) == Some(SubSel)
               && s.picker == None && s.langs == ["system"] + more && s.buttons == buttons && s.notes == notes
               && s.exitEnabled == exit
               && s.order == (if about then [Settings, Updates, About] else [Settings, Updates])
  {
    hide OsdRows;
  }

  /** New buttons leave the focus where it was, or on the last one if there are fewer. */
  lemma {:induction false} PushKeepsFocus(m: Menu, s: State, buttons: seq<string>)
    requires m.page == Some(s) && PageOk(s)
    ensures CanStep(m)
    ensures var z := Step(m, Push(buttons));
            && z.caps == m.caps && z.open == m.open && z.page.Some? && z.page.value.buttons == buttons
            && z.page.value.focusIdx ==
               if !s.tab.Updates? then s.focusIdx
               else if |buttons| <= s.focusIdx then |buttons| - 1
               else if s.focusIdx < 0 && buttons != [] then 0
               else s.focusIdx
  {
    hide HasLangs, CaptionNodes;
    ButtonsAre(buttons);
    ButtonsAre(s.buttons);
  }

  // ---- moving about ----

  /** The tabs in a ring: the tab shown after `tab`. */
  function NextTab(tab: Tab, about: bool): Tab {
    match tab
    case Settings => Updates
    case Updates => if about then About else Settings
    case About => Settings
  }

  /** The two tab keys go round the tabs in opposite directions, to the first element of the tab they reach, and
      leave the settings alone. */
  lemma {:induction false} TabsTurn(s: State, c: Captions, next: bool)
    requires PageOk(s) && s.picker.None?
    ensures var z := Exec(s, if next then TabNext else TabPrev).0;
            && (if next then z.tab == NextTab(s.tab, About in s.order) else s.tab == NextTab(z.tab, About in s.order))
            && Does(s, c, if next then TabNext else TabPrev, z, c) && z.order == s.order
            && z.focusIdx == (if z.focusables == [] then -1 else 0)
  {
    hide Panel, ParseVerdict, Replayed, Shuts, PageOk, Focused;
    ConsumedIsQuiet(c);
    TwoTabs();
    PageTabs(s);
    TabAfter(s, next);
  }

  lemma {:induction false} TabAfter(s: State, next: bool)
    requires (s.order == [Settings, Updates] || s.order == [Settings, Updates, About]) && s.tab in s.order
    ensures var z := CycleTab(s, if next then 1 else -1);
            if next then z.tab == NextTab(s.tab, About in s.order) else s.tab == NextTab(z.tab, About in s.order)
  {
    hide Panel;
    TwoTabs();
  }

  lemma {:induction false} PageTabs(s: State)
    requires PageOk(s)
    ensures (s.order == [Settings, Updates] || s.order == [Settings, Updates, About]) && s.tab in s.order
  {
  }

  lemma {:induction false} TwoTabs()
    ensures TabIndex([Settings, Updates], Settings) == 0 && TabIndex([Settings, Updates], Updates) == 1
    ensures TabIndex([Settings, Updates, About], Settings) == 0 && TabIndex([Settings, Updates, About], Updates) == 1
    ensures TabIndex([Settings, Updates, About], About) == 2
  {
    assert [Settings, Updates][1..] == [Updates] && [Settings, Updates, About][1..] == [Updates, About];
    assert [Updates, About][1..] == [About];
  }

  /** ↑ and ↓ take the focus one element up or down the panel, and no further than its ends; the key list and the
      release notes scroll instead. */
  lemma {:induction false} FocusMoves(s: State, c: Captions)
    requires PageOk(s) && s.picker.None? && s.focusables != [] && !(s.tab.Updates? && s.notes)
    requires !(s.tab.Settings? && s.sub.Keys?)
    ensures Does(s, c, Up, if s.focusIdx == 0 then s else s.(focusIdx := s.focusIdx - 1), c)
    ensures Does(s, c, Down, if s.focusIdx + 1 == |s.focusables| then s else s.(focusIdx := s.focusIdx + 1), c)
  {
    hide Panel, ParseVerdict, Replayed, Closes, HasLangs;
    ConsumedIsQuiet(c);
  }

  /** The selector of the Settings tab turns to its other page; the row after the languages opens the picker on
      its first entry; a button gives its action; Back closes the menu. */
  lemma {:induction false} KeysSay(s: State, c: Captions)
    requires PageOk(s) && s.picker.None?
    ensures Focused(s) == Some(SubSel) && s.rows.Some? ==>
              && Exec(s, Left) == Exec(s, Right)
              && var z := Exec(s, Right).0; z.sub != s.sub && z.focusIdx == 0 && Does(s, c, Right, z, c)
    ensures Focused(s) == Some(AddNode) ==> Does(s, c, Select, s.(picker := Some(0)), c)
    ensures Exec(s, Back) == (s, "close") && Shuts("close")
    ensures Exec(s, HoldStart) == (s, if s.exitEnabled then "hold" else CONSUMED)
    ensures Exec(s, Ignore) == (s, if s.tab.Updates? && "update.ignore" in s.buttons then "action:update.ignore"
                                   else CONSUMED)
  {
    hide Panel, ParseVerdict, Replayed, Closes, HasLangs;
    ConsumedIsQuiet(c);
  }

  lemma {:induction false} ButtonSays(s: State, c: Captions, action: string)
    requires s.order != [] && s.picker.None? && Focused(s) == Some(ButtonNode(action)) && action != ""
    ensures Exec(s, Select) == (s, "action:" + action)
    ensures ParseVerdict("action:" + action) == Action(action) && Replayed(c, "action:" + action) == c
    ensures Closes("action:" + action) <==> action != "update.check"
  {
    var v := "action:" + action;
    assert v[..7] == "action:" && v[7..] == action && v[0] == 'a' && v[1] == 'c';
    ActionIsQuiet(c, action);
  }
}
