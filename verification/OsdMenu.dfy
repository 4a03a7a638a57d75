/** The settings menu across the bridge of launcher/src/osdmenu.cpp: the page edits its own copy of the
    caption settings and answers with a verdict, the launcher replays the verdict on `CaptionSettings`.

    The two list editors were written independently: the page drops every copy of a language and looks up
    the last one when it moves it, the launcher finds the first. `InStep` says that the page's rows are the
    launcher's; each edit on the page is matched with the launcher's own reading of the verdict it gives,
    and the two agree because the list has no duplicates (`Good`). */
module OsdMenu {
  import opened Options
  import JsonParser
  import ConfigStore
  import opened Captions
  import opened OsdPage

  datatype Verdict = Close | Gone | Action(action: string) | Apply(action: string) | Hold | Unreachable | Consumed

  function ParseVerdict(v: string): Verdict {
    if v == "close" then Close
    else if v == "gone" || v == "" then Gone
    else if JsonParser.StartsWith(v, "action:") then Action(v[7..])
    else if JsonParser.StartsWith(v, "apply:") then Apply(v[6..])
    else if v == "hold" then Hold
    else if v == "unreachable" then Unreachable
    else Consumed
  }

  /** The launcher's settings after `exec` has acted on the page's answer. */
  function Replayed(c: Captions, v: string): Captions {
    match ParseVerdict(v)
    case Apply(action) => Act(c, action).next
    case _ => c
  }

  /** The page is torn down. */
  predicate Closes(v: string) {
    match ParseVerdict(v)
    case Close => true
    case Action(a) => a != "update.check"
    case _ => false
  }

  /** The launcher stops capturing input. */
  predicate Shuts(v: string) {
    Closes(v) || ParseVerdict(v).Gone?
  }

  // ---- what the launcher reads out of an answer ----

  lemma {:induction false} CutKey(key: string, val: string)
    requires '=' !in key
    ensures Cut(key + "=" + val) == (key, val)
    decreases |key|
  {
    var s := key + "=" + val;
    if key == "" {
      assert s[1..] == val;
    } else {
      CutKey(key[1..], val);
      assert s[1..] == key[1..] + "=" + val;
      assert [key[0]] + key[1..] == key;
    }
  }

  /** An edit answered by the page reaches `apply_action` whole, whatever the value contains. */
  lemma {:induction false} EditArrives(c: Captions, key: string, val: string)
    requires '=' !in key
    ensures ParseVerdict("apply:cc." + key + "=" + val) == Apply("cc." + key + "=" + val)
    ensures Replayed(c, "apply:cc." + key + "=" + val) == Edit(c, key, val).next
    ensures !Closes("apply:cc." + key + "=" + val)
  {
    var v, action := "apply:cc." + key + "=" + val, "cc." + key + "=" + val;
    assert v == "apply:" + action;
    assert v[..6] == "apply:" && v[6..] == action && v[0] == 'a' && v[1] == 'p';
    assert action[..3] == "cc.";
    assert action[3..] == key + "=" + val;
    CutKey(key, val);
  }

  lemma {:induction false} ConsumedIsQuiet(c: Captions)
    ensures Replayed(c, CONSUMED) == c && !Shuts(CONSUMED)
    ensures Replayed(c, "hold") == c && !Closes("hold")
    ensures Replayed(c, "close") == c && Closes("close")
  {
    assert CONSUMED[0] == 'c' && "hold"[0] == 'h';
  }

  lemma {:induction false} ActionIsQuiet(c: Captions, action: string)
    ensures Replayed(c, "action:" + action) == c
    ensures Closes("action:" + action) <==> action != "update.check"
  {
    var v := "action:" + action;
    assert v[..7] == "action:" && v[7..] == action && v[0] == 'a' && v[1] == 'c';
    assert ParseVerdict(v) == Action(action);
  }

  // ---- in step ----

  /** What the launcher's settings are at every step: valid choices and a duplicate-free, non-empty list. */
  predicate Good(c: Captions) {
    c.control in CONTROLS && c.kind in KINDS && c.languages != [] && Distinct(c.languages)
  }

  predicate InStep(s: State, c: Captions) {
    s.rows == Some(OsdRows(c))
  }

  lemma {:induction false} LangRowOf(s: State, c: Captions)
    requires InStep(s, c)
    ensures LangRow(OsdRows(c)) == 1 && HasLangs(s) && Items(s) == c.languages
    ensures forall xs: seq<string> :: WithItems(s, xs).rows == Some(OsdRows(c.(languages := xs)))
  {
    var rows := OsdRows(c);
    assert rows[0].Combo? && rows[1].LangList?;
    assert rows[1..][0] == rows[1];
    forall xs: seq<string> ensures WithItems(s, xs).rows == Some(OsdRows(c.(languages := xs))) {
      assert rows[1 := rows[1].(items := xs)] == OsdRows(c.(languages := xs));
    }
  }

  lemma {:induction false} OnlyIndex(xs: seq<string>, x: string)
    requires Distinct(xs)
    ensures LastIndex(xs, x) == if IndexOf(xs, x) < |xs| then IndexOf(xs, x) else -1
  {
  }

  lemma {:induction false} KeptIsWithout(xs: seq<string>, x: string)
    requires Distinct(xs) && x in xs
    ensures Kept(xs, x) == Without(xs, IndexOf(xs, x)) && Distinct(Kept(xs, x))
    decreases |xs|
  {
    if xs[0] == x {
      KeptAll(xs[1..], x);
    } else {
      KeptIsWithout(xs[1..], x);
      assert Without(xs, IndexOf(xs, x)) == [xs[0]] + Without(xs[1..], IndexOf(xs[1..], x));
    }
  }

  lemma {:induction false} KeptAll(xs: seq<string>, x: string)
    requires x !in xs
    ensures Kept(xs, x) == xs
  {
    if xs != [] {
      KeptAll(xs[1..], x);
    }
  }

  // ---- each edit, as the launcher makes it ----

  lemma {:induction false} EditRemoves(c: Captions, code: string)
    requires code in c.languages
    ensures var rest := Without(c.languages, IndexOf(c.languages, code));
            Edit(c, "lang.remove", code).next == c.(languages := if rest == [] then [SYSTEM] else rest)
  {
    hide ConfigStore.StringsValue, Without;
  }

  lemma {:induction false} EditMoves(c: Captions, code: string, up: bool)
    requires code in c.languages
    ensures var i := IndexOf(c.languages, code);
            Edit(c, if up then "lang.up" else "lang.down", code).next ==
            c.(languages := if up then (if i == 0 then c.languages else Swap(c.languages, i, i - 1))
                            else if i + 1 == |c.languages| then c.languages else Swap(c.languages, i, i + 1))
  {
    hide ConfigStore.StringsValue, Swap;
  }

  lemma {:induction false} EditAdds(c: Captions, code: string)
    requires code !in c.languages && code != ""
    ensures Edit(c, "lang.add", code).next == c.(languages := c.languages + [code])
  {
    hide ConfigStore.StringsValue;
  }

  /** A combo edit to one of the row's options takes effect. */
  lemma {:induction false} EditChooses(c: Captions, r: nat, value: string)
    requires r < 5 && r != 1 && value in OsdRows(c)[r].options && Good(c)
    ensures var row, d := OsdRows(c)[r], Edit(c, OsdRows(c)[r].key, value).next;
            OsdRows(d) == OsdRows(c)[r := row.(value := value)] && Good(d)
  {
    hide Distinct, EditLanguages;
  }

  // ---- each edit, on both sides ----

  lemma {:induction false} RemoveInStep(s: State, c: Captions, code: string)
    requires InStep(s, c) && Good(c) && code in c.languages
    ensures var (z, v) := RemoveLang(s, code); var d := Replayed(c, v); InStep(z, d) && Good(d) && !Closes(v)
  {
    hide Edit, ParseVerdict, OsdRows, IndexOf, Kept, Without;
    LangRowOf(s, c);
    KeptIsWithout(c.languages, code);
    EditRemoves(c, code);
    EditArrives(c, "lang.remove", code);
    assert "apply:cc." + "lang.remove" + "=" + code == "apply:cc.lang.remove=" + code;
  }

  lemma {:induction false} SwapDistinct(xs: seq<string>, i: nat, j: nat)
    requires Distinct(xs) && i < |xs| && j < |xs|
    ensures Distinct(Swap(xs, i, j)) && Swap(xs, i, j) != []
  {
  }

  /** Where `code` goes, by the launcher's reckoning. */
  function Moved(c: Captions, code: string, up: bool): Captions {
    var i := IndexOf(c.languages, code);
    if i == |c.languages| || (up && i == 0) || (!up && i + 1 == |c.languages|) then c
    else c.(languages := Swap(c.languages, i, if up then i - 1 else i + 1))
  }

  lemma {:induction false} PageMoves(s: State, c: Captions, code: string, dir: int)
    requires InStep(s, c) && Good(c) && code in c.languages && (dir == 1 || dir == -1)
    ensures InStep(MoveLang(s, code, dir).0, Moved(c, code, dir < 0))
    ensures MoveLang(s, code, dir).1 ==
              if Moved(c, code, dir < 0) == c then CONSUMED
              else "apply:cc." + (if dir < 0 then "lang.up" else "lang.down") + "=" + code
  {
    hide OsdRows, IndexOf, LastIndex, Swap, Distinct, Panel, FirstLang;
    LangRowOf(s, c);
    OnlyIndex(c.languages, code);
    var i := IndexOf(c.languages, code);
    assert "apply:cc." + "lang.up" + "=" + code == "apply:cc.lang." + "up" + "=" + code;
    assert "apply:cc." + "lang.down" + "=" + code == "apply:cc.lang." + "down" + "=" + code;
    if 0 <= i + dir < |c.languages| {
      SwapMoves(c.languages, i, i + dir);
    }
  }

  lemma {:induction false} SwapMoves(xs: seq<string>, i: nat, j: nat)
    requires Distinct(xs) && i < |xs| && j < |xs| && i != j
    ensures Swap(xs, i, j) != xs
  {
    assert Swap(xs, i, j)[j] == xs[i];
  }

  lemma {:induction false} MoveInStep(s: State, c: Captions, code: string, dir: int)
    requires InStep(s, c) && Good(c) && code in c.languages && (dir == 1 || dir == -1)
    ensures var (z, v) := MoveLang(s, code, dir); var d := Replayed(c, v); InStep(z, d) && Good(d) && !Closes(v)
  {
    hide Edit, ParseVerdict, OsdRows, IndexOf, Swap, Distinct, MoveLang;
    PageMoves(s, c, code, dir);
    ConsumedIsQuiet(c);
    EditMoves(c, code, dir < 0);
    EditArrives(c, if dir < 0 then "lang.up" else "lang.down", code);
    var i := IndexOf(c.languages, code);
    if 0 <= i + dir < |c.languages| {
      SwapDistinct(c.languages, i, i + dir);
    }
  }

  lemma {:induction false} PickInStep(s: State, c: Captions)
    requires InStep(s, c) && Good(c) && s.picker.Some?
    ensures var (z, v) := PickerSelect(s); var d := Replayed(c, v); InStep(z, d) && Good(d) && !Closes(v)
  {
    hide Edit, ParseVerdict, OsdRows;
    LangRowOf(s.(picker := None), c);
    ConsumedIsQuiet(c);
    var code := if 0 <= s.picker.value < |s.langs| then s.langs[s.picker.value] else "";
    if code != "" && code !in c.languages {
      EditAdds(c, code);
      EditArrives(c, "lang.add", code);
      assert "apply:cc." + "lang.add" + "=" + code == "apply:cc.lang.add=" + code;
    }
  }

  lemma {:induction false} ComboInStep(s: State, c: Captions, r: nat, dir: int)
    requires InStep(s, c) && Good(c) && r < 5 && r != 1 && (dir == 1 || dir == -1)
    ensures var (z, v) := CycleCombo(s, r, dir); var d := Replayed(c, v); InStep(z, d) && Good(d) && !Closes(v)
  {
    var row := OsdRows(c)[r];
    assert row.Combo? && row.options != [] && '=' !in row.key;
    hide Edit, ParseVerdict, OsdRows, Cycled, LastIndex;
    var value := Cycled(row.options, row.value, dir);
    CycledIsOption(row.options, row.value, dir);
    EditChooses(c, r, value);
    EditArrives(c, row.key, value);
  }

  lemma {:induction false} CycledIsOption(opts: seq<string>, value: string, dir: int)
    requires opts != []
    ensures Cycled(opts, value, dir) in opts
  {
    hide LastIndex;
  }

  // ---- every command ----

  lemma {:induction false} LangNodesAre(items: seq<string>)
    ensures forall n :: n in LangNodes(items) ==> n.LangNode? && n.code in items
  {
    if items != [] {
      LangNodesAre(items[1..]);
    }
  }

  /** Each element of the Captions sub-tab stands for a row or a language of its model. */
  lemma {:induction false} CaptionNodesAre(rows: seq<Row>, r: nat)
    requires r <= |rows|
    ensures forall n :: n in CaptionNodes(rows, r) ==>
                          || n.AddNode?
                          || (n.ComboNode? && n.row < |rows| && rows[n.row].Combo?)
                          || (&& n.LangNode?
                              && exists k: nat :: k < |rows| && rows[k].LangList? && n.code in rows[k].items)
    decreases |rows| - r
  {
    if r < |rows| {
      CaptionNodesAre(rows, r + 1);
      if rows[r].LangList? {
        LangNodesAre(rows[r].items);
      }
    }
  }

  lemma {:induction false} FocusedIs(s: State, c: Captions)
    requires PageOk(s) && InStep(s, c) && Focused(s).Some?
    ensures var n := Focused(s).value;
            && (n.ComboNode? ==> n.row < 5 && n.row != 1)
            && (n.LangNode? ==> n.code in c.languages && s.tab.Settings?)
            && (n.AddNode? ==> s.tab.Settings? && s.sub.Subtitles?)
            && (n.SubSel? ==> s.tab.Settings?)
  {
    OnlyButtons(s.buttons);
    CaptionNodesAre(OsdRows(c), 0);
    assert Focused(s).value in Panel(s);
  }

  lemma {:induction false} EditInStep(s: State, c: Captions, dir: int)
    requires PageOk(s) && InStep(s, c) && Good(c) && (dir == 1 || dir == -1)
    ensures var (z, v) := EditFocused(s, dir); var d := Replayed(c, v); InStep(z, d) && Good(d) && !Closes(v)
  {
    hide OsdRows, Act, ParseVerdict, Good, CycleCombo, MoveLang;
    ConsumedIsQuiet(c);
    if Focused(s).Some? {
      FocusedIs(s, c);
      match Focused(s).value
      case ComboNode(r) => ComboInStep(s, c, r, dir);
      case LangNode(code) => MoveInStep(s, c, code, dir);
      case _ =>
    }
  }

  lemma {:induction false} PickerInStep(s: State, c: Captions, cmd: Cmd)
    requires InStep(s, c) && Good(c) && s.picker.Some?
    ensures var (z, v) := PickerExec(s, cmd); var d := Replayed(c, v); InStep(z, d) && Good(d) && !Closes(v)
  {
    hide OsdRows, Act, ParseVerdict, Good, PickerSelect;
    ConsumedIsQuiet(c);
    if cmd.Select? {
      PickInStep(s, c);
    }
  }

  /** One answered command leaves the page's copy and the launcher's settings equal. */
  lemma {:induction false} ExecInStep(s: State, c: Captions, cmd: Cmd)
    requires PageOk(s) && InStep(s, c) && Good(c)
    ensures var (z, v) := Exec(s, cmd); var d := Replayed(c, v); InStep(z, d) && Good(d)
  {
    hide OsdRows, Act, ParseVerdict, Good, PickerExec, EditFocused, RemoveLang;
    ConsumedIsQuiet(c);
    if s.picker.Some? {
      PickerInStep(s, c, cmd);
    } else {
      match cmd
      case Left => EditInStep(s, c, -1);
      case Right => EditInStep(s, c, 1);
      case Select => ActivateInStep(s, c);
      case Delete =>
        if Focused(s).Some? && Focused(s).value.LangNode? {
          FocusedIs(s, c);
          RemoveInStep(s, c, Focused(s).value.code);
        }
      case Ignore =>
        ActionIsQuiet(c, "update.ignore");
        assert "action:" + "update.ignore" == "action:update.ignore";
      case _ =>
    }
  }

  lemma {:induction false} ActivateInStep(s: State, c: Captions)
    requires InStep(s, c)
    ensures var (z, v) := Activate(s); InStep(z, c) && Replayed(c, v) == c
  {
    hide ParseVerdict;
    ConsumedIsQuiet(c);
    if Focused(s).Some? && Focused(s).value.ButtonNode? {
      ActionIsQuiet(c, Focused(s).value.action);
    }
  }
}
