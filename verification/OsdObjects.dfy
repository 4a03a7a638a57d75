/** The two objects of the settings menu: the page's state object, whose fields the handlers of
    config/scripts/osd.js change in place, and the controller of launcher/src/osdmenu.cpp that drives it. */
module OsdObjects {
  import opened Options
  import opened Captions
  import opened OsdPage
  import opened OsdMenu
  import ConfigStore

  class Page {
    const order: seq<Tab>
    const subs: seq<Sub>
    const langs: seq<string>
    const notes: bool
    const exitEnabled: bool
    var tab: Tab
    var sub: Sub
    var rows: Option<seq<Row>>
    var buttons: seq<string>
    var focusables: seq<Node>
    var focusIdx: int
    var picker: Option<int>

    function View(): State
      reads this
    {
      State(order, tab, subs, sub, rows, langs, buttons, notes, exitEnabled, focusables, focusIdx, picker)
    }

    /** `build` */
    constructor (rows: Option<seq<Row>>, langs: seq<string>, about: bool, buttons: seq<string>, notes: bool, exit: bool)
      ensures View() == Opened(rows, langs, about, buttons, notes, exit)
    {
      this.order := if about then [Settings, Updates, About] else [Settings, Updates];
      this.subs := if rows.Some? then [Keys, Subtitles] else [Keys];
      this.langs, this.notes, this.exitEnabled := langs, notes, exit;
      this.tab, this.sub, this.rows, this.buttons := Settings, Keys, rows, buttons;
      this.focusables, this.focusIdx, this.picker := [], -1, None;
      new;
      SetTabTo(Settings);
    }

    /** The Captions sub-tab, row by row. */
    method BuildCaptions() returns (nodes: seq<Node>)
      requires rows.Some?
      ensures nodes == CaptionNodes(rows.value, 0)
    {
      nodes := [];
      for r := 0 to |rows.value|
        invariant nodes + CaptionNodes(rows.value, r) == CaptionNodes(rows.value, 0)
      {
        hide RowNodes;
        var row := BuildRow(rows.value[r], r);
        assert (nodes + row) + CaptionNodes(rows.value, r + 1) == nodes + (row + CaptionNodes(rows.value, r + 1));
        nodes := nodes + row;
      }
    }

    /** `collect`: the focusable elements of the panel shown. */
    method Collect()
      modifies this`focusables
      ensures View() == Collected(old(View()))
    {
      focusables := [];
      match tab {
        case Settings =>
          focusables := [SubSel];
          if sub.Subtitles? && rows.Some? {
            var nodes := BuildCaptions();
            focusables := focusables + nodes;
          }
        case Updates =>
          for i := 0 to |buttons|
            invariant focusables + ButtonNodes(buttons[i..]) == ButtonNodes(buttons)
          {
            assert buttons[i..][1..] == buttons[i + 1..];
            focusables := focusables + [ButtonNode(buttons[i])];
          }
        case About =>
      }
    }

    method SetTabTo(t: Tab)
      modifies this`tab, this`focusables, this`focusIdx
      ensures View() == SetTab(old(View()), t)
    {
      tab := if t in order then t else Settings;
      Collect();
      focusIdx := if focusables == [] then -1 else 0;
    }

    method CycleTabBy(step: int)
      requires order != []
      modifies this`tab, this`focusables, this`focusIdx
      ensures View() == CycleTab(old(View()), step)
    {
      var i := IndexOfTab(order, tab);
      SetTabTo(order[(i + step + |order|) % |order|]);
    }

    method MoveBy(dir: int)
      modifies this`focusIdx
      ensures View() == Move(old(View()), dir)
    {
      if focusables == [] {
        return;
      }
      var n := focusIdx + dir;
      if n < 0 {
        n := 0;
      }
      if n > |focusables| - 1 {
        n := |focusables| - 1;
      }
      focusIdx := n;
    }

    method NextSub()
      modifies this`sub, this`focusables, this`focusIdx
      ensures View() == CycleSub(old(View()))
    {
      if |subs| < 2 {
        return;
      }
      sub := if sub.Keys? then Subtitles else Keys;
      Collect();
      focusIdx := 0;
    }

    method CycleComboAt(r: nat, dir: int) returns (v: string)
      modifies this`rows
      ensures (View(), v) == CycleCombo(old(View()), r, dir)
    {
      if rows.None? || r >= |rows.value| || !rows.value[r].Combo? || rows.value[r].options == [] {
        return CONSUMED;
      }
      var row := rows.value[r];
      var i := LastIndexOf(row.options, row.value);
      if i < 0 {
        i := 0;
      }
      var value := row.options[(i + dir + |row.options|) % |row.options|];
      rows := Some(rows.value[r := row.(value := value)]);
      v := "apply:cc." + row.key + "=" + value;
    }

    /** The first language-list row. */
    method FindLangRow() returns (r: nat)
      requires rows.Some?
      ensures r == LangRow(rows.value)
    {
      r := 0;
      while r < |rows.value| && !rows.value[r].LangList?
        invariant r <= |rows.value| && LangRow(rows.value) == r + LangRow(rows.value[r..])
      {
        assert rows.value[r..][1..] == rows.value[r + 1..];
        r := r + 1;
      }
    }

    method SetItems(items: seq<string>)
      requires HasLangs(View())
      modifies this`rows, this`focusables
      ensures View() == Collected(WithItems(old(View()), items))
    {
      hide Panel;
      var r := FindLangRow();
      rows := Some(rows.value[r := rows.value[r].(items := items)]);
      assert View() == WithItems(old(View()), items);
      Collect();
    }

    method RemoveLangNamed(code: string) returns (v: string)
      modifies this`rows, this`focusables, this`focusIdx
      ensures (View(), v) == RemoveLang(old(View()), code)
    {
      if rows.None? {
        return CONSUMED;
      }
      var r := FindLangRow();
      if r == |rows.value| {
        return CONSUMED;
      }
      var kept := KeepOthers(rows.value[r].items, code);
      if kept == [] {
        kept := [SYSTEM];
      }
      var keepIdx := focusIdx;
      SetItems(kept);
      focusIdx := if keepIdx < |focusables| - 1 then keepIdx else |focusables| - 1;
      v := "apply:cc.lang.remove=" + code;
    }

    /** Focus follows the language that moved. */
    method Refocus(code: string)
      modifies this`focusIdx
      ensures View() == Refocused(old(View()), code)
    {
      var f := 0;
      while f < |focusables| && focusables[f] != LangNode(code)
        invariant f <= |focusables| && FirstLang(focusables, code) == f + FirstLang(focusables[f..], code)
      {
        assert focusables[f..][1..] == focusables[f + 1..];
        f := f + 1;
      }
      if f < |focusables| {
        focusIdx := f;
      }
    }

    method MoveLangNamed(code: string, dir: int) returns (v: string)
      modifies this`rows, this`focusables, this`focusIdx
      ensures (View(), v) == MoveLang(old(View()), code, dir)
    {
      if rows.None? {
        return CONSUMED;
      }
      var r := FindLangRow();
      if r == |rows.value| {
        return CONSUMED;
      }
      var items := rows.value[r].items;
      var i := LastIndexOf(items, code);
      var j := i + dir;
      if i < 0 || j < 0 || j >= |items| {
        return CONSUMED;
      }
      SetItems(items[i := items[j]][j := items[i]]);
      Refocus(code);
      v := "apply:cc.lang." + (if dir < 0 then "up" else "down") + "=" + code;
    }

    method SelectPicked() returns (v: string)
      requires picker.Some?
      modifies this`rows, this`focusables, this`picker
      ensures (View(), v) == PickerSelect(old(View()))
    {
      var code := if 0 <= picker.value < |langs| then langs[picker.value] else "";
      picker := None;
      if code == "" {
        return CONSUMED;
      }
      var r := 0;
      if rows.Some? {
        r := FindLangRow();
      }
      if rows.None? || r == |rows.value| {
        Collect();
        return "apply:cc.lang.add=" + code;
      }
      var items := rows.value[r].items;
      var dup := false;
      for k := 0 to |items|
        invariant dup <==> code in items[..k]
      {
        if items[k] == code {
          dup := true;
        }
      }
      assert items[..|items|] == items;
      if dup {
        Collect();
        return CONSUMED;
      }
      SetItems(items + [code]);
      v := "apply:cc.lang.add=" + code;
    }

    method MovePicker(delta: int)
      requires picker.Some?
      modifies this`picker
      ensures View() == PickerMove(old(View()), delta)
    {
      var n := picker.value + delta;
      if n < 0 {
        n := 0;
      }
      if n > |langs| - 1 {
        n := |langs| - 1;
      }
      picker := Some(n);
    }

    method ExecPicker(cmd: Cmd) returns (v: string)
      requires picker.Some?
      modifies this
      ensures (View(), v) == PickerExec(old(View()), cmd)
    {
      v := CONSUMED;
      match cmd {
        case Up => MovePicker(-1);
        case Down => MovePicker(1);
        case TabPrev => MovePicker(-10);
        case TabNext => MovePicker(10);
        case ScrollUp => MovePicker(-1);
        case ScrollDown => MovePicker(1);
        case Select => v := SelectPicked();
        case Back => picker := None;
        case _ =>
      }
    }

    method EditAt(dir: int) returns (v: string)
      modifies this
      ensures (View(), v) == EditFocused(old(View()), dir)
    {
      v := CONSUMED;
      if !(0 <= focusIdx < |focusables|) {
        return;
      }
      match focusables[focusIdx] {
        case SubSel => NextSub();
        case ComboNode(r) => v := CycleComboAt(r, dir);
        case LangNode(code) => v := MoveLangNamed(code, dir);
        case _ =>
          if tab.Updates? {
            MoveBy(dir);
          }
      }
    }

    method MoveOrScrollBy(dir: int)
      modifies this`focusIdx
      ensures View() == MoveOrScroll(old(View()), dir)
    {
      if tab.Settings? && sub.Keys? && 0 <= focusIdx < |focusables| && focusables[focusIdx] == SubSel {
        return;
      }
      if tab.Updates? && notes {
        return;
      }
      MoveBy(dir);
    }

    /** `exec` */
    method Command(cmd: Cmd) returns (v: string)
      requires order != []
      modifies this
      ensures (View(), v) == Exec(old(View()), cmd)
    {
      hide PickerExec, EditFocused, MoveOrScroll, CycleTab, RemoveLang;
      v := CONSUMED;
      if picker.Some? {
        v := ExecPicker(cmd);
        return;
      }
      var focused := if 0 <= focusIdx < |focusables| then Some(focusables[focusIdx]) else None;
      match cmd {
        case TabNext => CycleTabBy(1);
        case TabPrev => CycleTabBy(-1);
        case Up => MoveOrScrollBy(-1);
        case Down => MoveOrScrollBy(1);
        case Left => v := EditAt(-1);
        case Right => v := EditAt(1);
        case Select =>
          if focused == Some(AddNode) {
            picker := Some(0);
          } else if focused.Some? && focused.value.ButtonNode? && focused.value.action != "" {
            v := "action:" + focused.value.action;
          }
        case HoldStart =>
          if exitEnabled {
            v := "hold";
          }
        case Delete =>
          if focused.Some? && focused.value.LangNode? {
            v := RemoveLangNamed(focused.value.code);
          }
        case Ignore =>
          if tab.Updates? && "update.ignore" in buttons {
            v := "action:update.ignore";
          }
        case Back => v := "close";
        case _ =>
      }
    }

    /** `setUpdate` */
    method Update(fresh_: seq<string>)
      modifies this`buttons, this`focusables, this`focusIdx
      ensures View() == Updated(old(View()), fresh_)
    {
      var was := if tab.Updates? && focusables != [] then focusIdx else -1;
      buttons := fresh_;
      if !tab.Updates? {
        return;
      }
      Collect();
      if focusables == [] {
        focusIdx := -1;
        return;
      }
      var n := if was < 0 then 0 else was;
      focusIdx := if n > |focusables| - 1 then |focusables| - 1 else n;
    }
  }

  method BuildRow(row: Row, r: nat) returns (nodes: seq<Node>)
    ensures nodes == RowNodes(row, r)
  {
    if row.Combo? {
      return [ComboNode(r)];
    }
    nodes := [];
    for i := 0 to |row.items|
      invariant nodes + LangNodes(row.items[i..]) == LangNodes(row.items)
    {
      assert row.items[i..][1..] == row.items[i + 1..];
      nodes := nodes + [LangNode(row.items[i])];
    }
    nodes := nodes + [AddNode];
  }

  method KeepOthers(items: seq<string>, code: string) returns (kept: seq<string>)
    ensures kept == Kept(items, code)
  {
    kept := [];
    assert items[0..] == items;
    for k := 0 to |items|
      invariant kept + Kept(items[k..], code) == Kept(items, code)
    {
      ghost var rest := Kept(items[k + 1..], code);
      assert items[k..][1..] == items[k + 1..] && items[k..][0] == items[k];
      if items[k] != code {
        assert Kept(items[k..], code) == [items[k]] + rest;
        assert kept + ([items[k]] + rest) == (kept + [items[k]]) + rest;
        kept := kept + [items[k]];
      } else {
        assert Kept(items[k..], code) == rest;
      }
    }
  }

  method IndexOfTab(order: seq<Tab>, tab: Tab) returns (i: nat)
    requires order != []
    ensures i == TabIndex(order, tab) && i < |order|
  {
    i := 0;
    if tab !in order {
      return;
    }
    assert order[0..] == order;
    while order[i] != tab
      invariant i < |order| && tab in order[i..]
      invariant TabIndex(order, tab) == i + TabIndex(order[i..], tab)
      decreases |order| - i
    {
      assert order[i..] == [order[i]] + order[i + 1..];
      i := i + 1;
    }
  }

  method LastIndexOf(xs: seq<string>, x: string) returns (i: int)
    ensures i == LastIndex(xs, x)
  {
    i := -1;
    for k := 0 to |xs|
      invariant i == LastIndex(xs[..k], x)
    {
      assert xs[..k + 1][..k] == xs[..k];
      if xs[k] == x {
        i := k;
      }
    }
    assert xs[..|xs|] == xs;
  }

  /** `OsdMenuController`, with the page it has on screen, if any. */
  class Controller {
    const captions: CaptionSettings
    var page: Page?
    var open: bool

    constructor (captions: CaptionSettings)
      ensures this.captions == captions && page == null && !open
    {
      this.captions := captions;
      page := null;
      open := false;
    }

    /** `exec`, answered by the page: the verdict is acted on and returned. `written` says whether the write
        a caption edit causes succeeds. */
    method Run(cmd: Cmd, written: bool) returns (v: string)
      requires page != null ==> page.order != []
      modifies this, page, captions, captions.store
      ensures old(page) == null ==> v == "gone" && page == null && !open && captions.Value() == old(captions.Value())
      ensures old(page) != null ==>
                && (old(page).View(), v) == Exec(old(page.View()), cmd)
                && captions.Value() == Replayed(old(captions.Value()), v)
                && page == (if Closes(v) then null else old(page)) && open == (old(open) && !Shuts(v))
      ensures old(page) != null && ParseVerdict(v).Apply? ==>
                var write := Act(old(captions.Value()), ParseVerdict(v).action).write;
                && captions.store.overlay == Written(old(captions.store.overlay), write)
                && captions.store.file == Filed(old(captions.store.file), captions.store.format,
                                                old(captions.store.overlay), write, written)
      ensures old(page) == null || !ParseVerdict(v).Apply? ==>
                captions.store.overlay == old(captions.store.overlay) && captions.store.file == old(captions.store.file)
    {
      hide Exec, Act;
      if page == null {
        open := false;
        return "gone";
      }
      v := page.Command(cmd);
      match ParseVerdict(v) {
        case Gone => open := false;
        case Close => page, open := null, false;
        case Action(a) =>
          if a != "update.check" {
            page, open := null, false;
          }
        case Apply(a) =>
          var changed := captions.ApplyAction(a, written);
        case _ =>
      }
    }
  }
}
