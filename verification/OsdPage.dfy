/** The settings menu as the page holds it: the state object of config/scripts/osd.js and its verdict
    strings. Nodes stand for the elements that can take focus; painting and scrolling are left out. */
module OsdPage {
  import opened Options
  import opened Captions

  datatype Tab = Settings | Updates | About
  datatype Sub = Keys | Subtitles

  datatype Node = SubSel | ComboNode(row: nat) | LangNode(code: string) | AddNode | ButtonNode(action: string)

  datatype Cmd =
    | TabNext | TabPrev | Up | Down | Left | Right | Select | HoldStart | HoldCancel | Delete | Ignore | Back
    | ScrollUp | ScrollDown | OtherCmd

  /** `rows` and `langs` are the caption model handed over at `open`, if any; `picker` is the index in the
      language picker while that is up. */
  datatype State = State(
    order: seq<Tab>, tab: Tab, subs: seq<Sub>, sub: Sub, rows: Option<seq<Row>>, langs: seq<string>,
    buttons: seq<string>, notes: bool, exitEnabled: bool, focusables: seq<Node>, focusIdx: int, picker: Option<int>)

  const CONSUMED := "consumed"

  // ---- what can take focus ----

  function LangNodes(items: seq<string>): seq<Node> {
    if items == [] then [] else [LangNode(items[0])] + LangNodes(items[1..])
  }

  function RowNodes(row: Row, r: nat): seq<Node> {
    if row.Combo? then [ComboNode(r)] else LangNodes(row.items) + [AddNode]
  }

  function CaptionNodes(rows: seq<Row>, r: nat): seq<Node>
    requires r <= |rows|
    decreases |rows| - r
  {
    if r == |rows| then [] else RowNodes(rows[r], r) + CaptionNodes(rows, r + 1)
  }

  function ButtonNodes(buttons: seq<string>): seq<Node> {
    if buttons == [] then [] else [ButtonNode(buttons[0])] + ButtonNodes(buttons[1..])
  }

  /** The focusable elements of the panel shown. */
  function Panel(s: State): seq<Node> {
    match s.tab
    case Settings => if s.sub.Subtitles? && s.rows.Some? then [SubSel] + CaptionNodes(s.rows.value, 0) else [SubSel]
    case Updates => ButtonNodes(s.buttons)
    case About => []
  }

  function Collected(s: State): State {
    s.(focusables := Panel(s))
  }

  function Focused(s: State): Option<Node> {
    if 0 <= s.focusIdx < |s.focusables| then Some(s.focusables[s.focusIdx]) else None
  }

  function Clamp(i: int, n: nat): int {
    var j := if i < 0 then 0 else i;
    if j > n - 1 then n - 1 else j
  }

  // ---- moving about ----

  function SetTab(s: State, tab: Tab): State {
    var z := Collected(s.(tab := if tab in s.order then tab else Settings));
    z.(focusIdx := if z.focusables == [] then -1 else 0)
  }

  /** `indexOf`, or 0 when absent. */
  function TabIndex(order: seq<Tab>, tab: Tab): nat
    ensures order != [] ==> TabIndex(order, tab) < |order|
  {
    if tab !in order then 0 else if order[0] == tab then 0 else 1 + TabIndex(order[1..], tab)
  }

  function CycleTab(s: State, step: int): State
    requires s.order != []
  {
    SetTab(s, s.order[(TabIndex(s.order, s.tab) + step + |s.order|) % |s.order|])
  }

  function Move(s: State, dir: int): State {
    if s.focusables == [] then s else s.(focusIdx := Clamp(s.focusIdx + dir, |s.focusables|))
  }

  function CycleSub(s: State): State {
    if |s.subs| < 2 then s
    else Collected(s.(sub := if s.sub.Keys? then Subtitles else Keys)).(focusIdx := 0)
  }

  // ---- edits ----

  function LastIndex(xs: seq<string>, x: string): (i: int)
    ensures -1 <= i < |xs| && (i >= 0 ==> xs[i] == x) && forall j :: i < j < |xs| ==> xs[j] != x
    decreases |xs|
  {
    if xs == [] then -1 else if xs[|xs| - 1] == x then |xs| - 1 else LastIndex(xs[..|xs| - 1], x)
  }

  /** The first row that is a language list, or the number of rows. */
  function LangRow(rows: seq<Row>): (r: nat)
    ensures r <= |rows| && (r < |rows| ==> rows[r].LangList?)
  {
    if rows == [] || rows[0].LangList? then 0 else 1 + LangRow(rows[1..])
  }

  predicate HasLangs(s: State) {
    s.rows.Some? && LangRow(s.rows.value) < |s.rows.value|
  }

  function Items(s: State): seq<string>
    requires HasLangs(s)
  {
    s.rows.value[LangRow(s.rows.value)].items
  }

  function WithItems(s: State, items: seq<string>): State
    requires HasLangs(s)
  {
    var r := LangRow(s.rows.value);
    s.(rows := Some(s.rows.value[r := s.rows.value[r].(items := items)]))
  }

  function Kept(items: seq<string>, code: string): seq<string> {
    if items == [] then []
    else (if items[0] == code then [] else [items[0]]) + Kept(items[1..], code)
  }

  function Cycled(opts: seq<string>, value: string, dir: int): string
    requires opts != []
  {
    var i := LastIndex(opts, value);
    opts[((if i < 0 then 0 else i) + dir + |opts|) % |opts|]
  }

  function CycleCombo(s: State, r: nat, dir: int): (State, string) {
    if s.rows.None? || r >= |s.rows.value| then (s, CONSUMED)
    else if !s.rows.value[r].Combo? || s.rows.value[r].options == [] then (s, CONSUMED)
    else
      var row := s.rows.value[r];
      var value := Cycled(row.options, row.value, dir);
      (s.(rows := Some(s.rows.value[r := row.(value := value)])), "apply:cc." + row.key + "=" + value)
  }

  function RemoveLang(s: State, code: string): (State, string) {
    if !HasLangs(s) then (s, CONSUMED)
    else
      var kept := Kept(Items(s), code);
      var z := Collected(WithItems(s, if kept == [] then [SYSTEM] else kept));
      (z.(focusIdx := if s.focusIdx < |z.focusables| - 1 then s.focusIdx else |z.focusables| - 1),
       "apply:cc.lang.remove=" + code)
  }

  function FirstLang(nodes: seq<Node>, code: string): (i: nat)
    ensures i <= |nodes|
  {
    if nodes == [] || nodes[0] == LangNode(code) then 0 else 1 + FirstLang(nodes[1..], code)
  }

  function Refocused(s: State, code: string): State {
    var i := FirstLang(s.focusables, code);
    if i < |s.focusables| then s.(focusIdx := i) else s
  }

  function MoveLang(s: State, code: string, dir: int): (State, string) {
    if !HasLangs(s) then (s, CONSUMED)
    else
      var i := LastIndex(Items(s), code);
      var j := i + dir;
      if i < 0 || j < 0 || j >= |Items(s)| then (s, CONSUMED)
      else
        (Refocused(Collected(WithItems(s, Swap(Items(s), i, j))), code),
         "apply:cc.lang." + (if dir < 0 then "up" else "down") + "=" + code)
  }

  // ---- the picker ----

  function PickerMove(s: State, delta: int): State
    requires s.picker.Some?
  {
    s.(picker := Some(Clamp(s.picker.value + delta, |s.langs|)))
  }

  function PickerSelect(s: State): (State, string)
    requires s.picker.Some?
  {
    var code := if 0 <= s.picker.value < |s.langs| then s.langs[s.picker.value] else "";
    var z := s.(picker := None);
    if code == "" then (z, CONSUMED)
    else if !HasLangs(z) then (Collected(z), "apply:cc.lang.add=" + code)
    else if code in Items(z) then (Collected(z), CONSUMED)
    else (Collected(WithItems(z, Items(z) + [code])), "apply:cc.lang.add=" + code)
  }

  function PickerExec(s: State, cmd: Cmd): (State, string)
    requires s.picker.Some?
  {
    match cmd
    case Up => (PickerMove(s, -1), CONSUMED)
    case Down => (PickerMove(s, 1), CONSUMED)
    case TabPrev => (PickerMove(s, -10), CONSUMED)
    case TabNext => (PickerMove(s, 10), CONSUMED)
    case ScrollUp => (PickerMove(s, -1), CONSUMED)
    case ScrollDown => (PickerMove(s, 1), CONSUMED)
    case Select => PickerSelect(s)
    case Back => (s.(picker := None), CONSUMED)
    case _ => (s, CONSUMED)
  }

  // ---- commands ----

  /** ↑ and ↓ scroll the key list and the release notes, and move focus elsewhere. */
  function MoveOrScroll(s: State, dir: int): State {
    if s.tab.Settings? && s.sub.Keys? && Focused(s) == Some(SubSel) then s
    else if s.tab.Updates? && s.notes then s
    else Move(s, dir)
  }

  function EditFocused(s: State, dir: int): (State, string) {
    match Focused(s)
    case None => (s, CONSUMED)
    case Some(SubSel) => (CycleSub(s), CONSUMED)
    case Some(ComboNode(r)) => CycleCombo(s, r, dir)
    case Some(LangNode(code)) => MoveLang(s, code, dir)
    case _ => (if s.tab.Updates? then Move(s, dir) else s, CONSUMED)
  }

  function Activate(s: State): (State, string) {
    match Focused(s)
    case Some(AddNode) => (s.(picker := Some(0)), CONSUMED)
    case Some(ButtonNode(action)) => (s, if action == "" then CONSUMED else "action:" + action)
    case _ => (s, CONSUMED)
  }

  function Exec(s: State, cmd: Cmd): (State, string)
    requires s.order != []
  {
    if s.picker.Some? then PickerExec(s, cmd)
    else
      match cmd
      case TabNext => (CycleTab(s, 1), CONSUMED)
      case TabPrev => (CycleTab(s, -1), CONSUMED)
      case Up => (MoveOrScroll(s, -1), CONSUMED)
      case Down => (MoveOrScroll(s, 1), CONSUMED)
      case Left => EditFocused(s, -1)
      case Right => EditFocused(s, 1)
      case Select => Activate(s)
      case HoldStart => (s, if s.exitEnabled then "hold" else CONSUMED)
      case HoldCancel => (s, CONSUMED)
      case Delete =>
        if Focused(s).Some? && Focused(s).value.LangNode? then RemoveLang(s, Focused(s).value.code) else (s, CONSUMED)
      case Ignore => (s, if s.tab.Updates? && "update.ignore" in s.buttons then "action:update.ignore" else CONSUMED)
      case Back => (s, "close")
      case _ => (s, CONSUMED)
  }

  /** `op: "open"` */
  function Opened(rows: Option<seq<Row>>, langs: seq<string>, about: bool, buttons: seq<string>, notes: bool,
                  exit: bool): State {
    var order := if about then [Settings, Updates, About] else [Settings, Updates];
    var subs := if rows.Some? then [Keys, Subtitles] else [Keys];
    SetTab(State(order, Settings, subs, Keys, rows, langs, buttons, notes, exit, [], -1, None), Settings)
  }

  /** `op: "upd"`: the buttons are rebuilt, and focus repaired if they had it. */
  function Updated(s: State, buttons: seq<string>): State {
    var s1 := s.(buttons := buttons);
    if !s.tab.Updates? then s1
    else
      var was := if s.focusables == [] then -1 else s.focusIdx;
      var z := Collected(s1);
      z.(focusIdx := if z.focusables == [] then -1 else Clamp(if was < 0 then 0 else was, |z.focusables|))
  }

  // ---- what stays true ----

  predicate FocusOk(s: State) {
    if s.focusables == [] then s.focusIdx == -1 else 0 <= s.focusIdx < |s.focusables|
  }

  /** The focus index names an element on show, and the picker index a language; the picker is up only over
      the Captions sub-tab. */
  predicate PageOk(s: State) {
    && s.focusables == Panel(s) && FocusOk(s)
    && (s.picker.Some? ==> s.tab.Settings? && s.sub.Subtitles? && 0 <= s.picker.value < |s.langs|)
    && (s.rows.Some? ==> s.langs != [] && HasLangs(s) && s.subs == [Keys, Subtitles])
    && (s.rows.None? ==> s.subs == [Keys] && s.sub.Keys?)
    && (s.order == [Settings, Updates] || s.order == [Settings, Updates, About])
    && s.tab in s.order
  }

  lemma {:induction false} OpenedOk(rows: Option<seq<Row>>, langs: seq<string>, about: bool, buttons: seq<string>,
                                    notes: bool, exit: bool)
    requires rows.Some? ==> langs != [] && LangRow(rows.value) < |rows.value|
    ensures PageOk(Opened(rows, langs, about, buttons, notes, exit))
  {
  }

  lemma {:induction false} UpdatedOk(s: State, buttons: seq<string>)
    requires PageOk(s)
    ensures PageOk(Updated(s, buttons))
  {
  }

  lemma {:induction false} LangNodesCount(items: seq<string>)
    ensures |LangNodes(items)| == |items|
  {
    if items != [] {
      LangNodesCount(items[1..]);
    }
  }

  /** Replacing one row changes the elements of that row only. */
  lemma {:induction false} RowReplaced(rows: seq<Row>, r: nat, row: Row, i: nat)
    requires r < |rows| && i <= |rows|
    ensures |CaptionNodes(rows[r := row], i)| ==
            |CaptionNodes(rows, i)| + (if i <= r then |RowNodes(row, r)| - |RowNodes(rows[r], r)| else 0)
    decreases |rows| - i
  {
    hide RowNodes;
    if i < |rows| {
      RowReplaced(rows, r, row, i + 1);
    }
  }

  lemma {:induction false} SameNodes(rows: seq<Row>, rows': seq<Row>, i: nat)
    requires |rows'| == |rows| && i <= |rows|
    requires forall k :: 0 <= k < |rows| ==> RowNodes(rows'[k], k) == RowNodes(rows[k], k)
    ensures CaptionNodes(rows', i) == CaptionNodes(rows, i)
    decreases |rows| - i
  {
    hide RowNodes;
    if i < |rows| {
      SameNodes(rows, rows', i + 1);
    }
  }

  lemma {:induction false} ItemsReplaced(s: State, items: seq<string>)
    requires HasLangs(s)
    ensures var z := WithItems(s, items); HasLangs(z) && Items(z) == items
    ensures s.sub.Subtitles? && s.tab.Settings? ==>
              && |Panel(WithItems(s, items))| == |Panel(s)| - |Items(s)| + |items|
              && |Panel(WithItems(s, items))| > |items|
  {
    var rows, r := s.rows.value, LangRow(s.rows.value);
    var row := rows[r].(items := items);
    LangRowReplaced(rows, row);
    RowReplaced(rows, r, row, 0);
    LangNodesCount(rows[r].items);
    LangNodesCount(items);
    RowFits(rows[r := row], r, 0);
  }

  lemma {:induction false} RowFits(rows: seq<Row>, r: nat, i: nat)
    requires i <= r < |rows|
    ensures |CaptionNodes(rows, i)| >= |RowNodes(rows[r], r)|
    decreases r - i
  {
    if i < r {
      RowFits(rows, r, i + 1);
    }
  }

  lemma {:induction false} LangRowReplaced(rows: seq<Row>, row: Row)
    requires LangRow(rows) < |rows| && row.LangList?
    ensures LangRow(rows[LangRow(rows) := row]) == LangRow(rows)
  {
    if !rows[0].LangList? {
      LangRowReplaced(rows[1..], row);
      assert rows[LangRow(rows) := row][1..] == rows[1..][LangRow(rows) - 1 := row];
    }
  }

  lemma {:induction false} ComboReplaced(rows: seq<Row>, r: nat, row: Row)
    requires r < |rows| && rows[r].Combo? && row.Combo?
    ensures CaptionNodes(rows[r := row], 0) == CaptionNodes(rows, 0)
    ensures LangRow(rows[r := row]) == LangRow(rows)
  {
    SameNodes(rows, rows[r := row], 0);
    SameLangRow(rows, rows[r := row]);
  }

  lemma {:induction false} SameLangRow(rows: seq<Row>, rows': seq<Row>)
    requires |rows'| == |rows| && forall i :: 0 <= i < |rows| ==> rows'[i].Combo? == rows[i].Combo?
    ensures LangRow(rows') == LangRow(rows)
  {
    if rows != [] {
      SameLangRow(rows[1..], rows'[1..]);
    }
  }

  lemma {:induction false} CycleComboOk(s: State, r: nat, dir: int)
    requires PageOk(s) && s.picker.None?
    ensures PageOk(CycleCombo(s, r, dir).0)
  {
    hide LangRow, CaptionNodes, ButtonNodes, Cycled;
    if s.rows.Some? && r < |s.rows.value| && s.rows.value[r].Combo? && s.rows.value[r].options != [] {
      var row := s.rows.value[r];
      ComboReplaced(s.rows.value, r, row.(value := Cycled(row.options, row.value, dir)));
    }
  }

  lemma {:induction false} EditOk(s: State, dir: int)
    requires PageOk(s) && s.picker.None? && (dir == 1 || dir == -1)
    ensures PageOk(EditFocused(s, dir).0)
  {
    hide CycleCombo, MoveLang, CaptionNodes, ButtonNodes, LangRow;
    if Focused(s).Some? {
      match Focused(s).value
      case ComboNode(r) => CycleComboOk(s, r, dir);
      case LangNode(code) => MoveLangOk(s, code, dir);
      case _ =>
    }
  }

  /** Languages are shown on the Captions sub-tab only. */
  lemma {:induction false} LangShown(s: State)
    requires PageOk(s) && Focused(s).Some? && (Focused(s).value.LangNode? || Focused(s).value.AddNode?)
    ensures s.tab.Settings? && s.sub.Subtitles? && s.rows.Some?
  {
    assert Focused(s).value in Panel(s);
    OnlyButtons(s.buttons);
  }

  lemma {:induction false} OnlyButtons(buttons: seq<string>)
    ensures forall n :: n in ButtonNodes(buttons) ==> n.ButtonNode?
  {
    if buttons != [] {
      OnlyButtons(buttons[1..]);
    }
  }

  lemma {:induction false} ReorderedOk(s: State, items: seq<string>)
    requires PageOk(s) && s.picker.None? && HasLangs(s) && s.tab.Settings? && s.sub.Subtitles?
    requires |items| == |Items(s)|
    ensures PageOk(Collected(WithItems(s, items)))
  {
    hide CaptionNodes, ButtonNodes, LangRow;
    ItemsReplaced(s, items);
  }

  lemma {:induction false} RefocusedOk(s: State, code: string)
    requires PageOk(s)
    ensures PageOk(Refocused(s, code))
  {
  }

  lemma {:induction false} MoveLangOk(s: State, code: string, dir: int)
    requires PageOk(s) && s.picker.None? && Focused(s) == Some(LangNode(code)) && (dir == 1 || dir == -1)
    ensures PageOk(MoveLang(s, code, dir).0)
  {
    LangShown(s);
    var i := LastIndex(Items(s), code);
    if i >= 0 && 0 <= i + dir < |Items(s)| {
      var items := Swap(Items(s), i, i + dir);
      ReorderedOk(s, items);
      RefocusedOk(Collected(WithItems(s, items)), code);
    }
    hide PageOk, WithItems, Collected, Refocused, LastIndex, Panel;
  }

  lemma {:induction false} RemoveLangOk(s: State, code: string)
    requires PageOk(s) && s.picker.None? && Focused(s) == Some(LangNode(code))
    ensures PageOk(RemoveLang(s, code).0)
  {
    LangShown(s);
    var kept := Kept(Items(s), code);
    ItemsReplaced(s, if kept == [] then [SYSTEM] else kept);
  }

  lemma {:induction false} PickerOk(s: State, cmd: Cmd)
    requires PageOk(s) && s.picker.Some?
    ensures PageOk(PickerExec(s, cmd).0)
  {
    hide CaptionNodes, ButtonNodes, LangRow;
    var z := s.(picker := None);
    if cmd.Select? && HasLangs(z) {
      var code := if 0 <= s.picker.value < |s.langs| then s.langs[s.picker.value] else "";
      ItemsReplaced(z, Items(z) + [code]);
    }
  }

  lemma {:induction false} CycleTabOk(s: State, step: int)
    requires PageOk(s) && s.picker.None?
    ensures PageOk(CycleTab(s, step))
  {
    var tab := s.order[(TabIndex(s.order, s.tab) + step + |s.order|) % |s.order|];
    assert tab in s.order;
  }

  /** Every command leaves the focus and picker indices naming something that exists. */
  lemma {:induction false} ExecOk(s: State, cmd: Cmd)
    requires PageOk(s)
    ensures PageOk(Exec(s, cmd).0)
  {
    if s.picker.Some? {
      PickerOk(s, cmd);
    } else {
      hide CycleTab, EditFocused, RemoveLang, CaptionNodes, ButtonNodes, TabIndex, LangRow;
      match cmd
      case TabNext => CycleTabOk(s, 1);
      case TabPrev => CycleTabOk(s, -1);
      case Left => EditOk(s, -1);
      case Right => EditOk(s, 1);
      case Select => ActivateOk(s);
      case Delete =>
        if Focused(s).Some? && Focused(s).value.LangNode? {
          RemoveLangOk(s, Focused(s).value.code);
        }
      case _ =>
    }
  }

  lemma {:induction false} ActivateOk(s: State)
    requires PageOk(s) && s.picker.None?
    ensures PageOk(Activate(s).0)
  {
    if Focused(s) == Some(AddNode) {
      LangShown(s);
    }
  }
}
