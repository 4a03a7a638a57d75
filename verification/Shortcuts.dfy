/** The `add` command of scripts/steam_shortcuts.py on the contents of shortcuts.vdf: one entry with our name,
    whatever was there before. `lower` is the language's case folding of text. */
module Shortcuts {
  import opened Options
  import opened Vdf

  // ---- the file ----

  datatype Library = Library(root: string, items: seq<Item>)

  /** `load_shortcuts`; what follows the map is not looked at. */
  function Load(buf: string): Option<Library> {
    if buf == "" || buf[0] != NUL then None
    else
      match ReadCstr(buf[1..])
      case None => None
      case Some(Taken(root, rest)) =>
        match ReadMap(rest)
        case None => None
        case Some(Taken(items, _)) => Some(Library(root, items))
  }

  /** `dump_shortcuts` */
  function Dump(l: Library): string
    requires Writable(l.items)
  {
    [NUL] + CstrThen(l.root, MapThen(l.items, [TAG_END]))
  }

  lemma {:induction false} DumpLoad(l: Library)
    requires Writable(l.items) && NulFree(l.root)
    ensures Load(Dump(l)) == Some(l)
  {
    WriteRead(l.items, [TAG_END]);
    CstrBack(l.root, MapThen(l.items, [TAG_END]));
    assert Dump(l)[1..] == CstrThen(l.root, MapThen(l.items, [TAG_END]));
  }

  lemma {:induction false} LoadedWritable(buf: string)
    requires Load(buf).Some?
    ensures Writable(Load(buf).value.items) && NulFree(Load(buf).value.root)
  {
    CstrFrom(buf[1..]);
    ReadWrite(ReadCstr(buf[1..]).value.rest);
  }

  // ---- matching ----

  function AsciiLower(s: string): string {
    if s == "" then ""
    else [if 'A' <= s[0] <= 'Z' then (s[0] as int + 32) as char else s[0]] + AsciiLower(s[1..])
  }

  /** `lower` does to ASCII text what it should. */
  ghost predicate LowersAscii(lower: string -> string) {
    forall s: string :: (forall c :: c in s ==> c < '\U{80}') ==> lower(s) == AsciiLower(s)
  }

  /** `q in s` */
  predicate Contains(s: string, q: string) {
    (|q| <= |s| && s[..|q|] == q) || (s != "" && Contains(s[1..], q))
  }

  /** The first field named `name`, as text: a missing, empty or zero value reads as "", and text methods
      fail on any other number or list. */
  function FieldText(fields: seq<Item>, name: string, lower: string -> string): Option<string> {
    if fields == [] then Some("")
    else if lower(fields[0].key) != lower(name) then FieldText(fields[1..], name, lower)
    else
      match fields[0]
      case Text(_, text) => Some(text)
      case Int(_, n) => if n == 0 then Some("") else None
      case Map(_, items) => if items == [] then Some("") else None
  }

  /** The fields `_entry_field` loops over; a number, or text that is not empty, is no list of fields. */
  function Fields(i: Item): Option<seq<Item>> {
    match i
    case Map(_, items) => Some(items)
    case Text(_, text) => if text == "" then Some([]) else None
    case Int(_, _) => None
  }

  /** `_matches` */
  function Matches(i: Item, appname: string, lower: string -> string): Option<bool> {
    match Fields(i)
    case None => None
    case Some(fields) =>
      match FieldText(fields, "AppName", lower)
      case None => None
      case Some(name) =>
        if Contains(lower(name), lower(appname)) then Some(true)
        else
          match FieldText(fields, "Exe", lower)
          case None => None
          case Some(exe) => Some(Contains(lower(exe), lower(appname)))
  }

  // ---- add ----

  datatype Shortcut = Shortcut(appid: nat, appname: string, exe: string, startDir: string, icon: string,
                               options: string)

  /** `_new_shortcut_entry` */
  function NewEntry(s: Shortcut): seq<Item> {
    [Int("appid", s.appid % 0x1_0000_0000), Text("AppName", s.appname), Text("Exe", s.exe),
     Text("StartDir", s.startDir), Text("icon", s.icon), Text("ShortcutPath", ""),
     Text("LaunchOptions", s.options), Int("IsHidden", 0), Int("AllowDesktopConfig", 1), Int("AllowOverlay", 1),
     Int("OpenVR", 0), Int("Devkit", 0), Text("DevkitGameID", ""), Int("DevkitOverrideAppID", 0),
     Int("LastPlayTime", 0), Text("FlatpakAppID", ""), Map("tags", [])]
  }

  function Decimal(n: nat): (s: string)
    ensures s != "" && forall c :: c in s ==> '0' <= c <= '9'
  {
    if n < 10 then [('0' as int + n) as char] else Decimal(n / 10) + [('0' as int + n % 10) as char]
  }

  function Renamed(i: Item, key: string): Item {
    match i
    case Map(_, items) => Map(key, items)
    case Text(_, text) => Text(key, text)
    case Int(_, n) => Int(key, n)
  }

  /** The entries that do not match, in order; matching one may fail. */
  function Others(items: seq<Item>, appname: string, lower: string -> string): Option<seq<Item>> {
    if items == [] then Some([])
    else
      match Matches(items[0], appname, lower)
      case None => None
      case Some(ours) =>
        match Others(items[1..], appname, lower)
        case None => None
        case Some(rest) => Some(if ours then rest else [items[0]] + rest)
  }

  /** Keyed from `k` on. */
  function Reindexed(items: seq<Item>, k: nat): seq<Item> {
    if items == [] then [] else [Renamed(items[0], Decimal(k))] + Reindexed(items[1..], k + 1)
  }

  function Added(items: seq<Item>, s: Shortcut, lower: string -> string): Option<seq<Item>> {
    match Others(items, s.appname, lower)
    case None => None
    case Some(kept) => Some(Reindexed(kept + [Map(Decimal(|kept|), NewEntry(s))], 0))
  }

  /** Two items alike but for their keys. */
  predicate Alike(a: Item, b: Item) {
    Renamed(a, "") == Renamed(b, "")
  }

  lemma {:induction false} ReindexedIs(items: seq<Item>, k: nat)
    ensures var r := Reindexed(items, k);
            |r| == |items| && forall i :: 0 <= i < |r| ==> r[i].key == Decimal(k + i) && Alike(r[i], items[i])
  {
    if items != [] {
      ReindexedIs(items[1..], k + 1);
      var r := Reindexed(items, k);
      forall i | 0 <= i < |r| ensures r[i].key == Decimal(k + i) && Alike(r[i], items[i]) {
        assert i > 0 ==> r[i] == Reindexed(items[1..], k + 1)[i - 1] && items[i] == items[1..][i - 1];
      }
    }
  }

  /** Keys do not matter to matching. */
  lemma {:induction false} AlikeMatches(a: Item, b: Item, appname: string, lower: string -> string)
    requires Alike(a, b)
    ensures Matches(a, appname, lower) == Matches(b, appname, lower)
  {
  }

  lemma {:induction false} LowerLength(s: string)
    ensures |AsciiLower(s)| == |s|
  {
    if s != "" {
      LowerLength(s[1..]);
    }
  }

  lemma {:induction false} SecondField(fields: seq<Item>, name: string, text: string, lower: string -> string)
    requires |fields| >= 2 && lower(fields[0].key) != lower(name) && fields[1] == Text(name, text)
    ensures FieldText(fields, name, lower) == Some(text)
  {
    assert fields[1..][0] == fields[1];
  }

  lemma {:induction false} LowerKeeps(lower: string -> string, s: string)
    requires LowersAscii(lower) && forall c :: c in s ==> c < '\U{80}'
    ensures |lower(s)| == |s|
  {
    LowerLength(s);
  }

  lemma {:induction false} KeysDiffer(lower: string -> string)
    requires LowersAscii(lower)
    ensures lower("appid") != lower("AppName")
  {
    hide AsciiLower, LowersAscii;
    LowerKeeps(lower, "appid");
    LowerKeeps(lower, "AppName");
  }

  lemma {:induction false} NamedMatches(fields: seq<Item>, key: string, appname: string, lower: string -> string)
    requires FieldText(fields, "AppName", lower) == Some(appname)
    ensures Matches(Map(key, fields), appname, lower) == Some(true)
  {
    var q := lower(appname);
    assert q[..|q|] == q;
  }

  /** Our own entry matches its name. */
  lemma {:induction false} OwnMatches(s: Shortcut, key: string, lower: string -> string)
    requires LowersAscii(lower)
    ensures Matches(Map(key, NewEntry(s)), s.appname, lower) == Some(true)
  {
    hide FieldText, LowersAscii, Matches;
    KeysDiffer(lower);
    SecondField(NewEntry(s), "AppName", s.appname, lower);
    NamedMatches(NewEntry(s), key, s.appname, lower);
  }

  /** Entries that match nothing are all kept, and dropped ones leave no trace. */
  lemma {:induction false} OthersOfKept(items: seq<Item>, kept: seq<Item>, last: Item, appname: string,
                                        lower: string -> string)
    requires |items| == |kept| + 1 && Alike(items[|kept|], last) && Matches(last, appname, lower) == Some(true)
    requires forall i :: 0 <= i < |kept| ==> Alike(items[i], kept[i]) && Matches(kept[i], appname, lower) == Some(false)
    ensures Others(items, appname, lower) == Some(items[..|kept|])
  {
    if kept == [] {
      AlikeMatches(items[0], last, appname, lower);
      assert items[1..] == [];
    } else {
      AlikeMatches(items[0], kept[0], appname, lower);
      OthersOfKept(items[1..], kept[1..], last, appname, lower);
      assert [items[0]] + items[1..][..|kept| - 1] == items[..|kept|];
    }
  }

  lemma {:induction false} OthersDiffer(items: seq<Item>, appname: string, lower: string -> string)
    requires Others(items, appname, lower).Some?
    ensures forall i :: 0 <= i < |Others(items, appname, lower).value| ==>
                          Matches(Others(items, appname, lower).value[i], appname, lower) == Some(false)
  {
    if items != [] {
      OthersDiffer(items[1..], appname, lower);
    }
  }

  /** After `add`: every entry that does not match, in order, then ours, keyed 0 to n-1. */
  lemma {:induction false} AddedIs(items: seq<Item>, s: Shortcut, lower: string -> string)
    requires Added(items, s, lower).Some?
    ensures var r, kept := Added(items, s, lower).value, Others(items, s.appname, lower).value;
            && |r| == |kept| + 1 && (forall i :: 0 <= i < |r| ==> r[i].key == Decimal(i))
            && (forall i :: 0 <= i < |kept| ==> Alike(r[i], kept[i])) && Alike(r[|kept|], Map("", NewEntry(s)))
  {
    var kept := Others(items, s.appname, lower).value;
    ReindexedIs(kept + [Map(Decimal(|kept|), NewEntry(s))], 0);
  }

  lemma {:induction false} SameKeysAlike(a: seq<Item>, b: seq<Item>)
    requires |a| == |b| && forall i :: 0 <= i < |a| ==> a[i].key == b[i].key && Alike(a[i], b[i])
    ensures a == b
  {
    forall i | 0 <= i < |a| ensures a[i] == b[i] {
      assert Alike(a[i], b[i]);
    }
  }

  /** Adding twice is adding once. */
  lemma {:induction false} AddTwice(items: seq<Item>, s: Shortcut, lower: string -> string)
    requires LowersAscii(lower) && Added(items, s, lower).Some?
    ensures Added(Added(items, s, lower).value, s, lower) == Added(items, s, lower)
  {
    hide Matches, Renamed, NewEntry, Decimal, Reindexed;
    var r, kept := Added(items, s, lower).value, Others(items, s.appname, lower).value;
    AddedIs(items, s, lower);
    OwnMatches(s, "", lower);
    OthersDiffer(items, s.appname, lower);
    OthersOfKept(r, kept, Map("", NewEntry(s)), s.appname, lower);
    AddedIs(r, s, lower);
    var again := Added(r, s, lower).value;
    AlikeOwn(again[|kept|], r[|kept|], s);
    SameKeysAlike(again, r);
  }

  lemma {:induction false} AlikeOwn(a: Item, b: Item, s: Shortcut)
    requires Alike(a, Map("", NewEntry(s))) && Alike(b, Map("", NewEntry(s)))
    ensures Alike(a, b)
  {
  }

  // ---- the command ----

  /** Command-line arguments hold no NUL. */
  predicate Named(s: Shortcut) {
    NulFree(s.appname) && NulFree(s.exe) && NulFree(s.startDir) && NulFree(s.icon) && NulFree(s.options)
  }

  function Before(file: Option<string>): Option<Library> {
    if file.Some? then Load(file.value) else Some(Library("shortcuts", []))
  }

  /** `add` on the bytes of the file, or where there is none; the bytes it writes. */
  function CmdAdd(file: Option<string>, s: Shortcut, lower: string -> string): Option<string> {
    match Before(file)
    case None => None
    case Some(l) =>
      match Added(l.items, s, lower)
      case None => None
      case Some(items) => if Writable(items) then Some(Dump(Library(l.root, items))) else None
  }

  lemma {:induction false} OthersWritable(items: seq<Item>, appname: string, lower: string -> string)
    requires Writable(items) && Others(items, appname, lower).Some?
    ensures Writable(Others(items, appname, lower).value)
  {
    if items != [] {
      OthersWritable(items[1..], appname, lower);
      var rest := Others(items[1..], appname, lower).value;
      assert ([items[0]] + rest)[1..] == rest;
    }
  }

  lemma {:induction false} SnocWritable(items: seq<Item>, i: Item)
    requires Writable(items) && WritableItem(i)
    ensures Writable(items + [i])
  {
    if items == [] {
      assert (items + [i])[1..] == [];
    } else {
      SnocWritable(items[1..], i);
      assert (items + [i])[1..] == items[1..] + [i];
    }
  }

  lemma {:induction false} ReindexedWritable(items: seq<Item>, k: nat)
    requires Writable(items)
    ensures Writable(Reindexed(items, k))
  {
    if items != [] {
      ReindexedWritable(items[1..], k + 1);
      assert Reindexed(items, k)[1..] == Reindexed(items[1..], k + 1);
    }
  }

  /** Each front of the entry is writable, field by field from the last. */
  lemma {:induction false} EntryWritable(s: Shortcut, k: nat)
    requires Named(s) && k <= |NewEntry(s)|
    ensures Writable(NewEntry(s)[k..])
    decreases |NewEntry(s)| - k
  {
    var e := NewEntry(s);
    if k < |e| {
      EntryWritable(s, k + 1);
      assert e[k..][0] == e[k] && e[k..][1..] == e[k + 1..];
      FieldWritable(s, k);
    }
  }

  lemma {:induction false} FieldWritable(s: Shortcut, k: nat)
    requires Named(s) && k < |NewEntry(s)|
    ensures WritableItem(NewEntry(s)[k])
  {
    if k < 8 {
      FirstFieldsWritable(s, k);
    } else {
      LastFieldsWritable(s, k);
    }
    hide NewEntry;
  }

  lemma {:induction false} FirstFieldsWritable(s: Shortcut, k: nat)
    requires Named(s) && k < 8
    ensures WritableItem(NewEntry(s)[k])
  {
  }

  lemma {:induction false} LastFieldsWritable(s: Shortcut, k: nat)
    requires Named(s) && 8 <= k < |NewEntry(s)|
    ensures WritableItem(NewEntry(s)[k])
  {
  }

  /** What `add` makes of a readable file can be written. */
  lemma {:induction false} AddedWritable(items: seq<Item>, s: Shortcut, lower: string -> string)
    requires Named(s) && Writable(items) && Added(items, s, lower).Some?
    ensures Writable(Added(items, s, lower).value)
  {
    hide NewEntry, Matches;
    var kept := Others(items, s.appname, lower).value;
    var entry := Map(Decimal(|kept|), NewEntry(s));
    OthersWritable(items, s.appname, lower);
    EntryWritable(s, 0);
    assert NewEntry(s)[0..] == NewEntry(s);
    SnocWritable(kept, entry);
    ReindexedWritable(kept + [entry], 0);
  }

  /** The command fails only on a file it cannot read or an entry it cannot match. */
  lemma {:induction false} CmdAddSucceeds(file: Option<string>, s: Shortcut, lower: string -> string)
    requires Named(s)
    ensures CmdAdd(file, s, lower).Some? <==>
              Before(file).Some? && Others(Before(file).value.items, s.appname, lower).Some?
  {
    hide Load, Others;
    if Before(file).Some? && Others(Before(file).value.items, s.appname, lower).Some? {
      if file.Some? {
        LoadedWritable(file.value);
      }
      AddedWritable(Before(file).value.items, s, lower);
    }
  }

  /** Running `add` again writes the same bytes, whatever the file held before the first time. */
  lemma {:induction false} CmdAddTwice(file: Option<string>, s: Shortcut, lower: string -> string)
    requires Named(s) && LowersAscii(lower) && CmdAdd(file, s, lower).Some?
    ensures CmdAdd(CmdAdd(file, s, lower), s, lower) == CmdAdd(file, s, lower)
  {
    hide Load, Dump, Added;
    var l := Before(file).value;
    var items := Added(l.items, s, lower).value;
    if file.Some? {
      LoadedWritable(file.value);
    }
    DumpLoad(Library(l.root, items));
    AddTwice(l.items, s, lower);
  }
}
