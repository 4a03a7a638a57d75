/** The bytes of shortcuts.vdf, entry by entry, and what `add` makes of a library in the file's own terms. */
module VdfBytes {
  import opened Options
  import opened Vdf
  import opened Shortcuts

  /** The byte of a number, as a character. */
  function At(n: nat): char
    requires n < 256
  {
    n as char
  }

  /** Text ends with a zero byte. */
  function Cstr(s: string): string {
    s + [At(0x00)]
  }

  /** A map is 0x00, its key, its entries and 0x08; text is 0x01, its key and itself; a number is 0x02, its key and
      four bytes, the lowest first. */
  function Wire(items: seq<Item>): string
    requires Writable(items)
    decreases items
  {
    if items == [] then "" else WireItem(items[0]) + Wire(items[1..])
  }

  function WireItem(i: Item): string
    requires WritableItem(i)
    decreases i
  {
    match i
    case Map(key, items) => [At(0x00)] + Cstr(key) + Wire(items) + [At(0x08)]
    case Text(key, text) => [At(0x01)] + Cstr(key) + Cstr(text)
    case Int(key, n) => [At(0x02)] + Cstr(key) + Little(n, 4)
  }

  /** `n` in `k` bytes, the lowest first. */
  function Little(n: nat, k: nat): (s: string)
    ensures |s| == k
  {
    if k == 0 then "" else [At(n % 256)] + Little(n / 256, k - 1)
  }

  function LittleValue(s: string): nat {
    if s == "" then 0 else s[0] as nat + 256 * LittleValue(s[1..])
  }

  lemma {:induction false} LittleBack(n: nat, k: nat)
    requires n < Power(k)
    ensures LittleValue(Little(n, k)) == n
  {
    if k > 0 {
      LittleBack(n / 256, k - 1);
      assert Little(n, k)[1..] == Little(n / 256, k - 1);
    }
  }

  function Power(k: nat): nat {
    if k == 0 then 1 else 256 * Power(k - 1)
  }

  lemma {:induction false} FourBytes(n: nat, tail: string)
    requires n < 0x1_0000_0000
    ensures Int32Then(n, tail) == Little(n, 4) + tail && LittleValue(Little(n, 4)) == n
  {
    var a, b, c := n / 256, n / 256 / 256, n / 256 / 256 / 256;
    assert Little(c, 1) == [At(c % 256)] + Little(c / 256, 0);
    assert Little(b, 2) == [At(b % 256)] + Little(c, 1);
    assert Little(a, 3) == [At(a % 256)] + Little(b, 2);
    assert Little(n, 4) == [At(n % 256)] + Little(a, 3);
    assert n / 0x1_0000 == b && n / 0x100_0000 == c && c < 256;
    assert Power(4) == 256 * (256 * (256 * (256 * Power(0))));
    LittleBack(n, 4);
  }

  /** What is written is the entries' bytes and 0x08. */
  lemma {:induction false} WireIs(items: seq<Item>, tail: string)
    requires Writable(items)
    ensures MapThen(items, tail) == Wire(items) + ([At(0x08)] + tail)
    decreases items, 0
  {
    hide ItemThen, WireItem;
    if items != [] {
      WireIs(items[1..], tail);
      WireItemIs(items[0], MapThen(items[1..], tail));
    }
  }

  lemma {:induction false} WireItemIs(i: Item, tail: string)
    requires WritableItem(i)
    ensures ItemThen(i, tail) == WireItem(i) + tail
    decreases i, 1
  {
    hide Little, LittleValue, Int32Then, Wire, MapThen;
    match i
    case Map(key, items) =>
      WireIs(items, tail);
      assert [At(0x00)] + Cstr(key) + Wire(items) + [At(0x08)] + tail
          == [At(0x00)] + (key + ([At(0x00)] + (Wire(items) + ([At(0x08)] + tail))));
    case Text(key, text) =>
      assert [At(0x01)] + Cstr(key) + Cstr(text) + tail
          == [At(0x01)] + (key + ([At(0x00)] + (text + ([At(0x00)] + tail))));
    case Int(key, n) =>
      FourBytes(n, tail);
      assert [At(0x02)] + Cstr(key) + Little(n, 4) + tail
          == [At(0x02)] + (key + ([At(0x00)] + (Little(n, 4) + tail)));
  }

  /** The file is 0x00, the root key, the entries, and 0x08 twice. */
  lemma {:induction false} FileIs(l: Library)
    requires Writable(l.items)
    ensures Dump(l) == [At(0x00)] + Cstr(l.root) + Wire(l.items) + [At(0x08), At(0x08)]
  {
    WireIs(l.items, [TAG_END]);
    assert [At(0x08)] + [TAG_END] == [At(0x08), At(0x08)];
    assert Dump(l) == [At(0x00)] + (Cstr(l.root) + (Wire(l.items) + ([At(0x08)] + [TAG_END])));
  }

  // ---- our entry ----

  lemma {:induction false} FieldAt(fields: seq<Item>, k: nat, name: string, text: string, lower: string -> string)
    requires k < |fields| && fields[k] == Text(name, text)
    requires forall j :: 0 <= j < k ==> |lower(fields[j].key)| != |lower(name)|
    ensures FieldText(fields, name, lower) == Some(text)
  {
    if k > 0 {
      assert fields[1..][k - 1] == fields[k] && fields[0].key == fields[0].key;
      forall j | 0 <= j < k - 1 ensures |lower(fields[1..][j].key)| != |lower(name)| {
        assert fields[1..][j] == fields[j + 1];
      }
      FieldAt(fields[1..], k - 1, name, text, lower);
    }
  }

  /** Each setting of the shortcut is read back from its entry under its own name. */
  lemma {:induction false} EntryReads(s: Shortcut, lower: string -> string)
    requires LowersAscii(lower)
    ensures FieldText(NewEntry(s), "AppName", lower) == Some(s.appname)
    ensures FieldText(NewEntry(s), "Exe", lower) == Some(s.exe)
    ensures FieldText(NewEntry(s), "StartDir", lower) == Some(s.startDir)
    ensures FieldText(NewEntry(s), "icon", lower) == Some(s.icon)
    ensures FieldText(NewEntry(s), "LaunchOptions", lower) == Some(s.options)
    ensures s.appid < 0x1_0000_0000 ==> NewEntry(s)[0] == Int("appid", s.appid)
  {
    hide FieldText, LowersAscii;
    NamesKeep(lower);
    var e := NewEntry(s);
    FieldAt(e, 1, "AppName", s.appname, lower);
    FieldAt(e, 2, "Exe", s.exe, lower);
    FieldAt(e, 3, "StartDir", s.startDir, lower);
    FieldAt(e, 4, "icon", s.icon, lower);
    FieldAt(e, 6, "LaunchOptions", s.options, lower);
  }

  lemma {:induction false} NamesKeep(lower: string -> string)
    requires LowersAscii(lower)
    ensures |lower("appid")| == 5 && |lower("AppName")| == 7 && |lower("Exe")| == 3 && |lower("StartDir")| == 8
    ensures |lower("icon")| == 4 && |lower("ShortcutPath")| == 12 && |lower("LaunchOptions")| == 13
  {
    hide LowersAscii;
    LowerKeeps(lower, "appid");
    LowerKeeps(lower, "AppName");
    LowerKeeps(lower, "Exe");
    LowerKeeps(lower, "StartDir");
    LowerKeeps(lower, "icon");
    LowerKeeps(lower, "ShortcutPath");
    LowerKeeps(lower, "LaunchOptions");
  }

  // ---- keys ----

  function DecimalValue(s: string): int {
    if s == "" then 0 else 10 * DecimalValue(s[..|s| - 1]) + (s[|s| - 1] as int - '0' as int)
  }

  /** The key of the `n`-th entry is `n` in decimal digits with no zero in front. */
  lemma {:induction false} KeyIs(n: nat)
    ensures var s := Decimal(n);
            && DecimalValue(s) == n && (forall c :: c in s ==> '0' <= c <= '9')
            && (if n == 0 then s == "0" else s[0] != '0')
  {
    var s := Decimal(n);
    if n >= 10 {
      KeyIs(n / 10);
      assert s[..|s| - 1] == Decimal(n / 10);
    } else {
      assert s[..|s| - 1] == "";
    }
  }

  // ---- matching ----

  /** `q` stands in `s` at `i`. */
  predicate Stands(s: string, q: string, i: nat) {
    i + |q| <= |s| && s[i..i + |q|] == q
  }

  lemma {:induction false} ContainsIs(s: string, q: string)
    ensures Contains(s, q) <==> exists i: nat :: Stands(s, q, i)
  {
    assert Stands(s, q, 0) <==> |q| <= |s| && s[..|q|] == q;
    if s != "" {
      ContainsIs(s[1..], q);
      forall i: nat ensures Stands(s[1..], q, i) == Stands(s, q, i + 1) {
        if i + 1 + |q| <= |s| {
          assert s[1..][i..i + |q|] == s[i + 1..i + 1 + |q|];
        }
      }
      if i: nat :| Stands(s, q, i) && i > 0 {
        assert Stands(s[1..], q, i - 1);
      }
    }
  }

  /** ASCII letters in small letters, everything else as it is. */
  lemma {:induction false} LowerIs(s: string, i: nat)
    requires i < |s|
    ensures |AsciiLower(s)| == |s|
    ensures AsciiLower(s)[i] == if 'A' <= s[i] <= 'Z' then "abcdefghijklmnopqrstuvwxyz"[s[i] as int - 'A' as int]
                                else s[i]
  {
    LowerLength(s);
    if i > 0 {
      LowerIs(s[1..], i - 1);
    } else if 'A' <= s[0] <= 'Z' {
      LetterIs(s[0]);
    }
  }

  lemma {:induction false} LetterIs(c: char)
    requires 'A' <= c <= 'Z'
    ensures "abcdefghijklmnopqrstuvwxyz"[c as int - 'A' as int] == (c as int + 32) as char
  {
  }

  /** `add` drops an entry, given with its name and its program, exactly when our name is found in either of them,
      capitals aside: it need not be the entry's whole name, and the name of the program will do. */
  lemma {:induction false} DropsExactly(fields: seq<Item>, key: string, appname: string, lower: string -> string,
                                        name: string, exe: string)
    requires FieldText(fields, "AppName", lower) == Some(name) && FieldText(fields, "Exe", lower) == Some(exe)
    ensures Matches(Map(key, fields), appname, lower)
            == Some((exists i: nat :: Stands(lower(name), lower(appname), i))
                    || exists i: nat :: Stands(lower(exe), lower(appname), i))
  {
    hide FieldText, Contains, Stands;
    ContainsIs(lower(name), lower(appname));
    ContainsIs(lower(exe), lower(appname));
  }

  /** A field is looked up by the first entry of its name, capitals aside. Without one, and where it is the number
      zero or an empty list, it reads as no text; any other number or list cannot be read. */
  lemma {:induction false} FieldSays(fields: seq<Item>, k: nat, name: string, lower: string -> string)
    requires k <= |fields| && forall j :: 0 <= j < k ==> lower(fields[j].key) != lower(name)
    requires k < |fields| ==> lower(fields[k].key) == lower(name)
    ensures FieldText(fields, name, lower)
            == if k == |fields| then Some("")
               else if fields[k].Text? then Some(fields[k].text)
               else if fields[k] == Int(fields[k].key, 0) || fields[k] == Map(fields[k].key, []) then Some("")
               else None
  {
    if k > 0 {
      forall j | 0 <= j < k - 1 ensures lower(fields[1..][j].key) != lower(name) {
        assert fields[1..][j] == fields[j + 1];
      }
      FieldSays(fields[1..], k - 1, name, lower);
    }
  }

  /** Matching fails exactly on an entry that is no list of fields, on a name that cannot be read, and on a program
      that cannot be read where the name does not match already. */
  lemma {:induction false} MatchFails(i: Item, appname: string, lower: string -> string)
    ensures Matches(i, appname, lower).None? <==>
              || (i.Int? || (i.Text? && i.text != ""))
              || var fields := if i.Map? then i.items else [];
                 || FieldText(fields, "AppName", lower).None?
                 || (&& FieldText(fields, "Exe", lower).None?
                     && !exists k: nat :: Stands(lower(FieldText(fields, "AppName", lower).value), lower(appname), k))
  {
    hide FieldText, Contains, Stands;
    if Fields(i).Some? && FieldText(Fields(i).value, "AppName", lower).Some? {
      ContainsIs(lower(FieldText(Fields(i).value, "AppName", lower).value), lower(appname));
    }
  }

  lemma {:induction false} LowerJoin(a: string, b: string)
    ensures AsciiLower(a + b) == AsciiLower(a) + AsciiLower(b)
  {
    if a == "" {
      assert a + b == b;
    } else {
      LowerJoin(a[1..], b);
      assert (a + b)[1..] == a[1..] + b;
    }
  }

  /** So an entry of another program goes too, if its name begins with ours. */
  lemma {:induction false} LongerNamesGo(fields: seq<Item>, key: string, appname: string, more: string, exe: string,
                                         lower: string -> string)
    requires LowersAscii(lower) && (forall c :: c in appname + more ==> c < '\U{80}')
    requires FieldText(fields, "AppName", lower) == Some(appname + more) && FieldText(fields, "Exe", lower) == Some(exe)
    ensures Matches(Map(key, fields), appname, lower) == Some(true)
  {
    hide FieldText, Matches, AsciiLower;
    LowerJoin(appname, more);
    assert forall c :: c in appname ==> c in appname + more;
    assert lower(appname + more) == lower(appname) + AsciiLower(more);
    assert Stands(lower(appname + more), lower(appname), 0);
    DropsExactly(fields, key, appname, lower, appname + more, exe);
  }

  /** Where there is no file, `add` writes one with our entry alone, under the key "0". */
  lemma {:induction false} NewFileIs(s: Shortcut, lower: string -> string)
    requires Named(s)
    ensures var items := [Map("0", NewEntry(s))];
            && Writable(items)
            && CmdAdd(None, s, lower)
               == Some([At(0x00)] + Cstr("shortcuts") + Wire(items) + [At(0x08), At(0x08)])
  {
    hide NewEntry, Wire, Dump;
    var items := [Map("0", NewEntry(s))];
    var none: seq<Item> := [];
    assert Others(none, s.appname, lower) == Some(none);
    assert Decimal(0) == "0" && |none| == 0;
    assert none + [Map(Decimal(|none|), NewEntry(s))] == items && items[1..] == none;
    assert Reindexed(items, 0) == [Renamed(items[0], Decimal(0))] + Reindexed(items[1..], 1);
    assert Renamed(items[0], Decimal(0)) == items[0] && Reindexed(items, 0) == items;
    assert Added(none, s, lower) == Some(items);
    AddedWritable([], s, lower);
    FileIs(Library("shortcuts", items));
  }
}
