/** The binary VDF codec of scripts/steam_shortcuts.py. */
module Vdf {
  import opened Options

  // Text is held as the bytes of its UTF-8 form, one character a byte. `None` stands for the exception the
  // script raises.

  const NUL: char := '\0'
  const TAG_MAP: char := '\0'
  const TAG_TEXT: char := '\U{1}'
  const TAG_INT: char := '\U{2}'
  const TAG_END: char := '\U{8}'

  datatype Item = Map(key: string, items: seq<Item>) | Text(key: string, text: string) | Int(key: string, n: nat)

  /** A value read from the front of the buffer, and what follows it. */
  datatype Taken<+T> = Taken(value: T, rest: string)

  // ---- what can be written ----

  predicate NulFree(s: string) {
    NUL !in s
  }

  /** NUL-free text and 32-bit unsigned integers, at every level. */
  predicate Writable(items: seq<Item>) {
    items == [] || (WritableItem(items[0]) && Writable(items[1..]))
  }

  predicate WritableItem(i: Item) {
    NulFree(i.key) &&
    match i
    case Map(_, items) => Writable(items)
    case Text(_, text) => NulFree(text)
    case Int(_, n) => n < 0x1_0000_0000
  }

  // ---- writing ----

  function Byte(n: nat): (c: char)
    requires n < 256
    ensures c as int == n
  {
    n as char
  }

  /** `n` in four bytes, least significant first, before `tail`. */
  function Int32Then(n: nat, tail: string): string
    requires n < 0x1_0000_0000
  {
    [Byte(n % 256), Byte(n / 256 % 256), Byte(n / 0x1_0000 % 256), Byte(n / 0x100_0000)] + tail
  }

  function CstrThen(s: string, tail: string): string {
    s + ([NUL] + tail)
  }

  /** `_write_map`, before `tail`. */
  function MapThen(items: seq<Item>, tail: string): string
    requires Writable(items)
    decreases items
  {
    if items == [] then [TAG_END] + tail else ItemThen(items[0], MapThen(items[1..], tail))
  }

  function ItemThen(i: Item, tail: string): string
    requires WritableItem(i)
    decreases i
  {
    match i
    case Map(key, items) => [TAG_MAP] + CstrThen(key, MapThen(items, tail))
    case Text(key, text) => [TAG_TEXT] + CstrThen(key, CstrThen(text, tail))
    case Int(key, n) => [TAG_INT] + CstrThen(key, Int32Then(n, tail))
  }

  // ---- reading ----

  /** `_read_cstr` */
  function ReadCstr(s: string): (r: Option<Taken<string>>)
    ensures r.Some? ==> |r.value.rest| < |s|
  {
    if s == "" then None
    else if s[0] == NUL then Some(Taken("", s[1..]))
    else
      match ReadCstr(s[1..])
      case None => None
      case Some(Taken(text, rest)) => Some(Taken([s[0]] + text, rest))
  }

  /** A slice cut short by the end of the buffer is left to the next read to refuse. */
  function ReadInt32(s: string): (r: Option<Taken<nat>>)
    ensures r.Some? ==> |r.value.rest| < |s|
  {
    if |s| < 4 || !(s[0] as int < 256 && s[1] as int < 256 && s[2] as int < 256 && s[3] as int < 256) then None
    else Some(Taken(s[0] as int + 256 * (s[1] as int) + 0x1_0000 * (s[2] as int) + 0x100_0000 * (s[3] as int), s[4..]))
  }

  /** `_read_map` */
  function ReadMap(s: string): (r: Option<Taken<seq<Item>>>)
    ensures r.Some? ==> |r.value.rest| < |s|
    decreases |s|, 1
  {
    if s == "" then None
    else if s[0] == TAG_END then Some(Taken([], s[1..]))
    else
      match ReadItem(s)
      case None => None
      case Some(Taken(item, rest)) =>
        match ReadMap(rest)
        case None => None
        case Some(Taken(items, rest2)) => Some(Taken([item] + items, rest2))
  }

  /** One round of its loop, on a tag that does not end the map. */
  function ReadItem(s: string): (r: Option<Taken<Item>>)
    requires s != ""
    ensures r.Some? ==> |r.value.rest| < |s|
    decreases |s|, 0
  {
    match ReadCstr(s[1..])
    case None => None
    case Some(Taken(key, rest)) =>
      if s[0] == TAG_MAP then
        match ReadMap(rest)
        case None => None
        case Some(Taken(items, rest2)) => Some(Taken(Map(key, items), rest2))
      else if s[0] == TAG_TEXT then
        match ReadCstr(rest)
        case None => None
        case Some(Taken(text, rest2)) => Some(Taken(Text(key, text), rest2))
      else if s[0] == TAG_INT then
        match ReadInt32(rest)
        case None => None
        case Some(Taken(n, rest2)) => Some(Taken(Int(key, n), rest2))
      else None
  }

  // ---- round trips ----

  lemma {:induction false} CstrBack(s: string, tail: string)
    requires NulFree(s)
    ensures ReadCstr(CstrThen(s, tail)) == Some(Taken(s, tail))
  {
    var all := CstrThen(s, tail);
    if s == "" {
      assert all[1..] == tail;
    } else {
      CstrBack(s[1..], tail);
      assert all[1..] == CstrThen(s[1..], tail);
      assert [s[0]] + s[1..] == s;
    }
  }

  lemma {:induction false} Int32Back(n: nat, tail: string)
    requires n < 0x1_0000_0000
    ensures ReadInt32(Int32Then(n, tail)) == Some(Taken(n, tail))
  {
    var all := Int32Then(n, tail);
    assert all[4..] == tail;
    assert n / 0x1_0000 == n / 256 / 256 && n / 0x100_0000 == n / 256 / 256 / 256;
  }

  /** Reading what was written gives the same items and stops at their end, whatever follows. */
  lemma {:induction false} WriteRead(items: seq<Item>, tail: string)
    requires Writable(items)
    ensures ReadMap(MapThen(items, tail)) == Some(Taken(items, tail))
    decreases items
  {
    var all := MapThen(items, tail);
    if items == [] {
      assert all[1..] == tail;
    } else {
      var rest := MapThen(items[1..], tail);
      WriteRead(items[1..], tail);
      WriteReadItem(items[0], rest);
      assert [items[0]] + items[1..] == items;
    }
  }

  lemma {:induction false} WriteReadItem(i: Item, tail: string)
    requires WritableItem(i)
    ensures ItemThen(i, tail) != "" && ItemThen(i, tail)[0] != TAG_END
    ensures ReadItem(ItemThen(i, tail)) == Some(Taken(i, tail))
    decreases i
  {
    var all := ItemThen(i, tail);
    match i
    case Map(key, items) =>
      WriteRead(items, tail);
      CstrBack(key, MapThen(items, tail));
      assert all[1..] == CstrThen(key, MapThen(items, tail));
    case Text(key, text) =>
      CstrBack(text, tail);
      CstrBack(key, CstrThen(text, tail));
      assert all[1..] == CstrThen(key, CstrThen(text, tail));
    case Int(key, n) =>
      Int32Back(n, tail);
      CstrBack(key, Int32Then(n, tail));
      assert all[1..] == CstrThen(key, Int32Then(n, tail));
  }

  lemma {:induction false} CstrFrom(s: string)
    requires ReadCstr(s).Some?
    ensures var Taken(text, rest) := ReadCstr(s).value; NulFree(text) && s == CstrThen(text, rest)
  {
    if s[0] != NUL {
      CstrFrom(s[1..]);
      var Taken(text, rest) := ReadCstr(s[1..]).value;
      assert s == [s[0]] + s[1..];
      assert CstrThen([s[0]] + text, rest) == [s[0]] + CstrThen(text, rest);
    }
  }

  lemma {:induction false} Int32From(s: string)
    requires ReadInt32(s).Some?
    ensures var Taken(n, rest) := ReadInt32(s).value; n < 0x1_0000_0000 && s == Int32Then(n, rest)
  {
    var Taken(n, rest) := ReadInt32(s).value;
    var a, b, c, d := s[0] as int, s[1] as int, s[2] as int, s[3] as int;
    assert n == a + 256 * (b + 256 * (c + 256 * d));
    assert n / 256 == b + 256 * (c + 256 * d) && n % 256 == a;
    assert n / 0x1_0000 == n / 256 / 256 && n / 256 / 256 == c + 256 * d;
    assert n / 0x100_0000 == n / 0x1_0000 / 256 && n / 0x1_0000 / 256 == d;
    assert s == [s[0], s[1], s[2], s[3]] + rest;
  }

  /** Whatever reads as a map is the writing of what was read: the format has one form for each value. */
  lemma {:induction false} ReadWrite(s: string)
    requires ReadMap(s).Some?
    ensures var Taken(items, rest) := ReadMap(s).value; Writable(items) && s == MapThen(items, rest)
    decreases |s|, 1
  {
    if s[0] == TAG_END {
      assert s == [TAG_END] + s[1..];
    } else {
      ReadWriteItem(s);
      var Taken(item, rest) := ReadItem(s).value;
      ReadWrite(rest);
      var Taken(items, rest2) := ReadMap(rest).value;
      assert ([item] + items)[1..] == items;
    }
  }

  lemma {:induction false} ReadWriteItem(s: string)
    requires s != "" && ReadItem(s).Some?
    ensures var Taken(item, rest) := ReadItem(s).value; WritableItem(item) && s == ItemThen(item, rest)
    decreases |s|, 0
  {
    CstrFrom(s[1..]);
    var Taken(key, rest) := ReadCstr(s[1..]).value;
    assert s == [s[0]] + s[1..];
    if s[0] == TAG_MAP {
      ReadWrite(rest);
    } else if s[0] == TAG_TEXT {
      CstrFrom(rest);
    } else {
      Int32From(rest);
    }
  }

  // ---- the loops of the script ----

  /** What was read, after `front`. */
  function Prefixed<T>(front: seq<T>, r: Option<Taken<seq<T>>>): Option<Taken<seq<T>>> {
    match r
    case None => None
    case Some(Taken(more, rest)) => Some(Taken(front + more, rest))
  }

  lemma {:induction false} PrefixedTwice<T>(front: seq<T>, x: T, r: Option<Taken<seq<T>>>)
    ensures Prefixed([], r) == r
    ensures Prefixed(front, Prefixed([x], r)) == Prefixed(front + [x], r)
  {
    match r
    case None =>
    case Some(Taken(more, rest)) =>
      assert [] + more == more;
      assert front + ([x] + more) == (front + [x]) + more;
  }

  method ReadCstrAt(buf: string, pos: nat) returns (ok: bool, text: string, end: nat)
    requires pos <= |buf|
    ensures pos <= end <= |buf| && (ok ==> pos < end)
    ensures ReadCstr(buf[pos..]) == if ok then Some(Taken(text, buf[end..])) else None
  {
    end := pos;
    assert buf[pos..pos] == "";
    PrefixedTwice("", NUL, ReadCstr(buf[pos..]));
    while end < |buf| && buf[end] != NUL
      invariant pos <= end <= |buf|
      invariant ReadCstr(buf[pos..]) == Prefixed(buf[pos..end], ReadCstr(buf[end..]))
    {
      assert buf[end..][1..] == buf[end + 1..];
      assert ReadCstr(buf[end..]) == Prefixed([buf[end]], ReadCstr(buf[end + 1..]));
      PrefixedTwice(buf[pos..end], buf[end], ReadCstr(buf[end + 1..]));
      assert buf[pos..end + 1] == buf[pos..end] + [buf[end]];
      end := end + 1;
    }
    ok := end < |buf|;
    text := buf[pos..end];
    if ok {
      assert buf[end..][1..] == buf[end + 1..];
      assert text + "" == text;
      end := end + 1;
    }
  }

  method ReadMapAt(buf: string, pos: nat) returns (ok: bool, items: seq<Item>, end: nat)
    requires pos <= |buf|
    ensures pos <= end <= |buf| && (ok ==> pos < end)
    ensures ReadMap(buf[pos..]) == if ok then Some(Taken(items, buf[end..])) else None
    decreases |buf| - pos
  {
    items, end := [], pos;
    PrefixedTwice([], Int("", 0), ReadMap(buf[pos..]));
    while true
      invariant pos <= end <= |buf|
      invariant ReadMap(buf[pos..]) == Prefixed(items, ReadMap(buf[end..]))
      decreases |buf| - end
    {
      hide ReadItem;
      if end == |buf| {
        return false, [], end;
      }
      assert buf[end..][1..] == buf[end + 1..];
      if buf[end] == TAG_END {
        assert items + [] == items;
        return true, items, end + 1;
      }
      var found, item, next := ReadItemAt(buf, end);
      if !found {
        return false, [], end;
      }
      assert ReadMap(buf[end..]) == Prefixed([item], ReadMap(buf[next..]));
      PrefixedTwice(items, item, ReadMap(buf[next..]));
      items, end := items + [item], next;
    }
  }

  method ReadItemAt(buf: string, pos: nat) returns (ok: bool, item: Item, end: nat)
    requires pos < |buf|
    ensures ok ==> pos < end <= |buf|
    ensures ReadItem(buf[pos..]) == if ok then Some(Taken(item, buf[end..])) else None
    decreases |buf| - pos, 0
  {
    item, end := Int("", 0), pos;
    assert buf[pos..][1..] == buf[pos + 1..];
    var named, key, at := ReadCstrAt(buf, pos + 1);
    if !named {
      return false, item, end;
    }
    if buf[pos] == TAG_MAP {
      var items;
      ok, items, end := ReadMapAt(buf, at);
      item := Map(key, items);
    } else if buf[pos] == TAG_TEXT {
      var text;
      ok, text, end := ReadCstrAt(buf, at);
      item := Text(key, text);
    } else if buf[pos] == TAG_INT {
      var n := ReadInt32(buf[at..]);
      ok := n.Some?;
      if ok {
        assert buf[at..][4..] == buf[at + 4..];
        item, end := Int(key, n.value.value), at + 4;
      }
    } else {
      ok := false;
    }
  }

  /** `_write_map`, appending to `out`. */
  method WriteMap(out: string, items: seq<Item>) returns (all: string)
    requires Writable(items)
    ensures forall tail: string :: all + tail == out + MapThen(items, tail)
    decreases items, 1
  {
    all := out;
    for i := 0 to |items|
      invariant Writable(items[i..])
      invariant forall tail: string :: all + MapThen(items[i..], tail) == out + MapThen(items, tail)
    {
      assert items[i..][0] == items[i] && items[i..][1..] == items[i + 1..];
      all := WriteItem(all, items[i]);
    }
    forall tail: string ensures (all + [TAG_END]) + tail == out + MapThen(items, tail) {
      assert items[|items|..] == [];
      assert (all + [TAG_END]) + tail == all + ([TAG_END] + tail);
    }
    all := all + [TAG_END];
  }

  method WriteItem(out: string, i: Item) returns (all: string)
    requires WritableItem(i)
    ensures forall tail: string :: all + tail == out + ItemThen(i, tail)
    decreases i, 0
  {
    match i {
      case Map(key, items) =>
        all := WriteMap(out + [TAG_MAP] + key + [NUL], items);
      case Text(key, text) =>
        all := out + [TAG_TEXT] + key + [NUL] + text + [NUL];
      case Int(key, n) =>
        all := out + [TAG_INT] + key + [NUL] + Int32Then(n, "");
    }
    forall tail: string ensures all + tail == out + ItemThen(i, tail) {
      match i
      case Map(key, items) => assert out + [TAG_MAP] + key + [NUL] + MapThen(items, tail) == out + ItemThen(i, tail);
      case Text(key, text) =>
      case Int(key, n) => assert Int32Then(n, "") + tail == Int32Then(n, tail);
    }
  }
}
