/** The rotating log of launcher/src/log.cpp over a directory of files, every file operation succeeding. */
module LogRotation {
  import opened Options

  // File 0 is the active log, file `k` the one named with the suffix `.k`. A file is the sequence of lines
  // written to it; `log_write` writes whole lines only.

  datatype Limits = Limits(maxBytes: int, maxFiles: int)

  type Disk = map<nat, seq<string>>

  function Size(lines: seq<string>): nat {
    if lines == [] then 0 else |lines[0]| + Size(lines[1..])
  }

  function File(d: Disk, k: nat): seq<string> {
    if k in d then d[k] else []
  }

  // ---- the operations of the file system ----

  function Removed(d: Disk, k: nat): Disk {
    d - {k}
  }

  /** A rename replaces its target, and does nothing when there is no file to rename. */
  function Renamed(d: Disk, k: nat, to: nat): Disk {
    if k in d then (d - {k})[to := d[k]] else d
  }

  /** Opened for append: created if missing. */
  function Opened(d: Disk): Disk {
    if 0 in d then d else d[0 := []]
  }

  // ---- the log ----

  /** The files, the count of bytes kept for the active one, and every line written since the first start. */
  datatype Log = Log(disk: Disk, curBytes: nat, all: seq<string>)

  /** The names in use after a rotation. */
  function RotatedNames(d: Disk, n: nat): set<nat> {
    {0} + (set k | k in d.Keys && k < n :: k + 1) + (set k | k in d.Keys && k > n)
  }

  /** The files after a rotation: the history moves up by one, the oldest falls off. */
  function Rotated(d: Disk, n: int): Disk {
    if n <= 0 then d[0 := []]
    else map k | k in RotatedNames(d, n) :: if k == 0 then [] else if k <= n then d[k - 1] else d[k]
  }

  predicate MustRotate(l: Log, c: Limits, line: string) {
    c.maxBytes > 0 && l.curBytes > 0 && l.curBytes + |line| > c.maxBytes
  }

  /** `log_write` */
  function Wrote(l: Log, c: Limits, line: string): Log {
    var l1 := if MustRotate(l, c, line) then l.(disk := Rotated(l.disk, c.maxFiles), curBytes := 0) else l;
    Log(l1.disk[0 := File(l1.disk, 0) + [line]], l1.curBytes + |line|, l.all + [line])
  }

  /** `log_init`, on whatever an earlier run left. */
  function Started(l: Log): Log {
    l.(disk := Opened(l.disk), curBytes := Size(File(l.disk, 0)))
  }

  // ---- what the files hold ----

  /** The lines of files `k` to 0, oldest file first. */
  function Contents(d: Disk, k: nat): seq<string> {
    if k == 0 then File(d, 0) else File(d, k) + Contents(d, k - 1)
  }

  predicate IsSuffix(s: seq<string>, all: seq<string>) {
    |s| <= |all| && all[|all| - |s|..] == s
  }

  /** The oldest file kept. */
  function Oldest(c: Limits): nat {
    if c.maxFiles > 0 then c.maxFiles else 0
  }

  predicate FileOk(lines: seq<string>, bound: Option<int>) {
    bound.Some? ==> Size(lines) <= bound.value || |lines| == 1
  }

  /** What bounds the files of a log that keeps to `c`. */
  function Bound(c: Limits): Option<int> {
    if c.maxBytes > 0 then Some(c.maxBytes) else None
  }

  predicate Meets(c: Limits, bound: Option<int>) {
    bound.Some? ==> 0 < c.maxBytes <= bound.value
  }

  /** At most maxFiles + 1 files, which read oldest to newest are a contiguous suffix of all lines written,
      each within `bound` or a single line. */
  predicate LogOk(l: Log, c: Limits, bound: Option<int>) {
    && (forall k :: k in l.disk ==> k <= Oldest(c) && FileOk(l.disk[k], bound) && "" !in l.disk[k])
    && IsSuffix(Contents(l.disk, Oldest(c)), l.all)
    && l.curBytes == Size(File(l.disk, 0))
  }

  lemma {:induction false} SizeSnoc(lines: seq<string>, line: string)
    ensures Size(lines + [line]) == Size(lines) + |line|
  {
    if lines == [] {
      assert (lines + [line])[1..] == [];
    } else {
      SizeSnoc(lines[1..], line);
      assert (lines + [line])[1..] == lines[1..] + [line];
    }
  }

  /** A rotation keeps all lines but those of the oldest file. */
  lemma {:induction false} RotatedContents(d: Disk, n: int, k: nat)
    requires n > 0 && k < n
    ensures Contents(Rotated(d, n), k + 1) == Contents(d, k)
  {
    var r := Rotated(d, n);
    assert File(r, k + 1) == File(d, k);
    if k == 0 {
      assert File(d, 0) + [] == File(d, 0);
    } else {
      RotatedContents(d, n, k - 1);
    }
  }

  lemma {:induction false} ContentsSnoc(d: Disk, k: nat, line: string)
    ensures Contents(d[0 := File(d, 0) + [line]], k) == Contents(d, k) + [line]
  {
    if k > 0 {
      ContentsSnoc(d, k - 1, line);
      assert File(d, k) + (Contents(d, k - 1) + [line]) == (File(d, k) + Contents(d, k - 1)) + [line];
    }
  }

  lemma {:induction false} SuffixSnoc(s: seq<string>, all: seq<string>, line: string)
    requires IsSuffix(s, all)
    ensures IsSuffix(s + [line], all + [line])
  {
  }

  /** What follows a prefix of a suffix is a suffix. */
  lemma {:induction false} SuffixRest(a: seq<string>, b: seq<string>, all: seq<string>)
    requires IsSuffix(a + b, all)
    ensures IsSuffix(b, all)
  {
    assert all[|all| - |b|..] == (a + b)[|a|..];
  }

  lemma {:induction false} RotatedFiles(d: Disk, n: nat)
    requires n > 0 && forall k :: k in d ==> k <= n
    ensures forall k :: k in Rotated(d, n) ==> k <= n && (k == 0 || (k - 1 in d && Rotated(d, n)[k] == d[k - 1]))
    ensures 0 in Rotated(d, n) && Rotated(d, n)[0] == []
  {
  }

  lemma {:induction false} RotatedOk(l: Log, c: Limits, bound: Option<int>)
    requires LogOk(l, c, bound) && Meets(c, bound)
    ensures LogOk(l.(disk := Rotated(l.disk, c.maxFiles), curBytes := 0), c, bound)
  {
    if c.maxFiles > 0 {
      hide Rotated, Contents, IsSuffix, FileOk;
      RotatedFiles(l.disk, c.maxFiles);
      RotatedSuffix(l, c.maxFiles);
      EmptyOk(bound);
    } else {
      EmptySuffix(l.all);
    }
  }

  lemma {:induction false} EmptyOk(bound: Option<int>)
    requires bound.Some? ==> bound.value > 0
    ensures FileOk([], bound) && Size([]) == 0
  {
  }

  lemma {:induction false} EmptySuffix(all: seq<string>)
    ensures IsSuffix([], all)
  {
  }

  lemma {:induction false} RotatedSuffix(l: Log, n: nat)
    requires n > 0 && IsSuffix(Contents(l.disk, n), l.all)
    ensures IsSuffix(Contents(Rotated(l.disk, n), n), l.all)
  {
    hide Rotated, IsSuffix;
    RotatedContents(l.disk, n, n - 1);
    SuffixRest(File(l.disk, n), Contents(l.disk, n - 1), l.all);
  }

  /** Lines are never empty, so no bytes means no lines. */
  lemma {:induction false} NoBytesNoLines(lines: seq<string>)
    requires "" !in lines
    ensures Size(lines) == 0 ==> lines == []
  {
    if lines != [] {
      assert lines[0] in lines;
    }
  }

  lemma {:induction false} WroteOk(l: Log, c: Limits, bound: Option<int>, line: string)
    requires LogOk(l, c, bound) && Meets(c, bound) && line != ""
    ensures LogOk(Wrote(l, c, line), c, bound)
  {
    var l1 := if MustRotate(l, c, line) then l.(disk := Rotated(l.disk, c.maxFiles), curBytes := 0) else l;
    if MustRotate(l, c, line) {
      RotatedOk(l, c, bound);
    }
    hide Rotated;
    var active := File(l1.disk, 0);
    SizeSnoc(active, line);
    ContentsSnoc(l1.disk, Oldest(c), line);
    SuffixSnoc(Contents(l1.disk, Oldest(c)), l.all, line);
    NoBytesNoLines(active);
  }

  lemma {:induction false} StartedOk(l: Log, c: Limits, bound: Option<int>)
    requires LogOk(l, c, bound) && Meets(c, bound)
    ensures LogOk(Started(l), c, bound)
  {
    OpenedContents(l.disk, Oldest(c));
  }

  lemma {:induction false} OpenedContents(d: Disk, k: nat)
    ensures Contents(Opened(d), k) == Contents(d, k)
  {
    if k > 0 {
      OpenedContents(d, k - 1);
    }
  }

  // ---- runs ----

  datatype Event = Write(line: string) | Restart

  /** Every line ends in a newline, so none is empty. */
  predicate IsLine(e: Event) {
    e.Write? ==> e.line != ""
  }

  predicate AreLines(es: seq<Event>) {
    forall e :: e in es ==> IsLine(e)
  }

  function Next(l: Log, c: Limits, e: Event): Log {
    match e
    case Write(line) => Wrote(l, c, line)
    case Restart => Started(l)
  }

  function After(l: Log, c: Limits, es: seq<Event>): Log
    decreases |es|
  {
    if es == [] then l else After(Next(l, c, es[0]), c, es[1..])
  }

  /** The lines written by `es`, in order. */
  function Lines(es: seq<Event>): seq<string> {
    if es == [] then [] else (if es[0].Write? then [es[0].line] else []) + Lines(es[1..])
  }

  lemma {:induction false} AllLines(l: Log, c: Limits, es: seq<Event>)
    ensures After(l, c, es).all == l.all + Lines(es)
    decreases |es|
  {
    hide Wrote, Started;
    if es == [] {
      assert l.all + [] == l.all;
    } else {
      OneMore(l, c, es[0]);
      AllLines(Next(l, c, es[0]), c, es[1..]);
      if es[0].Write? {
        assert (l.all + [es[0].line]) + Lines(es[1..]) == l.all + ([es[0].line] + Lines(es[1..]));
      } else {
        assert [] + Lines(es[1..]) == Lines(es[1..]);
      }
    }
  }

  lemma {:induction false} OneMore(l: Log, c: Limits, e: Event)
    ensures Next(l, c, e).all == if e.Write? then l.all + [e.line] else l.all
  {
  }

  lemma {:induction false} NoContents(k: nat)
    ensures Contents(map[], k) == []
  {
    if k > 0 {
      NoContents(k - 1);
    }
  }

  // ---- nothing is lost early ----

  /** A file in the history was full: the first line of the next newer one would not have fitted. */
  predicate GapOk(d: Disk, c: Limits, k: nat) {
    k + 1 in d ==> k in d && d[k] != [] && Size(d[k + 1]) + |d[k][0]| > c.maxBytes
  }

  /** Lines have been lost only if every file name is in use. */
  predicate KeptOk(l: Log, c: Limits) {
    Contents(l.disk, Oldest(c)) == l.all || InUse(l.disk, Oldest(c))
  }

  predicate InUse(d: Disk, n: nat) {
    forall k: nat :: k <= n ==> k in d
  }

  ghost predicate Full(l: Log, c: Limits) {
    LogOk(l, c, Bound(c)) && KeptOk(l, c) && forall k: nat :: GapOk(l.disk, c, k)
  }

  lemma {:induction false} InUseBelow(d: Disk, c: Limits, n: nat)
    requires n in d && forall k: nat :: GapOk(d, c, k)
    ensures InUse(d, n)
  {
    if n > 0 {
      assert GapOk(d, c, n - 1);
      InUseBelow(d, c, n - 1);
    }
  }

  lemma {:induction false} NoHistory(d: Disk, c: Limits)
    requires c.maxFiles <= 0
    ensures Rotated(d, c.maxFiles) == d[0 := []]
  {
  }

  lemma {:induction false} WroteGap(l: Log, c: Limits, line: string, k: nat)
    requires Full(l, c)
    ensures GapOk(Wrote(l, c, line).disk, c, k)
  {
    hide Contents, Rotated;
    if MustRotate(l, c, line) && c.maxFiles > 0 {
      RotatedAt(l.disk, c.maxFiles, 0);
      RotatedAt(l.disk, c.maxFiles, k);
      RotatedAt(l.disk, c.maxFiles, k + 1);
      if k > 0 {
        assert GapOk(l.disk, c, k - 1);
      }
    } else if MustRotate(l, c, line) {
      NoHistory(l.disk, c);
    } else {
      assert GapOk(l.disk, c, k);
    }
  }

  lemma {:induction false} RotatedInUse(d: Disk, c: Limits)
    requires c.maxFiles > 0 && c.maxFiles in d && forall k: nat :: GapOk(d, c, k)
    ensures InUse(Rotated(d, c.maxFiles), c.maxFiles)
  {
    InUseBelow(d, c, c.maxFiles);
    hide Rotated;
    forall k: nat | k <= c.maxFiles ensures k in Rotated(d, c.maxFiles) {
      RotatedAt(d, c.maxFiles, k);
    }
  }

  /** A rotation loses lines only if there is a file with the last number. */
  lemma {:induction false} RotatedKept(l: Log, c: Limits)
    requires Full(l, c)
    ensures KeptOk(l.(disk := Rotated(l.disk, c.maxFiles)), c)
  {
    hide Rotated, GapOk, InUse;
    var n := c.maxFiles;
    if n <= 0 {
      NoHistory(l.disk, c);
      ActiveInUse(l.disk);
    } else if n in l.disk {
      RotatedInUse(l.disk, c);
    } else {
      RotatedContents(l.disk, n, n - 1);
      assert Contents(l.disk, n) == [] + Contents(l.disk, n - 1);
      assert InUse(l.disk, n) ==> n in l.disk by { OneInUse(l.disk, n); }
    }
  }

  lemma {:induction false} ActiveInUse(d: Disk)
    ensures InUse(d[0 := []], 0)
  {
  }

  lemma {:induction false} OneInUse(d: Disk, n: nat)
    ensures InUse(d, n) ==> n in d
  {
  }

  lemma {:induction false} WroteKept(l: Log, c: Limits, line: string)
    requires Full(l, c)
    ensures KeptOk(Wrote(l, c, line), c)
  {
    var l1 := if MustRotate(l, c, line) then l.(disk := Rotated(l.disk, c.maxFiles), curBytes := 0) else l;
    if MustRotate(l, c, line) {
      RotatedKept(l, c);
    }
    hide Rotated, Full;
    ContentsSnoc(l1.disk, Oldest(c), line);
  }

  lemma {:induction false} StartedGap(d: Disk, c: Limits, k: nat)
    requires GapOk(d, c, 0) && GapOk(d, c, k)
    ensures GapOk(Opened(d), c, k)
  {
    hide Size;
  }

  lemma {:induction false} StartedKept(l: Log, c: Limits)
    requires KeptOk(l, c)
    ensures KeptOk(Started(l), c)
  {
    OpenedContents(l.disk, Oldest(c));
    hide Contents, Size;
  }

  lemma {:induction false} StartedFull(l: Log, c: Limits)
    requires Full(l, c)
    ensures Full(Started(l), c)
  {
    StartedOk(l, c, Bound(c));
    StartedKept(l, c);
    hide LogOk, KeptOk, GapOk;
    assert GapOk(l.disk, c, 0);
    forall k: nat ensures GapOk(Started(l).disk, c, k) {
      assert GapOk(l.disk, c, k);
      StartedGap(l.disk, c, k);
    }
  }

  lemma {:induction false} WroteFull(l: Log, c: Limits, line: string)
    requires Full(l, c) && line != ""
    ensures Full(Wrote(l, c, line), c)
  {
    WroteOk(l, c, Bound(c), line);
    WroteKept(l, c, line);
    hide LogOk, KeptOk, Wrote, GapOk;
    forall k: nat ensures GapOk(Wrote(l, c, line).disk, c, k) {
      WroteGap(l, c, line, k);
    }
  }

  lemma {:induction false} RunFull(l: Log, c: Limits, es: seq<Event>)
    requires Full(l, c) && AreLines(es)
    ensures Full(After(l, c, es), c)
    decreases |es|
  {
    hide Full, Wrote, Started;
    if es != [] {
      assert IsLine(es[0]);
      if es[0].Write? {
        WroteFull(l, c, es[0].line);
      } else {
        StartedFull(l, c);
      }
      RunFull(Next(l, c, es[0]), c, es[1..]);
    }
  }

  /** From no files, over any writes and restarts: at most maxFiles + 1 files remain; read oldest to newest
      they are a contiguous suffix of all the lines written; each is within maxBytes or holds one line. */
  lemma {:induction false} LogKeepsSuffix(c: Limits, es: seq<Event>)
    requires AreLines(es)
    ensures var d := After(Log(map[], 0, []), c, es).disk;
            && (forall k :: k in d ==> k <= Oldest(c))
            && IsSuffix(Contents(d, Oldest(c)), Lines(es))
            && (c.maxBytes > 0 ==> forall k :: k in d ==> Size(d[k]) <= c.maxBytes || |d[k]| == 1)
  {
    var l := Log(map[], 0, []);
    NoContents(Oldest(c));
    NoGaps(c);
    RunFull(l, c, es);
    AllLines(l, c, es);
    assert [] + Lines(es) == Lines(es);
  }

  /** No line is lost before all maxFiles + 1 files exist, and none of them was left before it was full. */
  lemma {:induction false} NothingLostEarly(c: Limits, es: seq<Event>)
    requires AreLines(es)
    ensures var d := After(Log(map[], 0, []), c, es).disk;
            && (Contents(d, Oldest(c)) == Lines(es) || InUse(d, Oldest(c)))
            && (forall k: nat :: GapOk(d, c, k))
  {
    hide GapOk;
    var l := Log(map[], 0, []);
    NoContents(Oldest(c));
    NoGaps(c);
    RunFull(l, c, es);
    AllLines(l, c, es);
    assert [] + Lines(es) == Lines(es);
  }

  lemma {:induction false} NoGaps(c: Limits)
    ensures forall k: nat :: GapOk(map[], c, k)
  {
  }

  // ---- limits that change between starts ----

  /** One start of the launcher and what it does to its log. */
  datatype Session = Session(limits: Limits, es: seq<Event>)

  function AfterAll(l: Log, ss: seq<Session>): Log
    decreases |ss|
  {
    if ss == [] then l else AfterAll(After(Started(l), ss[0].limits, ss[0].es), ss[1..])
  }

  function AllSaid(ss: seq<Session>): seq<string> {
    if ss == [] then [] else Lines(ss[0].es) + AllSaid(ss[1..])
  }

  /** No start keeps fewer files than the one before it, which kept `n`, and every limit meets `bound`. */
  predicate Grows(ss: seq<Session>, n: nat, bound: Option<int>)
    decreases |ss|
  {
    ss == [] || (&& n <= Oldest(ss[0].limits) && Meets(ss[0].limits, bound) && AreLines(ss[0].es)
                 && Grows(ss[1..], Oldest(ss[0].limits), bound))
  }

  function LastOldest(ss: seq<Session>, n: nat): nat {
    if ss == [] then n else Oldest(ss[|ss| - 1].limits)
  }

  lemma {:induction false} RunOk(l: Log, c: Limits, bound: Option<int>, es: seq<Event>)
    requires LogOk(l, c, bound) && Meets(c, bound) && AreLines(es)
    ensures LogOk(After(l, c, es), c, bound)
    decreases |es|
  {
    hide LogOk, Wrote, Started;
    if es != [] {
      assert IsLine(es[0]);
      if es[0].Write? {
        WroteOk(l, c, bound, es[0].line);
      } else {
        StartedOk(l, c, bound);
      }
      RunOk(Next(l, c, es[0]), c, bound, es[1..]);
    }
  }

  lemma {:induction false} MoreContents(d: Disk, n: nat, m: nat)
    requires n <= m && forall k :: k in d ==> k <= n
    ensures Contents(d, m) == Contents(d, n)
    decreases m
  {
    if m > n {
      MoreContents(d, n, m - 1);
      assert [] + Contents(d, m - 1) == Contents(d, m - 1);
    }
  }

  lemma {:induction false} MoreFiles(l: Log, c: Limits, c': Limits, bound: Option<int>)
    requires LogOk(l, c, bound) && Oldest(c) <= Oldest(c')
    ensures LogOk(l, c', bound)
  {
    MoreContents(l.disk, Oldest(c), Oldest(c'));
  }

  lemma {:induction false} SessionsOk(l: Log, c: Limits, bound: Option<int>, ss: seq<Session>) returns (c': Limits)
    requires LogOk(l, c, bound) && Grows(ss, Oldest(c), bound)
    ensures LogOk(AfterAll(l, ss), c', bound) && Oldest(c') == LastOldest(ss, Oldest(c))
    ensures AfterAll(l, ss).all == l.all + AllSaid(ss)
    decreases |ss|
  {
    hide LogOk, After, Started;
    if ss == [] {
      c' := c;
      assert l.all + [] == l.all;
    } else {
      var c1, es := ss[0].limits, ss[0].es;
      MoreFiles(l, c, c1, bound);
      StartedOk(l, c1, bound);
      RunOk(Started(l), c1, bound, es);
      AllLines(Started(l), c1, es);
      SameLines(l);
      c' := SessionsOk(After(Started(l), c1, es), c1, bound, ss[1..]);
      assert (l.all + Lines(es)) + AllSaid(ss[1..]) == l.all + (Lines(es) + AllSaid(ss[1..]));
    }
  }

  lemma {:induction false} SameLines(l: Log)
    ensures Started(l).all == l.all
  {
  }

  /** Also when the limits change from one start to the next, provided that maxFiles is never lowered: the files
      are a contiguous suffix of everything written, and each is within the largest maxBytes or one line. */
  lemma {:induction false} SessionsKeepSuffix(ss: seq<Session>, bound: Option<int>)
    requires Grows(ss, 0, bound)
    ensures var d, n := AfterAll(Log(map[], 0, []), ss).disk, LastOldest(ss, 0);
            && (forall k :: k in d ==> k <= n && FileOk(d[k], bound))
            && IsSuffix(Contents(d, n), AllSaid(ss))
  {
    var l := Log(map[], 0, []);
    NoContents(0);
    var c := SessionsOk(l, Limits(1, 0), bound, ss);
    assert [] + AllSaid(ss) == AllSaid(ss);
  }

  /** Lowering maxFiles strands the oldest file: after a rotation the files have a gap. */
  lemma {:induction false} LoweringLeavesGap() returns (ss: seq<Session>)
    ensures |ss| == 2 && ss[0].limits == Limits(1, 2) && ss[1].limits == Limits(1, 1)
    ensures forall s :: s in ss ==> AreLines(s.es)
    ensures AllSaid(ss) == ["a", "b", "c", "d"]
    ensures Contents(AfterAll(Log(map[], 0, []), ss).disk, 2) == ["a", "c", "d"]
  {
    var first := Session(Limits(1, 2), [Write("a"), Write("b"), Write("c")]);
    var second := Session(Limits(1, 1), [Write("d")]);
    ss := [first, second];
    FirstThree();
    ThenOne();
    assert ss[1..] == [second] && [second][1..] == [];
    hide After;
    assert AllSaid([second]) == Lines(second.es) + [];
    assert AfterAll(THREE, [second]) == After(Started(THREE), second.limits, second.es);
  }

  const THREE := Log(map[0 := ["c"], 1 := ["b"], 2 := ["a"]], 1, ["a", "b", "c"])

  const ONE := Log(map[0 := ["a"]], 1, ["a"])
  const TWO := Log(map[0 := ["b"], 1 := ["a"]], 1, ["a", "b"])

  lemma {:induction false} FirstThree()
    ensures var es := [Write("a"), Write("b"), Write("c")];
            && After(Started(Log(map[], 0, [])), Limits(1, 2), es) == THREE
            && Lines(es) == ["a", "b", "c"] && AreLines(es)
  {
    hide Wrote, Started;
    var c, es := Limits(1, 2), [Write("a"), Write("b"), Write("c")];
    StartsWith();
    Second();
    Third();
    assert es[1..] == [Write("b"), Write("c")] && es[1..][1..] == [Write("c")] && [Write("c")][1..] == [];
    assert After(TWO, c, [Write("c")]) == THREE && After(ONE, c, es[1..]) == THREE;
    assert Lines([Write("c")]) == ["c"] && Lines(es[1..]) == ["b", "c"];
  }

  lemma {:induction false} Second()
    ensures Wrote(ONE, Limits(1, 2), "b") == TWO
  {
    hide Wrote, Rotated;
    Overflows(ONE, Limits(1, 2), "b", map[0 := [], 1 := ["a"]]);
    assert map[0 := [], 1 := ["a"]][0 := ["b"]] == TWO.disk && ["a"] + ["b"] == ["a", "b"];
  }

  lemma {:induction false} Third()
    ensures Wrote(TWO, Limits(1, 2), "c") == THREE
  {
    hide Wrote, Rotated;
    Overflows(TWO, Limits(1, 2), "c", map[0 := [], 1 := ["b"], 2 := ["a"]]);
    assert map[0 := [], 1 := ["b"], 2 := ["a"]][0 := ["c"]] == THREE.disk && ["a", "b"] + ["c"] == ["a", "b", "c"];
  }

  lemma {:induction false} StartsWith()
    ensures Wrote(Started(Log(map[], 0, [])), Limits(1, 2), "a") == ONE
  {
    assert [] + ["a"] == ["a"];
  }

  lemma {:induction false} ThenOne()
    ensures var l := After(Started(THREE), Limits(1, 1), [Write("d")]);
            && Contents(l.disk, 2) == ["a", "c", "d"] && Lines([Write("d")]) == ["d"]
  {
    var c := Limits(1, 1);
    assert Started(THREE) == THREE;
    Overflows(THREE, c, "d", map[0 := [], 1 := ["c"], 2 := ["a"]]);
    assert [Write("d")][1..] == [];
    var d := Wrote(THREE, c, "d").disk;
    assert Contents(d, 1) == ["c"] + ["d"] && Contents(d, 2) == ["a"] + Contents(d, 1);
  }

  lemma {:induction false} Overflows(l: Log, c: Limits, line: string, rotated: Disk)
    requires MustRotate(l, c, line) && c.maxFiles > 0
    requires forall k: nat :: k in rotated <==>
                                k == 0 || (if k <= c.maxFiles then k - 1 in l.disk else k in l.disk)
    requires forall k :: k in rotated ==>
                           rotated[k] == if k == 0 then [] else File(l.disk, if k <= c.maxFiles then k - 1 else k)
    ensures Wrote(l, c, line) == Log(rotated[0 := [line]], |line|, l.all + [line])
  {
    var r := Rotated(l.disk, c.maxFiles);
    forall k: nat ensures (k in r <==> k in rotated) && (k in r ==> r[k] == rotated[k]) {
      RotatedAt(l.disk, c.maxFiles, k);
    }
    assert r == rotated;
    assert [] + [line] == [line];
  }

  // ---- without a limit ----

  /** Every file is within the limit or holds a single line. */
  predicate Bounded(d: Disk, c: Limits) {
    forall k :: k in d ==> Size(d[k]) <= c.maxBytes || |d[k]| == 1
  }

  lemma {:induction false} NeverRotates(l: Log, c: Limits, es: seq<Event>)
    requires c.maxBytes <= 0 && l.disk.Keys <= {0}
    ensures var d := After(l, c, es).disk; d.Keys <= {0} && File(d, 0) == File(l.disk, 0) + Lines(es)
    decreases |es|
  {
    if es == [] {
      assert File(l.disk, 0) + [] == File(l.disk, 0);
    } else {
      var z := Next(l, c, es[0]);
      assert File(z.disk, 0) == File(l.disk, 0) + if es[0].Write? then [es[0].line] else [];
      NeverRotates(z, c, es[1..]);
      if es[0].Write? {
        assert (File(l.disk, 0) + [es[0].line]) + Lines(es[1..]) == File(l.disk, 0) + ([es[0].line] + Lines(es[1..]));
      } else {
        assert [] + Lines(es[1..]) == Lines(es[1..]);
      }
    }
  }

  /** With max_bytes not positive the active file takes every line, and there is no other. */
  lemma {:induction false} OneFileTakesAll(c: Limits, es: seq<Event>)
    requires c.maxBytes <= 0
    ensures var d := After(Log(map[], 0, []), c, es).disk; d.Keys <= {0} && File(d, 0) == Lines(es)
  {
    NeverRotates(Log(map[], 0, []), c, es);
    assert [] + Lines(es) == Lines(es);
  }

  lemma {:induction false} TwoLinesOverflow(c: Limits)
    requires c.maxBytes <= 0
    ensures var es := [Write("\n"), Write("\n")];
            AreLines(es) && !Bounded(After(Log(map[], 0, []), c, es).disk, c)
  {
    var es := [Write("\n"), Write("\n")];
    OneFileTakesAll(c, es);
    var d := After(Log(map[], 0, []), c, es).disk;
    assert es[1..] == [Write("\n")] && es[1..][1..] == [];
    assert Lines(es[1..]) == ["\n"] + Lines([]) && Lines(es) == ["\n", "\n"];
    assert 0 in d && d[0] == ["\n", "\n"];
    assert Size(d[0]) == 1 + Size(d[0][1..]);
  }

  /** The files stay within max_bytes, or hold single lines, over all runs exactly when it is positive. */
  lemma {:induction false} BoundedExactly(c: Limits)
    ensures (forall es: seq<Event> :: AreLines(es) ==> Bounded(After(Log(map[], 0, []), c, es).disk, c))
            <==> c.maxBytes > 0
  {
    if c.maxBytes <= 0 {
      TwoLinesOverflow(c);
    } else {
      forall es: seq<Event> | AreLines(es) ensures Bounded(After(Log(map[], 0, []), c, es).disk, c) {
        LogKeepsSuffix(c, es);
      }
    }
  }

  // ---- the code ----

  class Sink {
    const limits: Limits
    var curBytes: nat
    var fileOpen: bool
    var disk: Disk
    ghost var all: seq<string>

    ghost function View(): Log
      reads this
    {
      Log(disk, curBytes, all)
    }

    /** `log_init` */
    constructor (disk: Disk, limits: Limits, all: seq<string>)
      ensures this.limits == limits && fileOpen && View() == Started(Log(disk, Size(File(disk, 0)), all))
    {
      this.limits := limits;
      this.disk := Opened(disk);
      this.curBytes := Size(File(disk, 0));
      this.fileOpen := true;
      this.all := all;
    }

    method Remove(k: nat)
      modifies this`disk
      ensures disk == Removed(old(disk), k)
    {
      disk := disk - {k};
    }

    method Rename(k: nat, to: nat)
      modifies this`disk
      ensures disk == Renamed(old(disk), k, to)
    {
      if k in disk {
        disk := (disk - {k})[to := disk[k]];
      }
    }

    /** `rotate_locked`, renaming from the oldest down. */
    method Rotate()
      modifies this`disk, this`curBytes
      ensures disk == Rotated(old(disk), limits.maxFiles) && curBytes == 0
    {
      curBytes := 0;
      var n := limits.maxFiles;
      if n <= 0 {
        disk := disk[0 := []];
        return;
      }
      ghost var was := disk;
      ShiftStarts(was, n);
      Remove(n);
      var i := n - 1;
      hide Rotated, Shifted;
      while i >= 1
        invariant 0 <= i < n && Shifted(was, disk, i, n) && curBytes == 0
      {
        ShiftOne(was, disk, i, n);
        Rename(i, i + 1);
        i := i - 1;
      }
      ShiftOne(was, disk, 0, n);
      Rename(0, 1);
      SameRotation(was, disk, n);
      disk := disk[0 := []];
    }

    /** `log_write`, for an open file. */
    method Write(line: string)
      requires fileOpen
      modifies this`disk, this`curBytes, this`all
      ensures View() == Wrote(old(View()), limits, line)
    {
      if limits.maxBytes > 0 && curBytes > 0 && curBytes + |line| > limits.maxBytes {
        Rotate();
      }
      disk := disk[0 := File(disk, 0) + [line]];
      curBytes := curBytes + |line|;
      all := all + [line];
    }
  }

  /** After moving the names above `i` up: what was at `k` is at `k + 1`, and `i + 1` is free. */
  predicate ShiftedAt(was: Disk, d: Disk, i: int, n: nat, k: nat) {
    if k <= i || k > n then (k in d <==> k in was) && (k in d ==> d[k] == was[k])
    else if k == i + 1 then k !in d
    else (k in d <==> k - 1 in was) && (k in d ==> d[k] == was[k - 1])
  }

  ghost predicate Shifted(was: Disk, d: Disk, i: int, n: nat) {
    forall k: nat :: ShiftedAt(was, d, i, n, k)
  }

  lemma {:induction false} ShiftStarts(was: Disk, n: nat)
    requires n > 0
    ensures Shifted(was, Removed(was, n), n - 1, n)
  {
  }

  lemma {:induction false} ShiftOne(was: Disk, d: Disk, i: nat, n: nat)
    requires i < n && Shifted(was, d, i, n)
    ensures Shifted(was, Renamed(d, i, i + 1), i - 1, n)
  {
    var r, below := Renamed(d, i, i + 1), i - 1;
    assert ShiftedAt(was, d, i, n, i) && ShiftedAt(was, d, i, n, i + 1);
    forall k: nat ensures ShiftedAt(was, r, below, n, k) {
      assert ShiftedAt(was, d, i, n, k);
    }
  }

  lemma {:induction false} NameUp(d: Disk, n: nat, k: nat)
    ensures k in RotatedNames(d, n) <==> k == 0 || (k <= n && k - 1 in d) || (k > n && k in d)
  {
    if 0 < k <= n && k - 1 in d {
      var i: nat := k - 1;
      assert i in d.Keys && i < n && i + 1 == k;
    }
  }

  /** A file after the rotation. */
  lemma {:induction false} RotatedAt(d: Disk, n: nat, k: nat)
    requires n > 0
    ensures k in Rotated(d, n) <==> k == 0 || (k <= n && k - 1 in d) || (k > n && k in d)
    ensures k in Rotated(d, n) ==> Rotated(d, n)[k] == if k == 0 then [] else if k <= n then d[k - 1] else d[k]
  {
    NameUp(d, n, k);
    hide RotatedNames;
  }

  lemma {:induction false} SameRotation(was: Disk, d: Disk, n: nat)
    requires n > 0 && Shifted(was, d, -1, n)
    ensures d[0 := []] == Rotated(was, n)
  {
    var z := d[0 := []];
    forall k: nat ensures SameFile(z, Rotated(was, n), k) {
      RotatedAt(was, n, k);
      assert ShiftedAt(was, d, -1, n, k);
      hide Rotated;
    }
    hide Rotated;
    assert forall k: nat :: k in z ==> SameFile(z, Rotated(was, n), k);
    assert forall k: nat :: k in Rotated(was, n) ==> SameFile(z, Rotated(was, n), k);
  }

  predicate SameFile(a: Disk, b: Disk, k: nat) {
    (k in a <==> k in b) && (k in a ==> a[k] == b[k])
  }
}
