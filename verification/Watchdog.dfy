/** The crash-loop limiter of launcher/src/watchdog.cpp: one fixed window and a counter.

    The engine's runs are given as the way each one ended. Times are monotonic seconds. */
module Watchdog {
  datatype Exit = Crashed(at: int) | Clean | ShutdownRequested

  datatype Verdict = Running | Stopped(code: int)

  /** `windowStart` and `count` are the code's variables. The rest is history: the crashes seen, the times the
      engine was restarted, and where the window before this one began. */
  datatype Guard = Guard(
    windowStart: int, count: int, verdict: Verdict, crashes: seq<int>, restarts: seq<int>, previous: int)

  function Fresh(start: int): Guard {
    Guard(start, 0, Running, [], [], start - 60)
  }

  /** The window a crash at `now` falls into. */
  function Rolled(g: Guard, now: int): Guard {
    if now - g.windowStart >= 60 then g.(windowStart := now, count := 0, previous := g.windowStart) else g
  }

  /** A crash in the window `g` is in. */
  function Counted(g: Guard, now: int, most: int): Guard {
    var g1 := g.(count := g.count + 1, crashes := g.crashes + [now]);
    if g1.count > most then g1.(verdict := Stopped(1)) else g1.(restarts := g1.restarts + [now])
  }

  function AfterCrash(g: Guard, now: int, most: int): Guard {
    Counted(Rolled(g, now), now, most)
  }

  function AfterExit(g: Guard, e: Exit, restart: bool, most: int): Guard {
    if g.verdict.Stopped? then g
    else
      match e
      case ShutdownRequested => g.(verdict := Stopped(0))
      case Clean => g.(verdict := Stopped(0))
      case Crashed(now) => if restart then AfterCrash(g, now, most) else g.(verdict := Stopped(1))
  }

  function After(g: Guard, exits: seq<Exit>, restart: bool, most: int): Guard
    decreases |exits|
  {
    if exits == [] then g else After(AfterExit(g, exits[0], restart, most), exits[1..], restart, most)
  }

  /** Crash times do not run backwards from `from`. */
  predicate Ordered(exits: seq<Exit>, from: int)
    decreases |exits|
  {
    exits == [] ||
    (if exits[0].Crashed? then from <= exits[0].at && Ordered(exits[1..], exits[0].at) else Ordered(exits[1..], from))
  }

  // ---- counting ----

  /** The times among `ts` from `lo` to `hi`, both included. */
  function Within(ts: seq<int>, lo: int, hi: int): nat
    decreases |ts|
  {
    if ts == [] then 0
    else
      var t := ts[|ts| - 1];
      Within(ts[..|ts| - 1], lo, hi) + (if lo <= t <= hi then 1 else 0)
  }

  /** The times among `ts` from `lo` on. */
  function Since(ts: seq<int>, lo: int): nat
    decreases |ts|
  {
    if ts == [] then 0 else Since(ts[..|ts| - 1], lo) + (if lo <= ts[|ts| - 1] then 1 else 0)
  }

  lemma {:induction false} Snoc(ts: seq<int>, t: int, lo: int, hi: int)
    ensures Within(ts + [t], lo, hi) == Within(ts, lo, hi) + (if lo <= t <= hi then 1 else 0)
    ensures Since(ts + [t], lo) == Since(ts, lo) + (if lo <= t then 1 else 0)
  {
    assert (ts + [t])[..|ts|] == ts;
  }

  lemma {:induction false} SinceWider(ts: seq<int>, lo: int, hi: int, lo': int)
    requires lo' <= lo
    ensures Within(ts, lo, hi) <= Since(ts, lo) <= Since(ts, lo')
    decreases |ts|
  {
    if ts != [] {
      SinceWider(ts[..|ts| - 1], lo, hi, lo');
    }
  }

  lemma {:induction false} SinceNone(ts: seq<int>, lo: int)
    requires forall t :: t in ts ==> t < lo
    ensures Since(ts, lo) == 0
    decreases |ts|
  {
    if ts != [] {
      var front := ts[..|ts| - 1];
      assert ts[|ts| - 1] in ts && forall t :: t in front ==> t in ts;
      SinceNone(front, lo);
    }
  }

  // ---- the bound ----

  function Most(most: int): nat {
    if most > 0 then most else 0
  }

  /** Restarts in any sixty seconds from `a` on. */
  predicate SpanOk(ts: seq<int>, a: int, most: int) {
    Within(ts, a, a + 60) <= 2 * Most(most)
  }

  predicate Before(ts: seq<int>, end: int) {
    forall t :: t in ts ==> t < end
  }

  /** The counter counts the crashes of its window; the window and the one before hold `most` restarts each. */
  predicate WindowOk(g: Guard, most: int) {
    && g.previous + 60 <= g.windowStart
    && Before(g.restarts, g.windowStart + 60) && Before(g.crashes, g.windowStart + 60)
    && 0 <= g.count == Since(g.crashes, g.windowStart)
    && Since(g.restarts, g.windowStart) <= Most(most)
    && (g.verdict.Running? ==> Since(g.restarts, g.windowStart) == g.count)
    && Since(g.restarts, g.previous) <= Since(g.restarts, g.windowStart) + Most(most)
  }

  ghost predicate GuardOk(g: Guard, most: int) {
    WindowOk(g, most) && forall a: int :: SpanOk(g.restarts, a, most)
  }

  lemma {:induction false} RolledOk(g: Guard, most: int, now: int)
    requires WindowOk(g, most) && g.windowStart <= now && g.verdict.Running?
    ensures WindowOk(Rolled(g, now), most) && now < Rolled(g, now).windowStart + 60
    ensures Rolled(g, now).windowStart <= now
  {
    if now - g.windowStart >= 60 {
      SinceNone(g.restarts, now);
      SinceNone(g.crashes, now);
    }
  }

  lemma {:induction false} BeforeSnoc(ts: seq<int>, t: int, end: int)
    requires Before(ts, end) && t < end
    ensures Before(ts + [t], end)
  {
  }

  lemma {:induction false} CountedOk(g: Guard, most: int, now: int)
    requires WindowOk(g, most) && g.windowStart <= now < g.windowStart + 60 && g.verdict.Running?
    ensures WindowOk(Counted(g, now, most), most)
  {
    hide Since, Before;
    BeforeSnoc(g.crashes, now, g.windowStart + 60);
    BeforeSnoc(g.restarts, now, g.windowStart + 60);
    Snoc(g.crashes, now, g.windowStart, 0);
    Snoc(g.restarts, now, g.windowStart, 0);
    Snoc(g.restarts, now, g.previous, 0);
  }

  lemma {:induction false} CrashWindowOk(g: Guard, most: int, now: int)
    requires WindowOk(g, most) && g.windowStart <= now && g.verdict.Running?
    ensures WindowOk(AfterCrash(g, now, most), most)
  {
    hide WindowOk;
    RolledOk(g, most, now);
    CountedOk(Rolled(g, now), most, now);
  }

  /** A restart at `now` keeps every span within bounds. */
  lemma {:induction false} CrashSpanOk(g: Guard, most: int, now: int, a: int)
    requires WindowOk(g, most) && g.windowStart <= now && g.verdict.Running? && SpanOk(g.restarts, a, most)
    ensures SpanOk(AfterCrash(g, now, most).restarts, a, most)
  {
    var z := AfterCrash(g, now, most);
    Snoc(g.restarts, now, a, a + 60);
    if a <= now <= a + 60 {
      RolledOk(g, most, now);
      CrashWindowOk(g, most, now);
      if a >= z.windowStart {
        SinceWider(z.restarts, a, a + 60, z.windowStart);
      } else {
        SinceWider(z.restarts, a, a + 60, z.previous);
      }
    }
  }

  lemma {:induction false} ExitOk(g: Guard, e: Exit, restart: bool, most: int)
    requires GuardOk(g, most) && (e.Crashed? ==> g.windowStart <= e.at)
    ensures GuardOk(AfterExit(g, e, restart, most), most)
  {
    if g.verdict.Running? && e.Crashed? && restart {
      CrashWindowOk(g, most, e.at);
      forall a: int ensures SpanOk(AfterCrash(g, e.at, most).restarts, a, most) {
        CrashSpanOk(g, most, e.at, a);
      }
    }
  }

  lemma {:induction false} RunOk(g: Guard, exits: seq<Exit>, restart: bool, most: int, from: int)
    requires GuardOk(g, most) && g.windowStart <= from && Ordered(exits, from)
    ensures GuardOk(After(g, exits, restart, most), most)
    decreases |exits|
  {
    hide GuardOk, AfterExit;
    if exits != [] {
      ExitOk(g, exits[0], restart, most);
      WindowMoves(g, exits[0], restart, most, from);
      RunOk(AfterExit(g, exits[0], restart, most), exits[1..], restart, most,
            if exits[0].Crashed? then exits[0].at else from);
    }
  }

  lemma {:induction false} WindowMoves(g: Guard, e: Exit, restart: bool, most: int, from: int)
    requires g.windowStart <= from && (e.Crashed? ==> from <= e.at)
    ensures AfterExit(g, e, restart, most).windowStart <= if e.Crashed? then e.at else from
  {
  }

  lemma {:induction false} FreshOk(start: int, most: int)
    ensures GuardOk(Fresh(start), most)
  {
  }

  /** Whatever the crash times, any sixty seconds hold at most twice the configured number of restarts. */
  lemma {:induction false} RestartsBounded(start: int, exits: seq<Exit>, restart: bool, most: int, a: int)
    requires Ordered(exits, start)
    ensures Within(After(Fresh(start), exits, restart, most).restarts, a, a + 60) <= 2 * Most(most)
  {
    FreshOk(start, most);
    RunOk(Fresh(start), exits, restart, most, start);
    assert SpanOk(After(Fresh(start), exits, restart, most).restarts, a, most);
  }

  /** Supervision gives up on a crash exactly when it is one more than the configured number since its window
      began, which is less than sixty seconds before. */
  lemma {:induction false} GivesUpExactly(start: int, exits: seq<Exit>, most: int, now: int)
    requires Ordered(exits + [Crashed(now)], start)
    requires After(Fresh(start), exits, true, most).verdict.Running?
    ensures var z := AfterCrash(After(Fresh(start), exits, true, most), now, most);
            && (z.verdict == Stopped(1) <==> Since(z.crashes, z.windowStart) > most)
            && z.windowStart <= now < z.windowStart + 60
  {
    FreshOk(start, most);
    OrderedParts(exits, now, start);
    RunOk(Fresh(start), exits, true, most, start);
    var g := After(Fresh(start), exits, true, most);
    StartsBefore(Fresh(start), exits, true, most, start, now);
    RolledOk(g, most, now);
    CrashWindowOk(g, most, now);
  }

  lemma {:induction false} OrderedParts(exits: seq<Exit>, now: int, from: int)
    requires Ordered(exits + [Crashed(now)], from)
    ensures Ordered(exits, from)
    decreases |exits|
  {
    if exits != [] {
      assert (exits + [Crashed(now)])[1..] == exits[1..] + [Crashed(now)];
      OrderedParts(exits[1..], now, if exits[0].Crashed? then exits[0].at else from);
    }
  }

  lemma {:induction false} StartsBefore(g: Guard, exits: seq<Exit>, restart: bool, most: int, from: int, now: int)
    requires g.windowStart <= from && Ordered(exits + [Crashed(now)], from)
    ensures After(g, exits, restart, most).windowStart <= now
    decreases |exits|
  {
    var all := exits + [Crashed(now)];
    if exits == [] {
      assert all[0] == Crashed(now);
    } else {
      assert all[0] == exits[0] && all[1..] == exits[1..] + [Crashed(now)];
      WindowMoves(g, exits[0], restart, most, from);
      StartsBefore(AfterExit(g, exits[0], restart, most), exits[1..], restart, most,
                   if exits[0].Crashed? then exits[0].at else from, now);
    }
  }

  /** What the next exit leads to while the engine is supervised. Any exit but a crash ends that with status 0. A
      crash ends it with status 1, or, where restarts are wanted, leads to one restart unless there were too many. */
  lemma {:induction false} ExitSays(start: int, exits: seq<Exit>, e: Exit, restart: bool, most: int)
    requires After(Fresh(start), exits, restart, most).verdict.Running?
    ensures var g, z := After(Fresh(start), exits, restart, most), After(Fresh(start), exits + [e], restart, most);
            && (!e.Crashed? ==> z == g.(verdict := Stopped(0)))
            && (e.Crashed? && !restart ==> z == g.(verdict := Stopped(1)))
            && (e.Crashed? && restart ==>
                  && z.crashes == g.crashes + [e.at]
                  && (z.verdict == Running || z.verdict == Stopped(1))
                  && z.restarts == g.restarts + if z.verdict.Running? then [e.at] else [])
  {
    var g := After(Fresh(start), exits, restart, most);
    AfterBoth(Fresh(start), exits, [e], restart, most);
    assert [e][1..] == [];
    assert After(g, [e], restart, most) == AfterExit(g, e, restart, most);
  }

  // ---- the bound is reached ----

  function Times(at: int, n: nat): seq<Exit> {
    if n == 0 then [] else [Crashed(at)] + Times(at, n - 1)
  }

  lemma {:induction false} BurstFits(g: Guard, at: int, n: nat, most: int, a: int)
    requires g.verdict.Running? && 0 <= g.count && g.count + n <= most && g.windowStart <= at < g.windowStart + 60
    requires a <= at <= a + 60
    ensures var z := After(g, Times(at, n), true, most);
            && z.verdict.Running? && z.count == g.count + n && z.windowStart == g.windowStart
            && Within(z.restarts, a, a + 60) == Within(g.restarts, a, a + 60) + n
    decreases n
  {
    if n > 0 {
      Snoc(g.restarts, at, a, a + 60);
      assert Times(at, n)[1..] == Times(at, n - 1);
      BurstFits(AfterCrash(g, at, most), at, n - 1, most, a);
    }
  }

  lemma {:induction false} AfterBoth(g: Guard, a: seq<Exit>, b: seq<Exit>, restart: bool, most: int)
    ensures After(g, a + b, restart, most) == After(After(g, a, restart, most), b, restart, most)
    decreases |a|
  {
    if a == [] {
      assert a + b == b;
    } else {
      AfterBoth(AfterExit(g, a[0], restart, most), a[1..], b, restart, most);
      assert (a + b)[1..] == a[1..] + b;
    }
  }

  /** A burst at the end of one window and another at the start of the next: the factor of two is needed. */
  lemma {:induction false} BoundReached(most: nat)
    requires most > 0
    ensures Ordered(Times(59, most) + ([Crashed(60)] + Times(60, most - 1)), 0)
    ensures var g := After(Fresh(0), Times(59, most) + ([Crashed(60)] + Times(60, most - 1)), true, most);
            g.verdict.Running? && Within(g.restarts, 59, 119) == 2 * most
  {
    var first, second := Times(59, most), [Crashed(60)] + Times(60, most - 1);
    BurstFits(Fresh(0), 59, most, most, 59);
    var g := After(Fresh(0), first, true, most);
    var g1 := AfterCrash(g, 60, most);
    assert g1.windowStart == 60 && g1.count == 1;
    Snoc(g.restarts, 60, 59, 119);
    BurstFits(g1, 60, most - 1, most, 59);
    assert second[1..] == Times(60, most - 1) && second[0] == Crashed(60);
    AfterBoth(Fresh(0), first, second, true, most);
    BurstOrdered(60, most - 1, 60);
    OrderedBoth(59, most, second, 0);
  }

  lemma {:induction false} BurstOrdered(at: int, n: nat, from: int)
    requires from <= at
    ensures Ordered(Times(at, n), from)
    decreases n
  {
    if n > 0 {
      assert Times(at, n)[1..] == Times(at, n - 1);
      BurstOrdered(at, n - 1, at);
    }
  }

  lemma {:induction false} OrderedBoth(at: int, n: nat, rest: seq<Exit>, from: int)
    requires from <= at && Ordered(rest, at) && n > 0
    ensures Ordered(Times(at, n) + rest, from)
    decreases n
  {
    var all := Times(at, n) + rest;
    assert all[0] == Crashed(at) && all[1..] == Times(at, n - 1) + rest;
    if n > 1 {
      OrderedBoth(at, n - 1, rest, at);
    } else {
      assert all[1..] == rest;
    }
  }

  // ---- the supervising loop ----

  lemma {:induction false} StoppedStays(g: Guard, exits: seq<Exit>, restart: bool, most: int)
    requires g.verdict.Stopped?
    ensures After(g, exits, restart, most) == g
    decreases |exits|
  {
    if exits != [] {
      StoppedStays(g, exits[1..], restart, most);
    }
  }

  /** `run`, until it stops supervising or the given exits end. */
  method Run(start: int, exits: seq<Exit>, restart: bool, most: int) returns (g: Guard)
    ensures g == After(Fresh(start), exits, restart, most)
  {
    var windowStart, count := start, 0;
    var crashes, restarts, previous := [], [], start - 60;
    for i := 0 to |exits|
      invariant After(Fresh(start), exits, restart, most)
                == After(Guard(windowStart, count, Running, crashes, restarts, previous), exits[i..], restart, most)
    {
      assert exits[i..][0] == exits[i] && exits[i..][1..] == exits[i + 1..];
      if !exits[i].Crashed? {
        g := Guard(windowStart, count, Stopped(0), crashes, restarts, previous);
        StoppedStays(g, exits[i + 1..], restart, most);
        return;
      }
      if !restart {
        g := Guard(windowStart, count, Stopped(1), crashes, restarts, previous);
        StoppedStays(g, exits[i + 1..], restart, most);
        return;
      }
      var now := exits[i].at;
      if now - windowStart >= 60 {
        windowStart, count, previous := now, 0, windowStart;
      }
      count := count + 1;
      crashes := crashes + [now];
      if count > most {
        g := Guard(windowStart, count, Stopped(1), crashes, restarts, previous);
        StoppedStays(g, exits[i + 1..], restart, most);
        return;
      }
      restarts := restarts + [now];
    }
    g := Guard(windowStart, count, Running, crashes, restarts, previous);
  }
}
