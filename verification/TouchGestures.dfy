/** What a whole touch comes to: the gestures a drag, a hold or a tap puts in the log, and which way they point. */
module TouchGestures {
  import opened Options
  import opened Touch

  function Times(g: Gesture, n: nat): seq<Gesture> {
    if n == 0 then [] else Times(g, n - 1) + [g]
  }

  lemma {:induction false} TimesFirst(g: Gesture, n: nat)
    ensures [g] + Times(g, n) == Times(g, n + 1)
  {
    if n > 0 {
      TimesFirst(g, n - 1);
      assert [g] + (Times(g, n - 1) + [g]) == ([g] + Times(g, n - 1)) + [g];
    }
  }

  lemma {:induction false} TimesAdd(g: Gesture, m: nat, n: nat)
    ensures Times(g, m) + Times(g, n) == Times(g, m + n)
  {
    if n > 0 {
      TimesAdd(g, m, n - 1);
      assert Times(g, m) + (Times(g, n - 1) + [g]) == (Times(g, m) + Times(g, n - 1)) + [g];
    }
  }

  /** What emitting does to the rest of the router. */
  lemma {:induction false} PushIs(s: State, g: Gesture)
    requires s.cfg.enabled
    ensures var z := Push(s, g);
            z.past.log == s.past.log + [g] && z.cfg == s.cfg && z.touch == s.touch && z.timers == s.timers
  {
  }

  /** The way the list goes under a finger that has travelled by `delta`: content follows the finger, so a drag
      to the right brings up what is on the left. */
  function Follows(axis: Axis, delta: real): Dir
    requires delta != 0.0
  {
    match axis
    case X => if delta < 0.0 then GoRight else GoLeft
    case Y => if delta < 0.0 then GoDown else GoUp
  }

  /** How many whole steps of `step` fit into `travel`, but no more than `most`. */
  predicate Fits(n: nat, travel: real, step: real, most: int) {
    && n as real * step <= travel && (n == 0 || n <= most)
    && (travel < (n + 1) as real * step || n >= most)
  }

  /** What is left of `travel` after `n` steps. */
  function Rest(travel: real, n: nat, step: real): real {
    travel - n as real * step
  }

  /** The moves a drag has earned: one for each step of its travel, all in the drag's direction. */
  lemma {:induction false} StepsAre(s: State, axis: Axis) returns (n: nat)
    requires s.touch.Some? && s.cfg.enabled && s.cfg.stepPx > 0.0 && s.touch.value.accum != 0.0
    ensures var t, z := s.touch.value, Steps(s, axis);
            && Fits(n, Abs(t.accum), s.cfg.stepPx, s.cfg.maxSteps - t.emitted)
            && z.past.log == s.past.log + Times(Arrow(Follows(axis, t.accum)), n)
            && z.cfg == s.cfg && z.timers == s.timers
            && z.touch.Some? && z.touch.value == t.(accum := z.touch.value.accum, emitted := t.emitted + n)
            && Abs(z.touch.value.accum) == Rest(Abs(t.accum), n, s.cfg.stepPx)
    decreases s.cfg.maxSteps - s.touch.value.emitted
  {
    hide Push, Times, Earned, Steps, Fits, Stepped, Abs, Rest;
    var t := s.touch.value;
    if !Earned(s.cfg, t) {
      n := 0;
      NoneFits(s, axis);
    } else {
      var g := Arrow(Follows(axis, t.accum));
      var s1 := OneStep(s, axis);
      var k := 0;
      if s1.touch.value.accum == 0.0 {
        NoneFits(s1, axis);
      } else {
        k := StepsAre(s1, axis);
      }
      n := k + 1;
      OneMoreFits(k, Abs(s1.touch.value.accum), s.cfg.stepPx, s.cfg.maxSteps - t.emitted - 1);
      TimesFirst(g, k);
      assert s.past.log + [g] + Times(g, k) == s.past.log + ([g] + Times(g, k));
    }
  }

  lemma {:induction false} OneStep(s: State, axis: Axis) returns (s1: State)
    requires s.touch.Some? && s.cfg.enabled && s.cfg.stepPx > 0.0 && Earned(s.cfg, s.touch.value)
    ensures s.touch.value.accum != 0.0 && s.touch.value.emitted < s.cfg.maxSteps
    ensures s1.touch.Some? && Steps(s, axis) == Steps(s1, axis)
    ensures s1.past.log == s.past.log + [Arrow(Follows(axis, s.touch.value.accum))]
    ensures s1.cfg == s.cfg && s1.timers == s.timers
    ensures s1.touch.value == s.touch.value.(accum := s1.touch.value.accum, emitted := s.touch.value.emitted + 1)
    ensures Abs(s1.touch.value.accum) == Abs(s.touch.value.accum) - s.cfg.stepPx
    ensures s1.touch.value.accum != 0.0 ==> Follows(axis, s1.touch.value.accum) == Follows(axis, s.touch.value.accum)
  {
    hide Push;
    var t := s.touch.value;
    var s0, g := s.(touch := Some(Stepped(s.cfg, t))), Arrow(Follows(axis, t.accum));
    PushIs(s0, g);
    s1 := Push(s0, g);
  }

  lemma {:induction false} NoneFits(s: State, axis: Axis)
    requires s.touch.Some? && s.cfg.stepPx > 0.0
    requires s.touch.value.accum == 0.0 || !Earned(s.cfg, s.touch.value)
    ensures Steps(s, axis) == s
    ensures Fits(0, Abs(s.touch.value.accum), s.cfg.stepPx, s.cfg.maxSteps - s.touch.value.emitted)
    ensures forall g :: s.past.log + Times(g, 0) == s.past.log
    ensures Rest(Abs(s.touch.value.accum), 0, s.cfg.stepPx) == Abs(s.touch.value.accum)
  {
  }

  lemma {:induction false} NoTimes(g: Gesture)
    ensures Times(g, 0) == [] && Times(g, 1) == [g]
  {
    assert Times(g, 1) == Times(g, 0) + [g];
  }

  lemma {:induction false} OneMoreFits(k: nat, travel: real, step: real, most: int)
    requires Fits(k, travel, step, most) && step > 0.0 && most >= 0
    ensures Fits(k + 1, travel + step, step, most + 1)
    ensures Rest(travel + step, k + 1, step) == Rest(travel, k, step)
  {
    assert (k + 1) as real * step == k as real * step + step;
    assert (k + 2) as real * step == (k + 1) as real * step + step;
  }

  lemma {:induction false} FlicksAre(s: State, n: int, dir: Dir)
    requires s.cfg.enabled
    ensures var z := Flicks(s, n, dir);
            && z.past.log == s.past.log + Times(Arrow(dir), if n < 0 then 0 else n)
            && z.cfg == s.cfg && z.touch == s.touch
    decreases n
  {
    hide Push, Times;
    NoTimes(Arrow(dir));
    if n > 0 {
      PushIs(s, Arrow(dir));
      FlicksAre(Push(s, Arrow(dir)), n - 1, dir);
      TimesFirst(Arrow(dir), n - 1);
      var log := s.past.log;
      assert log + [Arrow(dir)] + Times(Arrow(dir), n - 1) == log + ([Arrow(dir)] + Times(Arrow(dir), n - 1));
    }
  }

  lemma {:induction false} NoFlicks(s: State, dir: Dir)
    ensures Flicks(s, 0, dir) == s
  {
  }

  // ---- whole touches ----

  function Travel(from: Point, to: Point): real {
    if Abs(to.x - from.x) > Abs(to.y - from.y) then to.x - from.x else to.y - from.y
  }

  /** The axis of a straight drag is the one it went further along. */
  function Along(from: Point, to: Point): Axis {
    if Abs(to.x - from.x) > Abs(to.y - from.y) then X else Y
  }

  predicate Moves(cfg: Config, from: Point, to: Point) {
    Abs(to.x - from.x) > cfg.tapSlopPx || Abs(to.y - from.y) > cfg.tapSlopPx
  }

  /** A touch may begin: no finger is down. */
  predicate Ready(z: Screen) {
    z.fingers == 0 && z.s.cfg.enabled
  }

  lemma {:induction false} Pressed(z: Screen, p: Point)
    requires Ready(z)
    ensures var z1 := Step(z, FingerDown(Some(p)));
            && z1.fingers == 1 && z1.s.cfg == z.s.cfg && z1.s.past.log == z.s.past.log && z1.s.timers > 0
            && z1.s.touch == Some(Sequence(p, p, 0.0, None, false, false, p.x <= z.s.cfg.edgePx, false, 0, true))
  {
  }

  /** One finger goes down at `from`, moves straight to `to`, past the tap slop, and is lifted. Away from the left
      edge it makes one arrow for each step of its travel, up to the limit and at least one, and those its speed
      earns, all in the one direction. */
  lemma {:induction false} DragMakes(z: Screen, from: Point, to: Point, tap: TapOutcome, flick: Option<int>)
    returns (n: nat)
    requires Ready(z) && z.s.cfg.stepPx > 0.0 && z.s.cfg.tapSlopPx >= 0.0
    requires Moves(z.s.cfg, from, to) && from.x > z.s.cfg.edgePx
    ensures Fits(n, Abs(Travel(from, to)), z.s.cfg.stepPx, z.s.cfg.maxSteps) && Travel(from, to) != 0.0
    ensures var ls := [FingerDown(Some(from)), FingersMove(Some(to)), FingerUp(Some(to), tap, flick)];
            && Feasible(z, ls)
            && After(z, ls).s.past.log == z.s.past.log
                 + Times(Arrow(Follows(Along(from, to), Travel(from, to))), Total(z.s.cfg, n, flick))
  {
    hide Times, Steps, Follows, Total, Step, Fits, Travel, Along;
    var cfg, log := z.s.cfg, z.s.past.log;
    Pressed(z, from);
    var z1 := Step(z, FingerDown(Some(from)));
    n := Dragging(z1, from, to);
    var z2, g := Step(z1, FingersMove(Some(to))), Arrow(Follows(Along(from, to), Travel(from, to)));
    Lifted(z2, from, to, n, tap, flick);
    TimesAdd(g, n, Total(cfg, n, flick) - n);
    assert log + Times(g, n) + Times(g, Total(cfg, n, flick) - n)
        == log + (Times(g, n) + Times(g, Total(cfg, n, flick) - n));
    ThreeSteps(z, FingerDown(Some(from)), FingersMove(Some(to)), FingerUp(Some(to), tap, flick));
  }

  /** Of `n` arrows from steps: at least one comes of a drag, and a fast release adds up to `flick`. */
  function Total(cfg: Config, n: nat, flick: Option<int>): (m: nat)
    ensures m >= n
  {
    var first := if n == 0 then 1 else n;
    if flick.None? || cfg.flickMaxArrows <= 0 || flick.value <= 0 || first >= cfg.maxSteps then first
    else if flick.value <= cfg.flickMaxArrows then
      if first + flick.value <= cfg.maxSteps then first + flick.value else cfg.maxSteps
    else if first + cfg.flickMaxArrows <= cfg.maxSteps then first + cfg.flickMaxArrows
    else cfg.maxSteps
  }

  lemma {:induction false} TotalIs(cfg: Config, n: nat, flick: Option<int>)
    ensures var first := if n == 0 then 1 else n;
            var more := if flick.None? || first >= cfg.maxSteps then 0
                        else Min(Min(cfg.flickMaxArrows, flick.value), cfg.maxSteps - first);
            Total(cfg, n, flick) == first + if more < 0 then 0 else more
  {
  }

  lemma {:induction false} Dragging(z: Screen, from: Point, to: Point) returns (n: nat)
    requires z.fingers == 1 && z.s.cfg.enabled && z.s.cfg.stepPx > 0.0 && z.s.cfg.tapSlopPx >= 0.0
    requires Moves(z.s.cfg, from, to) && z.s.timers > 0
    requires z.s.touch == Some(Sequence(from, from, 0.0, None, false, false, false, false, 0, true))
    ensures Fits(n, Abs(Travel(from, to)), z.s.cfg.stepPx, z.s.cfg.maxSteps) && Travel(from, to) != 0.0
    ensures var z1 := Step(z, FingersMove(Some(to)));
            && z1.fingers == 1 && z1.s.cfg == z.s.cfg
            && z1.s.past.log == z.s.past.log + Times(Arrow(Follows(Along(from, to), Travel(from, to))), n)
            && z1.s.touch.Some?
            && z1.s.touch.value == Sequence(from, to, z1.s.touch.value.accum, Some(Along(from, to)), true, false,
                                            false, false, n, false)
  {
    hide Times, Steps, Follows, Fits;
    var t := Dragged(z.s.cfg, z.s.touch.value, to);
    var s1 := Disarmed(z.s);
    var s2 := s1.(touch := Some(t.(armed := false)));
    assert t == Sequence(from, to, Travel(from, to), Some(Along(from, to)), true, false, false, false, 0, true);
    assert OnMove(z.s, 1, Some(to)) == Steps(s2, Along(from, to));
    n := StepsAre(s2, Along(from, to));
  }

  lemma {:induction false} Lifted(z: Screen, from: Point, to: Point, n: nat, tap: TapOutcome, flick: Option<int>)
    requires z.fingers == 1 && z.s.cfg.enabled && Travel(from, to) != 0.0 && z.s.touch.Some?
    requires z.s.touch.value == Sequence(from, to, z.s.touch.value.accum, Some(Along(from, to)), true, false, false,
                                         false, n, false)
    ensures var z1 := Step(z, FingerUp(Some(to), tap, flick));
            && z1.fingers == 0
            && z1.s.past.log == z.s.past.log
                 + Times(Arrow(Follows(Along(from, to), Travel(from, to))), Total(z.s.cfg, n, flick) - n)
  {
    hide Times, Total, Released;
    ReleaseMakes(z.s.(touch := None), z.s.touch.value, from, to, flick);
  }

  lemma {:induction false} ReleaseMakes(s: State, t: Sequence, from: Point, to: Point, flick: Option<int>)
    requires s.cfg.enabled && Travel(from, to) != 0.0 && t.axis == Some(Along(from, to))
    requires t.emitted >= 0
    ensures Released(s, t, to.x - from.x, to.y - from.y, flick).past.log
            == s.past.log + Times(Arrow(Follows(Along(from, to), Travel(from, to))),
                                  Total(s.cfg, t.emitted, flick) - t.emitted)
  {
    hide Times, Push, Flicks, Total;
    var cfg, n, g := s.cfg, t.emitted, Arrow(Follows(Along(from, to), Travel(from, to)));
    var s1 := if n == 0 then Push(s, g) else s;
    PushIs(s, g);
    NoTimes(g);
    var first := if n == 0 then 1 else n;
    var more := if flick.None? || first >= cfg.maxSteps then 0
                else Min(Min(cfg.flickMaxArrows, flick.value), cfg.maxSteps - first);
    FlicksAre(s1, more, g.dir);
    NoFlicks(s1, g.dir);
    var extra := if more < 0 then 0 else more;
    TimesAdd(g, first - n, extra);
    TotalIs(cfg, n, flick);
    assert s.past.log + Times(g, first - n) + Times(g, extra) == s.past.log + (Times(g, first - n) + Times(g, extra));
  }

  lemma {:induction false} ThreeSteps(z: Screen, a: Label, b: Label, c: Label)
    requires Enabled(z, a) && Enabled(Step(z, a), b) && Enabled(Step(Step(z, a), b), c)
    ensures Feasible(z, [a, b, c]) && After(z, [a, b, c]) == Step(Step(Step(z, a), b), c)
    ensures Feasible(z, [a, b]) && After(z, [a, b]) == Step(Step(z, a), b)
  {
    hide Step, Enabled;
    TwoSteps(Step(z, a), b, c);
    TwoSteps(z, a, b);
    assert [a, b, c][1..] == [b, c];
  }

  lemma {:induction false} TwoSteps(z: Screen, a: Label, b: Label)
    requires Enabled(z, a) && Enabled(Step(z, a), b)
    ensures Feasible(z, [a, b]) && After(z, [a, b]) == Step(Step(z, a), b)
  {
    hide Step, Enabled;
    assert [a, b][1..] == [b] && [b][1..] == [];
    assert Feasible(Step(Step(z, a), b), []);
    assert Feasible(Step(z, a), [b]) && After(Step(z, a), [b]) == Step(Step(z, a), b);
  }

  /** Straight from the left edge zone: Back if it goes far enough to the right, and otherwise nothing. */
  lemma {:induction false} EdgeDragMakes(z: Screen, from: Point, to: Point, tap: TapOutcome, flick: Option<int>)
    requires Ready(z) && from.x <= z.s.cfg.edgePx && Moves(z.s.cfg, from, to) && Along(from, to) == X
    ensures var ls := [FingerDown(Some(from)), FingersMove(Some(to)), FingerUp(Some(to), tap, flick)];
            && Feasible(z, ls)
            && After(z, ls).s.past.log
               == z.s.past.log + if to.x - from.x >= z.s.cfg.edgeMinPx then [BackSwipe] else []
  {
    hide Push, Steps, Released;
    Pressed(z, from);
    var z1 := Step(z, FingerDown(Some(from)));
    var z2 := Step(z1, FingersMove(Some(to)));
    assert z2.s.touch.Some? && z2.s.touch.value.edge && z2.s.touch.value.axis == Some(X) && z2.s.past == z1.s.past;
    PushIs(Disarmed(z2.s).(touch := None), BackSwipe);
    ThreeSteps(z, FingerDown(Some(from)), FingersMove(Some(to)), FingerUp(Some(to), tap, flick));
  }

  /** A finger that rests until the long press fires holds the zone it went down in, by thirds of the width, until
      it is lifted. */
  lemma {:induction false} HoldMakes(z: Screen, p: Point, tap: TapOutcome, flick: Option<int>)
    requires Ready(z)
    ensures var zone := if 3.0 * p.x < z.s.cfg.width then LeftZone
                        else if 3.0 * p.x > 2.0 * z.s.cfg.width then RightZone
                        else CenterZone;
            var ls := [FingerDown(Some(p)), LongPressFires(true), FingerUp(None, tap, flick)];
            && Feasible(z, ls) && After(z, ls).s.past.log == z.s.past.log + [HoldOn(zone), HoldOff]
  {
    hide Push;
    Pressed(z, p);
    var z1 := Step(z, FingerDown(Some(p)));
    var t := z1.s.touch.value.(armed := false, longFired := true);
    var s1 := z1.s.(timers := z1.s.timers - 1, touch := Some(t));
    PushIs(s1, HoldOn(ZoneOf(z.s.cfg, p.x)));
    var z2 := Step(z1, LongPressFires(true));
    assert z2.s == Push(s1, HoldOn(ZoneOf(z.s.cfg, p.x))) && z2.fingers == 1;
    PushIs(Disarmed(z2.s).(touch := None), HoldOff);
    ThreeSteps(z, FingerDown(Some(p)), LongPressFires(true), FingerUp(None, tap, flick));
  }

  /** A touch that stays put: nothing when it was too long, nothing yet when it waits for its pair, and on the
      second touch of a pair a seek at the sides or a tap in the middle. */
  lemma {:induction false} TapMakes(z: Screen, p: Point, tap: TapOutcome, flick: Option<int>)
    requires Ready(z)
    ensures var ls := [FingerDown(Some(p)), FingerUp(Some(p), tap, flick)];
            var log := z.s.past.log;
            && Feasible(z, ls)
            && (tap == TooLong || tap == Single ==> After(z, ls).s.past.log == log)
            && (tap == Paired(true) ==> After(z, ls).s.past.log == log + [Seek])
            && (tap == Paired(false) ==> After(z, ls).s.past.log == log + [Tap])
  {
    hide Push;
    Pressed(z, p);
    var z1 := Step(z, FingerDown(Some(p)));
    PushIs(Disarmed(z1.s).(touch := None), Seek);
    PushIs(Disarmed(z1.s).(touch := None), Tap);
    TwoSteps(z, FingerDown(Some(p)), FingerUp(Some(p), tap, flick));
  }

  /** Nor does it count as moving while it stays within the slop. */
  lemma {:induction false} JitterMakes(z: Screen, p: Point, q: Point, tap: TapOutcome, flick: Option<int>)
    requires Ready(z) && !Moves(z.s.cfg, p, q)
    ensures var ls := [FingerDown(Some(p)), FingersMove(Some(q)), FingerUp(Some(q), tap, flick)];
            var log := z.s.past.log;
            && Feasible(z, ls)
            && (tap == TooLong || tap == Single ==> After(z, ls).s.past.log == log)
            && (tap == Paired(true) ==> After(z, ls).s.past.log == log + [Seek])
            && (tap == Paired(false) ==> After(z, ls).s.past.log == log + [Tap])
  {
    hide Push, Steps;
    Pressed(z, p);
    var z1 := Step(z, FingerDown(Some(p)));
    var z2 := Step(z1, FingersMove(Some(q)));
    assert z2.s == z1.s.(touch := Some(z1.s.touch.value.(last := q)));
    PushIs(Disarmed(z2.s).(touch := None), Seek);
    PushIs(Disarmed(z2.s).(touch := None), Tap);
    ThreeSteps(z, FingerDown(Some(p)), FingersMove(Some(q)), FingerUp(Some(q), tap, flick));
  }

  // ---- more than one finger ----

  predicate IsTouch(l: Label) {
    l.FingerDown? || l.FingersMove? || l.FingerUp? || l.TouchCancel? || l.LongPressFires?
  }

  /** Touch events up to the last finger of this touch at most: no new one begins. */
  predicate OneTouch(z: Screen, ls: seq<Label>)
    requires Feasible(z, ls)
    decreases |ls|
  {
    ls == [] ||
    (IsTouch(ls[0]) && (ls[0].FingerDown? ==> z.fingers > 0) && OneTouch(Step(z, ls[0]), ls[1..]))
  }

  /** Nothing can come of the touch any more. */
  predicate Spent(s: State) {
    s.touch.Some? ==> s.touch.value.abandoned && !s.touch.value.longFired
  }

  lemma {:induction false} SpentStep(z: Screen, l: Label)
    requires Enabled(z, l) && IsTouch(l) && (l.FingerDown? ==> z.fingers > 0) && Spent(z.s)
    ensures Spent(Step(z, l).s) && Step(z, l).s.past.log == z.s.past.log
  {
    hide Push, Steps;
  }

  lemma {:induction false} SpentRun(z: Screen, ls: seq<Label>)
    requires Feasible(z, ls) && OneTouch(z, ls) && Spent(z.s)
    ensures After(z, ls).s.past.log == z.s.past.log
    decreases |ls|
  {
    hide Step, Enabled, Spent;
    if ls != [] {
      SpentStep(z, ls[0]);
      SpentRun(Step(z, ls[0]), ls[1..]);
    }
  }

  /** A second finger ends it: however the fingers go on, the touch makes nothing more, unless it had begun a
      hold. */
  lemma {:induction false} SecondFingerEnds(z: Screen, p: Option<Point>, ls: seq<Label>)
    requires z.s.cfg.enabled && z.fingers > 0 && (z.s.touch.Some? ==> !z.s.touch.value.longFired)
    requires Feasible(Step(z, FingerDown(p)), ls) && OneTouch(Step(z, FingerDown(p)), ls)
    ensures After(Step(z, FingerDown(p)), ls).s.past.log == z.s.past.log
  {
    SpentRun(Step(z, FingerDown(p)), ls);
  }

  /** A router that is switched off takes no notice of fingers, and hands nothing on. */
  lemma {:induction false} DisabledIsDeaf(z: Screen, l: Label)
    requires Enabled(z, l) && !z.s.cfg.enabled
    ensures l.FingerDown? || l.FingersMove? || l.FingerUp? || l.TouchCancel? ==> Step(z, l).s == z.s
    ensures Step(z, l).s.past.log == z.s.past.log
  {
    hide Steps;
  }

  // ---- travel is conserved ----

  /** The moves in a log, those towards the start of a list against those towards its end. */
  function Net(log: seq<Gesture>): int
    decreases |log|
  {
    if log == [] then 0
    else
      Net(log[..|log| - 1])
      + match log[|log| - 1]
        case Arrow(dir) => if dir == GoLeft || dir == GoUp then 1 else -1
        case _ => 0
  }

  /** The travel the log and what is left over account for, in pixels. */
  function Travelled(log: seq<Gesture>, step: real, accum: real): real {
    Net(log) as real * step + accum
  }

  lemma {:induction false} OneArrow(log: seq<Gesture>, dir: Dir, step: real, accum: real)
    ensures Travelled(log + [Arrow(dir)], step, accum)
            == Travelled(log, step, accum) + (if dir == GoLeft || dir == GoUp then step else -step)
  {
    assert (log + [Arrow(dir)])[..|log|] == log;
    var n := Net(log);
    assert (n + 1) as real * step == n as real * step + step;
    assert (n - 1) as real * step == n as real * step - step;
  }

  lemma {:induction false} StepsConserve(s: State, axis: Axis)
    requires s.touch.Some? && s.cfg.enabled
    ensures var t, z := s.touch.value, Steps(s, axis);
            && z.cfg == s.cfg && z.touch.Some?
            && z.touch.value == t.(accum := z.touch.value.accum, emitted := z.touch.value.emitted)
            && Travelled(z.past.log, s.cfg.stepPx, z.touch.value.accum)
               == Travelled(s.past.log, s.cfg.stepPx, t.accum)
    decreases s.cfg.maxSteps - s.touch.value.emitted
  {
    hide Push, Net;
    var t := s.touch.value;
    if Earned(s.cfg, t) {
      var s1, dir := s.(touch := Some(Stepped(s.cfg, t))), ArrowFor(axis, t.accum);
      PushIs(s1, Arrow(dir));
      StepsConserve(Push(s1, Arrow(dir)), axis);
      OneArrow(s.past.log, dir, s.cfg.stepPx, Stepped(s.cfg, t).accum);
    }
  }

  /** A drag under way, by one finger, that is not held back at the edge. */
  predicate UnderWay(z: Screen) {
    && z.fingers == 1 && z.s.cfg.enabled && z.s.touch.Some?
    && var t := z.s.touch.value;
       t.moved && t.axis.Some? && !t.abandoned && !(t.edge && t.axis == Some(X))
  }

  function Position(axis: Axis, p: Point): real {
    if axis.X? then p.x else p.y
  }

  function MovesTo(ps: seq<Point>): seq<Label> {
    if ps == [] then [] else [FingersMove(Some(ps[0]))] + MovesTo(ps[1..])
  }

  lemma {:induction false} MoveConserves(z: Screen, p: Point)
    requires UnderWay(z)
    ensures var z1, t := Step(z, FingersMove(Some(p))), z.s.touch.value;
            && UnderWay(z1) && z1.s.cfg == z.s.cfg && z1.s.touch.value.axis == t.axis && z1.s.touch.value.last == p
            && Travelled(z1.s.past.log, z.s.cfg.stepPx, z1.s.touch.value.accum)
               == Travelled(z.s.past.log, z.s.cfg.stepPx, t.accum)
                  + Position(t.axis.value, p) - Position(t.axis.value, t.last)
  {
    hide Steps, Net;
    var t := Dragged(z.s.cfg, z.s.touch.value, p);
    var s2 := z.s.(touch := Some(t));
    assert Step(z, FingersMove(Some(p))).s == Steps(s2, t.axis.value);
    StepsConserve(s2, t.axis.value);
  }

  /** However a drag goes, to and fro and in however many moves: the steps its arrows stand for, those one way less
      those the other, and what is left over, add up to the way it has come along its axis. */
  lemma {:induction false} DragConserves(z: Screen, ps: seq<Point>)
    requires UnderWay(z) && ps != []
    ensures Feasible(z, MovesTo(ps))
    ensures var z1, t := After(z, MovesTo(ps)), z.s.touch.value;
            && UnderWay(z1)
            && Travelled(z1.s.past.log, z.s.cfg.stepPx, z1.s.touch.value.accum)
               == Travelled(z.s.past.log, z.s.cfg.stepPx, t.accum)
                  + Position(t.axis.value, ps[|ps| - 1]) - Position(t.axis.value, t.last)
    decreases |ps|
  {
    hide Step, Travelled;
    var z1 := Step(z, FingersMove(Some(ps[0])));
    MoveConserves(z, ps[0]);
    assert MovesTo(ps)[1..] == MovesTo(ps[1..]);
    if |ps| > 1 {
      DragConserves(z1, ps[1..]);
    } else {
      assert MovesTo(ps[1..]) == [];
    }
  }

  // ---- the long poll ----

  /** A wait is answered at once, with everything queued, if there is anything or the page has yet to be configured.
      Otherwise it stands, and one that stood before is answered. */
  lemma {:induction false} PollSays(z: Screen)
    ensures var s, s1 := z.s, Step(z, Poll).s;
            && s1.past.waits == s.past.waits + 1 && s1.queue == [] && s1.past.out == s.past.out + s.queue
            && if s.queue != [] || !s.configured then
                 s1.past.answered == s.past.answered + [s.past.waits] && s1.waiter == s.waiter
               else
                 && s1.waiter == Some(s.past.waits)
                 && s1.past.answered == s.past.answered + if s.waiter.Some? then [s.waiter.value] else []
  {
    assert z.s.past.out + [] == z.s.past.out;
  }

  /** A gesture goes at once to a wait that stands, with what was queued before it, and the wait is answered; with
      none standing it is queued. */
  lemma {:induction false} GestureGoesOut(s: State, g: Gesture)
    requires s.cfg.enabled && |s.queue| < s.cfg.maxQueue
    ensures var z, all := Push(s, g), s.queue + [Entry(|s.past.log|, g)];
            if s.waiter.Some? then
              && z.queue == [] && z.waiter.None? && z.past.out == s.past.out + all
              && z.past.answered == s.past.answered + [s.waiter.value]
            else z.queue == all && z.past.out == s.past.out && z.past.answered == s.past.answered
  {
  }
}
