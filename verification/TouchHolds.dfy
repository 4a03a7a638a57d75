/** Holds and arrows over touch streams during which the router stays enabled. */
module TouchHolds {
  import opened Options
  import opened Touch
  import opened TouchSafety
  import opened TouchStream

  function One(b: bool): nat {
    if b then 1 else 0
  }

  /** Whether the last hold event, if any, was an "on". */
  predicate Holding(log: seq<Gesture>)
    decreases |log|
  {
    if log == [] then false
    else
      var g := log[|log| - 1];
      g.HoldOn? || (!g.HoldOff? && Holding(log[..|log| - 1]))
  }

  /** Hold events strictly alternate, beginning with an "on". */
  predicate Alternates(log: seq<Gesture>) {
    forall i :: 0 <= i < |log| ==>
                  (log[i].HoldOn? ==> !Holding(log[..i])) && (log[i].HoldOff? ==> Holding(log[..i]))
  }

  /** Arrows among the gestures from `k` on. */
  function ArrowsSince(log: seq<Gesture>, k: nat): nat
    decreases |log|
  {
    if |log| <= k then 0 else ArrowsSince(log[..|log| - 1], k) + One(log[|log| - 1].Arrow?)
  }

  lemma {:induction false} Snoc(log: seq<Gesture>, g: Gesture, k: nat)
    requires k <= |log|
    ensures Holding(log + [g]) == (g.HoldOn? || (!g.HoldOff? && Holding(log)))
    ensures ArrowsSince(log + [g], k) == ArrowsSince(log, k) + One(g.Arrow?)
    ensures Alternates(log) && (g.HoldOn? ==> !Holding(log)) && (g.HoldOff? ==> Holding(log)) ==> Alternates(log + [g])
  {
    var more := log + [g];
    assert more[..|log|] == log;
    forall i | 0 <= i < |log| ensures more[..i] == log[..i] && more[i] == log[i] {
    }
  }

  /** Arrows neither begin nor end a hold. */
  lemma {:induction false} ArrowsHold(log: seq<Gesture>, log': seq<Gesture>, n: nat, k: nat)
    requires ArrowsAdded(log, log', n) && k <= |log|
    ensures Holding(log') == Holding(log) && ArrowsSince(log', k) == ArrowsSince(log, k) + n && k <= |log'|
    ensures Alternates(log) ==> Alternates(log')
    decreases n
  {
    if n > 0 {
      var front := log'[..|log'| - 1];
      assert log' == front + [log'[|log'| - 1]];
      assert front[..|log|] == log;
      ArrowsHold(log, front, n - 1, k);
      Snoc(front, log'[|log'| - 1], k);
    } else {
      assert log' == log;
    }
  }

  lemma {:induction false} NoArrowsYet(log: seq<Gesture>)
    ensures ArrowsSince(log, |log|) == 0
  {
  }

  /** A hold is on exactly while a sequence's long press has fired; arrows are counted by the sequence. */
  ghost predicate Steady(m: int, z: Screen) {
    var s := z.s;
    && Kept(s, false) && s.cfg.enabled && 1 <= m && s.cfg.maxSteps <= m
    && (z.fingers == 0 ==> s.touch.None?)
    && Alternates(s.past.log) && s.past.since <= |s.past.log|
    && Holding(s.past.log) == (s.touch.Some? && s.touch.value.longFired)
    && s.timers == One(s.touch.Some? && s.touch.value.armed)
    && ArrowsSince(s.past.log, s.past.since) <= m
    && (s.touch.Some? ==>
          var t := s.touch.value;
          && (t.armed ==> !t.longFired)
          && 0 <= t.emitted == ArrowsSince(s.past.log, s.past.since)
          && t.emitted <= m)
  }

  /** The router stays enabled, and `maxSteps` at most `m`. */
  predicate IsSteady(m: int, l: Label) {
    (l.Enable? ==> l.on) && (l.Configure? ==> l.cfg.enabled && l.cfg.maxSteps <= m)
  }

  lemma {:induction false} DownSteady(m: int, z: Screen, p: Option<Point>)
    requires Steady(m, z)
    ensures Steady(m, Step(z, FingerDown(p)))
  {
    KeptApart(false, z.s, OnStart(z.s, z.fingers + 1, p));
    NoArrowsYet(z.s.past.log);
  }

  lemma {:induction false} StepsSteady(m: int, z: Screen, axis: Axis)
    requires Steady(m, z) && z.s.touch.Some?
    ensures Steady(m, z.(s := Steps(z.s, axis)))
  {
    hide Kept, Steps, Alternates, Holding, ArrowsSince, ArrowsAdded;
    StepsKept(false, z.s, axis);
    var s := Steps(z.s, axis);
    ArrowsHold(z.s.past.log, s.past.log, s.touch.value.emitted - z.s.touch.value.emitted, z.s.past.since);
  }

  /** The sequence as a move leaves it, before any arrow. */
  function Followed(s: State, p: Point): State
    requires s.touch.Some?
  {
    var t := Dragged(s.cfg, s.touch.value, p);
    var s1 := if t.moved && !s.touch.value.moved then Disarmed(s) else s;
    s1.(touch := Some(t.(armed := s1.touch.value.armed)))
  }

  lemma {:induction false} FollowedSteady(m: int, z: Screen, p: Point)
    requires Steady(m, z) && z.s.touch.Some? && z.fingers > 0
    ensures Steady(m, z.(s := Followed(z.s, p)))
  {
    DraggedKeeps(z.s.cfg, z.s.touch.value, p);
    KeptApart(false, z.s, Followed(z.s, p));
    hide Kept, Dragged, Alternates, Holding, ArrowsSince;
  }

  lemma {:induction false} MoveSteady(m: int, z: Screen, p: Option<Point>)
    requires Steady(m, z) && z.fingers > 0
    ensures Steady(m, Step(z, FingersMove(p)))
  {
    var s := z.s;
    if s.touch.Some? && !s.touch.value.abandoned {
      if z.fingers > 1 {
        KeptApart(false, s, s.(touch := Some(s.touch.value.(abandoned := true))));
      } else if p.Some? {
        FollowedSteady(m, z, p.value);
        var t := Dragged(s.cfg, s.touch.value, p.value);
        if t.axis.Some? {
          StepsSteady(m, z.(s := Followed(s, p.value)), t.axis.value);
        }
        hide Steady, Dragged, Steps, Disarmed;
      }
    }
  }

  lemma {:induction false} DraggedKeeps(cfg: Config, t: Sequence, p: Point)
    ensures var d := Dragged(cfg, t, p);
            d.longFired == t.longFired && d.emitted == t.emitted && d.armed == t.armed && d.abandoned == t.abandoned
  {
  }

  /** One gesture more, on an enabled router. */
  lemma {:induction false} PushSteady(m: int, z: Screen, g: Gesture, s: State)
    requires Kept(s, false) && s.cfg == z.s.cfg && s.past == z.s.past && s.cfg.enabled && Steady(m, z)
    ensures var p := Push(s, g);
            && Kept(p, false) && SameTouch(s, p) && p.past.log == s.past.log + [g]
            && Holding(p.past.log) == (g.HoldOn? || (!g.HoldOff? && Holding(s.past.log)))
            && ((g.HoldOn? ==> !Holding(s.past.log)) && (g.HoldOff? ==> Holding(s.past.log)) ==> Alternates(p.past.log))
            && ArrowsSince(p.past.log, s.past.since) == ArrowsSince(s.past.log, s.past.since) + One(g.Arrow?)
  {
    PushKept(false, s, g);
    Snoc(s.past.log, g, s.past.since);
  }

  lemma {:induction false} CancelSteady(m: int, z: Screen, left: nat)
    requires Steady(m, z) && left < z.fingers
    ensures Steady(m, Step(z, TouchCancel(left)))
  {
    var s := z.s;
    if s.touch.Some? {
      var s1 := Disarmed(s);
      KeptApart(false, s, s1);
      PushSteady(m, z, HoldOff, s1);
      var s2 := if s.touch.value.longFired then Push(s1, HoldOff) else s1;
      KeptApart(false, s2, s2.(touch := None));
      hide Kept, Push, Alternates, Holding, ArrowsSince;
      CancelledIs(s);
    }
  }

  lemma {:induction false} CancelledIs(s: State)
    requires s.touch.Some?
    ensures OnCancel(s) == (if s.touch.value.longFired then Push(Disarmed(s), HoldOff) else Disarmed(s)).(touch := None)
    ensures Disarmed(s).touch.Some? && !Disarmed(s).touch.value.armed
    ensures Disarmed(s) == s.(timers := Disarmed(s).timers, touch := Disarmed(s).touch)
    ensures s.timers == One(s.touch.value.armed) ==> Disarmed(s).timers == 0
  {
  }

  lemma {:induction false} LongPressSteady(m: int, z: Screen, own: bool)
    requires Steady(m, z) && Enabled(z, LongPressFires(own))
    ensures Steady(m, Step(z, LongPressFires(own)))
  {
    var s := z.s;
    var t := s.touch.value.(armed := false);
    var s1 := s.(timers := s.timers - 1, touch := Some(t));
    var s2 := s1.(touch := Some(t.(longFired := true)));
    KeptApart(false, s, s1);
    KeptApart(false, s, s2);
    PushSteady(m, z, HoldOn(ZoneOf(s.cfg, t.start.x)), s2);
    hide Kept, Push, Alternates, Holding, ArrowsSince;
  }

  /** The last finger lifts: a hold ends, and the sequence's arrows stay within max(1, maxSteps). */
  lemma {:induction false} UpSteady(m: int, z: Screen, p: Option<Point>, tap: TapOutcome, flick: Option<int>)
    requires Steady(m, z) && z.fingers > 0
    ensures Steady(m, Step(z, FingerUp(p, tap, flick)))
  {
    var s := z.s;
    if s.touch.Some? && z.fingers == 1 {
      var t, s1 := s.touch.value, Disarmed(s).(touch := None);
      KeptApart(false, s, s1);
      EndedSteady(m, z, t, s1, p, tap, flick);
      hide Ended, Steady;
    }
  }

  lemma {:induction false} EndedSteady(m: int, z: Screen, t: Sequence, s1: State, p: Option<Point>, tap: TapOutcome,
                                       flick: Option<int>)
    requires Steady(m, z) && z.s.touch == Some(t) && z.fingers == 1
    requires Kept(s1, false) && s1 == Disarmed(z.s).(touch := None)
    ensures Steady(m, Screen(Ended(s1, t, p, tap, flick), 0))
  {
    hide Kept, Push, Released, Alternates, Holding, ArrowsSince;
    if t.longFired {
      PushSteady(m, z, HoldOff, s1);
    } else if !t.abandoned {
      PushSteady(m, z, Seek, s1);
      PushSteady(m, z, Tap, s1);
      PushSteady(m, z, BackSwipe, s1);
      var at := if p.Some? then p.value else t.last;
      ReleasedSteady(m, z, t, s1, at.x - t.start.x, at.y - t.start.y, flick);
    }
  }

  lemma {:induction false} ReleasedSteady(m: int, z: Screen, t: Sequence, s1: State, dx: real, dy: real,
                                          flick: Option<int>)
    requires Steady(m, z) && z.s.touch == Some(t) && z.fingers == 1 && !t.longFired
    requires Kept(s1, false) && s1 == Disarmed(z.s).(touch := None)
    ensures Steady(m, Screen(Released(s1, t, dx, dy, flick), 0))
  {
    hide Kept, Released, Alternates, Holding, ArrowsSince, ArrowsAdded;
    var n := ReleasedKept(false, s1, t, dx, dy, flick);
    ArrowsHold(s1.past.log, Released(s1, t, dx, dy, flick).past.log, n, s1.past.since);
  }

  lemma {:induction false} CallSteady(m: int, z: Screen, l: Label)
    requires Steady(m, z) && Enabled(z, l) && IsSteady(m, l)
    requires l.Drain? || l.Poll? || l.PollTimeout? || l.Configure? || l.Enable? || l.TapFires?
    ensures Steady(m, Step(z, l))
  {
    StepKept(false, z, l);
    if l.TapFires? {
      PushSteady(m, z, Tap, z.s);
    }
    hide Kept, Alternates, Holding, ArrowsSince;
  }

  lemma {:induction false} StepSteady(m: int, z: Screen, l: Label)
    requires Steady(m, z) && Enabled(z, l) && IsSteady(m, l)
    ensures Steady(m, Step(z, l))
  {
    match l
    case FingerDown(p) => DownSteady(m, z, p);
    case FingersMove(p) => MoveSteady(m, z, p);
    case FingerUp(p, tap, flick) => UpSteady(m, z, p, tap, flick);
    case TouchCancel(left) => CancelSteady(m, z, left);
    case LongPressFires(own) => LongPressSteady(m, z, own);
    case _ => CallSteady(m, z, l);
  }

  lemma {:induction false} RunSteady(m: int, z: Screen, ls: seq<Label>)
    requires Steady(m, z) && Feasible(z, ls) && (forall l :: l in ls ==> IsSteady(m, l))
    ensures Steady(m, After(z, ls))
    decreases |ls|
  {
    hide Steady, Step, Enabled;
    if ls != [] {
      StepSteady(m, z, ls[0]);
      RunSteady(m, Step(z, ls[0]), ls[1..]);
    }
  }

  /** Over every stream of touches during which the router stays enabled, hold events strictly alternate,
      the last one is "off" once all fingers are up, and a touch sequence emits at most max(1, maxSteps)
      arrows: `m` is that bound, for the largest `maxSteps` in force where the stream changes it. */
  lemma {:induction false} HoldsAndArrows(cfg: Config, m: int, ls: seq<Label>)
    requires cfg.enabled && Feasible(Screen(Init(cfg), 0), ls)
    requires 1 <= m && cfg.maxSteps <= m && forall l :: l in ls ==> IsSteady(m, l)
    ensures var z := After(Screen(Init(cfg), 0), ls);
            && Alternates(z.s.past.log)
            && (z.fingers == 0 ==> !Holding(z.s.past.log))
            && ArrowsSince(z.s.past.log, z.s.past.since) <= m
  {
    RunSteady(m, Screen(Init(cfg), 0), ls);
  }
}
