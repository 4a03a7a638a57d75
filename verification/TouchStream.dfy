/** Whole touch streams: what the launcher can rely on about holds, arrows, the queue and the long poll. */
module TouchStream {
  import opened Options
  import opened Touch
  import opened TouchSafety

  // ---- the queue, over any stream and any calls ----

  /** `b`: the queue's bound is positive and has not been lowered below what is queued. */
  ghost predicate Kept(s: State, b: bool) {
    Accounted(s) && PollOk(s) && (b ==> Bounded(s))
  }

  /** Recognition state plays no part in the queue's. */
  lemma {:induction false} KeptApart(b: bool, s: State, z: State)
    requires Kept(s, b) && z.queue == s.queue && z.emitted == s.emitted && z.waiter == s.waiter
    requires z.past == s.past.(since := z.past.since) && z.dropped == s.dropped
    requires b ==> z.cfg.maxQueue == s.cfg.maxQueue
    ensures Kept(z, b)
  {
    assert Flow(z) == Flow(s);
  }

  lemma {:induction false} PushKept(b: bool, s: State, g: Gesture)
    requires Kept(s, b)
    ensures Kept(Push(s, g), b) && SameTouch(s, Push(s, g))
    ensures Push(s, g).past.log == if s.cfg.enabled then s.past.log + [g] else s.past.log
  {
    PushOk(s, g);
    PushPollOk(s, g);
    if b {
      PushBounded(s, g);
    }
  }

  /** From `log` to `log'` only arrows were added. */
  predicate ArrowsAdded(log: seq<Gesture>, log': seq<Gesture>, n: nat) {
    |log'| == |log| + n && log'[..|log|] == log && forall i :: |log| <= i < |log'| ==> log'[i].Arrow?
  }

  lemma {:induction false} ArrowFirst(log: seq<Gesture>, g: Gesture, log': seq<Gesture>, n: nat)
    requires g.Arrow? && ArrowsAdded(log + [g], log', n)
    ensures ArrowsAdded(log, log', n + 1)
  {
    assert log'[..|log|] == (log + [g])[..|log|];
    assert log'[|log|] == (log + [g])[|log|];
  }

  /** One round of the loop: the sequence with one arrow more, and that arrow. */
  lemma {:induction false} StepsOnce(s: State, axis: Axis) returns (s1: State, g: Gesture)
    requires s.touch.Some?
    ensures g.Arrow? && s1 == s.(touch := s1.touch) && s1.touch.Some?
    ensures var t, t1 := s.touch.value, s1.touch.value;
            t1 == t.(accum := t1.accum, emitted := t.emitted + 1)
    ensures if Earned(s.cfg, s.touch.value)
            then s.touch.value.emitted < s.cfg.maxSteps && Steps(s, axis) == Steps(Push(s1, g), axis)
            else Steps(s, axis) == s
  {
    hide Push;
    g := Arrow(ArrowFor(axis, s.touch.value.accum));
    s1 := s.(touch := Some(Stepped(s.cfg, s.touch.value)));
    PushConfig(s1, g);
  }

  lemma {:induction false} StepsKept(b: bool, s: State, axis: Axis)
    requires Kept(s, b) && s.touch.Some?
    ensures var z := Steps(s, axis);
            && Kept(z, b) && z.cfg == s.cfg && z.timers == s.timers && z.past.since == s.past.since && z.touch.Some?
            && z.touch.value == s.touch.value.(accum := z.touch.value.accum, emitted := z.touch.value.emitted)
            && s.touch.value.emitted <= z.touch.value.emitted
            && (z.touch.value.emitted <= s.cfg.maxSteps || z.touch.value.emitted == s.touch.value.emitted)
            && ArrowsAdded(s.past.log, z.past.log,
                 if s.cfg.enabled then z.touch.value.emitted - s.touch.value.emitted else 0)
    decreases s.cfg.maxSteps - s.touch.value.emitted
  {
    hide Kept, Push, Earned, ArrowsAdded, Steps;
    var t := s.touch.value;
    var s1, g := StepsOnce(s, axis);
    if Earned(s.cfg, t) {
      KeptApart(b, s, s1);
      PushKept(b, s1, g);
      StepsKept(b, Push(s1, g), axis);
      if s.cfg.enabled {
        var z := Steps(s, axis);
        ArrowFirst(s.past.log, g, z.past.log, z.touch.value.emitted - t.emitted - 1);
      }
    } else {
      NoArrows(s.past.log);
    }
    if !s.cfg.enabled {
      NoArrows(s.past.log);
    }
  }

  lemma {:induction false} NoArrows(log: seq<Gesture>)
    ensures ArrowsAdded(log, log, 0)
  {
  }

  lemma {:induction false} FlicksKept(b: bool, s: State, n: int, dir: Dir)
    requires Kept(s, b)
    ensures var z := Flicks(s, n, dir);
            && Kept(z, b) && SameTouch(s, z)
            && ArrowsAdded(s.past.log, z.past.log, if s.cfg.enabled && n > 0 then n else 0)
    decreases n
  {
    hide Kept, Push;
    if n > 0 {
      PushKept(b, s, Arrow(dir));
      FlicksKept(b, Push(s, Arrow(dir)), n - 1, dir);
    }
  }

  /** A swipe's release: at least one arrow in all, and no more than max(1, maxSteps). */
  lemma {:induction false} ReleasedKept(b: bool, s: State, t: Sequence, dx: real, dy: real, flick: Option<int>)
      returns (n: nat)
    requires Kept(s, b)
    ensures Kept(Released(s, t, dx, dy, flick), b) && SameTouch(s, Released(s, t, dx, dy, flick))
    ensures ArrowsAdded(s.past.log, Released(s, t, dx, dy, flick).past.log, if s.cfg.enabled then n else 0)
    ensures t.emitted >= 0 ==> 1 <= t.emitted + n
    ensures t.emitted >= 0 ==> n <= 0 || t.emitted + n <= 1 || t.emitted + n <= s.cfg.maxSteps
  {
    hide Kept, Push, ArrowFor;
    var axis := if t.axis.Some? then t.axis.value else if Abs(dx) > Abs(dy) then X else Y;
    var g := Arrow(ArrowFor(axis, if axis.X? then dx else dy));
    PushKept(b, s, g);
    var s1 := if t.emitted == 0 then Push(s, g) else s;
    n := if t.emitted == 0 then 1 else 0;
    if t.emitted + n < s.cfg.maxSteps && flick.Some? {
      var k := Min(Min(s.cfg.flickMaxArrows, flick.value), s.cfg.maxSteps - (t.emitted + n));
      var across := t.axis == Some(X);
      var dir := if across then (if dx < 0.0 then GoRight else GoLeft) else (if dy < 0.0 then GoDown else GoUp);
      FlicksKept(b, s1, k, dir);
      n := n + if k > 0 then k else 0;
    }
  }

  lemma {:induction false} MoveKept(b: bool, s: State, fingers: nat, p: Option<Point>)
    requires Kept(s, b)
    ensures Kept(OnMove(s, fingers, p), b)
  {
    hide Kept, Dragged, Steps;
    if s.touch.Some? && !s.touch.value.abandoned {
      if fingers > 1 {
        KeptApart(b, s, s.(touch := Some(s.touch.value.(abandoned := true))));
      } else if p.Some? {
        var t := Dragged(s.cfg, s.touch.value, p.value);
        var s1 := if t.moved && !s.touch.value.moved then Disarmed(s) else s;
        var s2 := s1.(touch := Some(t.(armed := s1.touch.value.armed)));
        KeptApart(b, s, s2);
        if t.axis.Some? {
          StepsKept(b, s2, t.axis.value);
        }
      }
    }
  }

  lemma {:induction false} EndKept(b: bool, s: State, fingers: nat, p: Option<Point>, tap: TapOutcome,
                                   flick: Option<int>)
    requires Kept(s, b)
    ensures Kept(OnEnd(s, fingers, p, tap, flick), b)
  {
    hide Kept, Push, Released;
    if s.touch.Some? && fingers == 0 {
      var s1 := Disarmed(s).(touch := None);
      KeptApart(b, s, s1);
      PushKept(b, s1, HoldOff);
      PushKept(b, s1, Seek);
      PushKept(b, s1, Tap);
      PushKept(b, s1, BackSwipe);
      var t := s.touch.value;
      var at := if p.Some? then p.value else t.last;
      var n := ReleasedKept(b, s1, t, at.x - t.start.x, at.y - t.start.y, flick);
    }
  }

  lemma {:induction false} CancelKept(b: bool, s: State)
    requires Kept(s, b)
    ensures Kept(OnCancel(s), b)
  {
    hide Kept, Push;
    if s.touch.Some? {
      var s1 := Disarmed(s);
      KeptApart(b, s, s1);
      PushKept(b, s1, HoldOff);
      var s2 := if s.touch.value.longFired then Push(s1, HoldOff) else s1;
      KeptApart(b, s2, s2.(touch := None));
    }
  }

  lemma {:induction false} LongPressKept(b: bool, s: State, own: bool)
    requires Kept(s, b) && s.timers > 0
    ensures Kept(LongPress(s, own), b)
  {
    hide Kept, Push;
    var s1 := s.(timers := s.timers - 1);
    KeptApart(b, s, s1);
    if s.touch.Some? {
      var t := s.touch.value.(armed := s.touch.value.armed && !own);
      KeptApart(b, s1, s1.(touch := Some(t)));
      KeptApart(b, s1, s1.(touch := Some(t.(longFired := true))));
      PushKept(b, s1.(touch := Some(t.(longFired := true))), HoldOn(ZoneOf(s.cfg, t.start.x)));
    }
  }

  lemma {:induction false} FlowApart(out: seq<Entry>, q: seq<Entry>)
    requires Increasing(out + q)
    ensures Increasing(out) && Numbers(out + q) == Numbers(out) + Numbers(q) && Numbers(out) !! Numbers(q)
    ensures forall e :: e in out ==> e in out + q
  {
    var flow := out + q;
    assert forall i :: 0 <= i < |out| ==> flow[i] == out[i];
    assert forall i :: 0 <= i < |q| ==> flow[|out| + i] == q[i];
    forall e, f | e in out && f in q ensures e.n != f.n {
      var i :| 0 <= i < |out| && out[i] == e;
      var j :| 0 <= j < |q| && q[j] == f;
      assert flow[i].n < flow[|out| + j].n;
    }
    forall e | e in out || e in q ensures e in flow {
    }
  }

  /** A disable clears what is queued. */
  lemma {:induction false} ClearKept(b: bool, s: State)
    requires Kept(s, b)
    ensures Kept(s.(queue := [], past := s.past.(cleared := s.past.cleared + Numbers(s.queue))), b)
  {
    var z := s.(queue := [], past := s.past.(cleared := s.past.cleared + Numbers(s.queue)));
    assert Flow(z) == s.past.out;
    FlowApart(s.past.out, s.queue);
    hide Increasing, Numbers;
    forall e | e in s.queue ensures e.n in Numbers(s.queue) {
      InNumbers(s.queue, e);
    }
    forall n: nat | n in Numbers(s.queue) ensures n < |s.past.log| {
      NumberOf(Flow(s), n);
    }
  }

  lemma {:induction false} NumberOf(q: seq<Entry>, n: nat)
    requires n in Numbers(q)
    ensures exists e :: e in q && e.n == n
  {
  }

  lemma {:induction false} EnableKept(b: bool, s: State, on: bool)
    requires Kept(s, b)
    ensures Kept(SetEnabled(s, on), b)
  {
    var s1 := s.(cfg := s.cfg.(enabled := on));
    KeptApart(b, s, s1);
    if on {
      WakeOk(s1);
      WakePollOk(s1);
    } else {
      var s2 := Disarmed(s1);
      KeptApart(b, s1, s2);
      ClearKept(b, s2);
      var s3 := s2.(queue := [], past := s2.past.(cleared := s2.past.cleared + Numbers(s2.queue)));
      KeptApart(b, s3, s3.(touch := None));
      WakeOk(s3.(touch := None));
      WakePollOk(s3.(touch := None));
    }
  }

  lemma {:induction false} CallKept(b: bool, s: State)
    requires Kept(s, b)
    ensures Kept(Drained(s), b) && Kept(Wait(s), b) && Kept(Wake(s), b)
  {
    DrainedOk(s);
    WaitPollOk(s);
    WakeOk(s);
    WakePollOk(s);
    var w := s.past.waits;
    assert Flow(Wait(s)) == if s.queue != [] || !s.configured then Flow(Drained(s)) else Flow(Wake(s));
  }

  /** No call lowers the queue's bound to nothing or below what is queued. */
  predicate KeepsBound(z: Screen, l: Label) {
    l.Configure? ==> 1 <= l.cfg.maxQueue && |z.s.queue| <= l.cfg.maxQueue
  }

  lemma {:induction false} StepKept(b: bool, z: Screen, l: Label)
    requires Kept(z.s, b) && Enabled(z, l) && (b ==> KeepsBound(z, l))
    ensures Kept(Step(z, l).s, b)
  {
    hide Push, OnMove, OnEnd, OnCancel, LongPress, SetEnabled, Wait, Wake, Drained, Accounted, PollOk;
    match l
    case FingerDown(p) => KeptApart(b, z.s, OnStart(z.s, z.fingers + 1, p));
    case FingersMove(p) => MoveKept(b, z.s, z.fingers, p);
    case FingerUp(p, tap, flick) => EndKept(b, z.s, z.fingers - 1, p, tap, flick);
    case TouchCancel(_) => CancelKept(b, z.s);
    case LongPressFires(own) => LongPressKept(b, z.s, own);
    case TapFires => PushKept(b, z.s, Tap);
    case Configure(cfg) => ConfigureKept(b, z.s, cfg);
    case Enable(on) => EnableKept(b, z.s, on);
    case _ => CallKept(b, z.s);
  }

  lemma {:induction false} ConfigureKept(b: bool, s: State, cfg: Config)
    requires Kept(s, b) && (b ==> 1 <= cfg.maxQueue && |s.queue| <= cfg.maxQueue)
    ensures Kept(s.(cfg := cfg, configured := true), b)
  {
    assert Flow(s.(cfg := cfg, configured := true)) == Flow(s);
  }

  predicate BoundKept(z: Screen, ls: seq<Label>)
    requires Feasible(z, ls)
    decreases |ls|
  {
    ls == [] || (KeepsBound(z, ls[0]) && BoundKept(Step(z, ls[0]), ls[1..]))
  }

  lemma {:induction false} RunKept(b: bool, z: Screen, ls: seq<Label>)
    requires Kept(z.s, b) && Feasible(z, ls) && (b ==> BoundKept(z, ls))
    ensures Kept(After(z, ls).s, b)
    decreases |ls|
  {
    hide Kept, Step, Enabled, KeepsBound;
    if ls != [] {
      StepKept(b, z, ls[0]);
      RunKept(b, Step(z, ls[0]), ls[1..]);
    }
  }

  /** Over any stream, with any calls: a pending wait means an empty queue, every wait is answered at most
      once, and every gesture has one fate. */
  lemma {:induction false} QueueHonest(cfg: Config, ls: seq<Label>)
    requires Feasible(Screen(Init(cfg), 0), ls)
    ensures Accounted(After(Screen(Init(cfg), 0), ls).s) && PollOk(After(Screen(Init(cfg), 0), ls).s)
  {
    RunKept(false, Screen(Init(cfg), 0), ls);
  }

  /** With a positive bound that is never lowered below what is queued, the queue never exceeds it, and the
      drop counter is the number of gestures lost. */
  lemma {:induction false} QueueBounded(cfg: Config, ls: seq<Label>)
    requires Feasible(Screen(Init(cfg), 0), ls)
    requires cfg.maxQueue >= 1 && BoundKept(Screen(Init(cfg), 0), ls)
    ensures Bounded(After(Screen(Init(cfg), 0), ls).s)
  {
    RunKept(true, Screen(Init(cfg), 0), ls);
  }

  // ---- the bound from any state on ----

  predicate Within(s: State) {
    1 <= s.cfg.maxQueue && |s.queue| <= s.cfg.maxQueue
  }

  predicate NoConfigure(ls: seq<Label>) {
    forall l :: l in ls ==> !l.Configure?
  }

  ghost predicate StaysWithin(z: Screen) {
    forall ls: seq<Label> :: Feasible(z, ls) && NoConfigure(ls) ==> |After(z, ls).s.queue| <= z.s.cfg.maxQueue
  }

  /** Whatever happened before, the queue stays within the bound in force, over every stream that leaves it,
      exactly when the bound is positive and the queue is within it now. */
  lemma {:induction false} QueueBoundedExactly(z: Screen)
    ensures StaysWithin(z) <==> Within(z.s)
  {
    hide Step, Enabled, Within;
    if Within(z.s) {
      forall ls: seq<Label> | Feasible(z, ls) && NoConfigure(ls) ensures |After(z, ls).s.queue| <= z.s.cfg.maxQueue {
        RunWithin(z, ls);
        WithinIs(After(z, ls).s);
      }
    } else {
      WithinIs(z.s);
      if z.s.cfg.maxQueue < 1 {
        TapOverflows(z);
      } else {
        assert Feasible(z, []) && NoConfigure([]) && After(z, []) == z;
      }
    }
  }

  lemma {:induction false} WithinIs(s: State)
    ensures Within(s) <==> 1 <= s.cfg.maxQueue && |s.queue| <= s.cfg.maxQueue
  {
  }

  lemma {:induction false} RunWithin(z: Screen, ls: seq<Label>)
    requires Feasible(z, ls) && NoConfigure(ls) && Within(z.s)
    ensures Within(After(z, ls).s) && After(z, ls).s.cfg.maxQueue == z.s.cfg.maxQueue
    decreases |ls|
  {
    hide Step, Enabled, Within;
    if ls != [] {
      assert ls[0] in ls;
      StepWithin(z, ls[0]);
      RunWithin(Step(z, ls[0]), ls[1..]);
    }
  }

  /** The bound is untouched, and met if it was. */
  predicate StillWithin(s: State, z: State) {
    z.cfg.maxQueue == s.cfg.maxQueue && (Within(s) ==> Within(z))
  }

  lemma {:induction false} StepWithin(z: Screen, l: Label)
    requires Enabled(z, l) && !l.Configure?
    ensures StillWithin(z.s, Step(z, l).s)
  {
    hide Push, OnMove, OnEnd, OnCancel, LongPress;
    match l
    case FingersMove(p) => MoveWithin(z.s, z.fingers, p);
    case FingerUp(p, tap, flick) => EndWithin(z.s, z.fingers - 1, p, tap, flick);
    case TouchCancel(_) => CancelWithin(z.s);
    case LongPressFires(own) => LongPressWithin(z.s, own);
    case TapFires => PushWithin(z.s, Tap);
    case _ =>
  }

  lemma {:induction false} MoveWithin(s: State, fingers: nat, p: Option<Point>)
    ensures StillWithin(s, OnMove(s, fingers, p))
  {
    hide Steps;
    forall s: State, axis: Axis | s.touch.Some? ensures StillWithin(s, Steps(s, axis)) {
      StepsWithin(s, axis);
    }
  }

  lemma {:induction false} EndWithin(s: State, fingers: nat, p: Option<Point>, tap: TapOutcome, flick: Option<int>)
    ensures StillWithin(s, OnEnd(s, fingers, p, tap, flick))
  {
    hide Push, Released;
    if s.touch.Some? && fingers == 0 {
      var t, s1 := s.touch.value, Disarmed(s).(touch := None);
      PushWithin(s1, HoldOff);
      PushWithin(s1, Seek);
      PushWithin(s1, Tap);
      PushWithin(s1, BackSwipe);
      var at := if p.Some? then p.value else t.last;
      ReleasedWithin(s1, t, at.x - t.start.x, at.y - t.start.y, flick);
    }
  }

  lemma {:induction false} ReleasedWithin(s: State, t: Sequence, dx: real, dy: real, flick: Option<int>)
    ensures StillWithin(s, Released(s, t, dx, dy, flick))
  {
    hide Push, Flicks;
    forall s: State, g: Gesture ensures StillWithin(s, Push(s, g)) {
      PushWithin(s, g);
    }
    forall s: State, n: int, dir: Dir ensures StillWithin(s, Flicks(s, n, dir)) {
      FlicksWithin(s, n, dir);
    }
  }

  lemma {:induction false} CancelWithin(s: State)
    ensures StillWithin(s, OnCancel(s))
  {
    hide Push;
    PushWithin(Disarmed(s), HoldOff);
  }

  lemma {:induction false} LongPressWithin(s: State, own: bool)
    requires s.timers > 0
    ensures StillWithin(s, LongPress(s, own))
  {
    hide Push;
    forall s: State, g: Gesture ensures StillWithin(s, Push(s, g)) {
      PushWithin(s, g);
    }
  }

  lemma {:induction false} PushWithin(s: State, g: Gesture)
    ensures StillWithin(s, Push(s, g))
  {
  }

  lemma {:induction false} PushConfig(s: State, g: Gesture)
    ensures Push(s, g).cfg == s.cfg && Push(s, g).touch == s.touch
  {
  }

  lemma {:induction false} StepsWithin(s: State, axis: Axis)
    requires s.touch.Some?
    ensures StillWithin(s, Steps(s, axis))
    decreases s.cfg.maxSteps - s.touch.value.emitted
  {
    hide Push, Steps, Earned;
    var s1, g := StepsOnce(s, axis);
    if Earned(s.cfg, s.touch.value) {
      PushConfig(s1, g);
      PushWithin(s1, g);
      StepsWithin(Push(s1, g), axis);
    }
  }

  lemma {:induction false} FlicksWithin(s: State, n: int, dir: Dir)
    ensures StillWithin(s, Flicks(s, n, dir))
    decreases n
  {
    hide Push;
    if n > 0 {
      PushWithin(s, Arrow(dir));
      FlicksWithin(Push(s, Arrow(dir)), n - 1, dir);
    }
  }

  /** With a bound that is not positive, one tap is too many. */
  lemma {:induction false} TapOverflows(z: Screen)
    requires z.s.cfg.maxQueue <= 0
    ensures var ls := [Enable(true), TapFires];
            Feasible(z, ls) && NoConfigure(ls) && |After(z, ls).s.queue| >= 1
  {
    var ls := [Enable(true), TapFires];
    var z1 := Step(z, Enable(true));
    assert ls[1..] == [TapFires] && ls[1..][1..] == [];
    assert After(z, ls) == Step(z1, TapFires);
  }

  lemma {:induction false} Prepend(z: Screen, l: Label, ls: seq<Label>)
    requires Enabled(z, l) && Feasible(Step(z, l), ls)
    ensures Feasible(z, [l] + ls) && After(z, [l] + ls) == After(Step(z, l), ls)
  {
    hide Enabled, Step;
    assert ([l] + ls)[1..] == ls;
  }

  /** A bound lowered below what is queued is exceeded: two taps, then a bound of one. */
  lemma {:induction false} LoweredOverflows(cfg: Config) returns (ls: seq<Label>)
    requires cfg.maxQueue >= 2
    ensures Feasible(Screen(Init(cfg), 0), ls)
    ensures var s := After(Screen(Init(cfg), 0), ls).s; |s.queue| == 2 && s.cfg.maxQueue == 1
  {
    var z0, lower := Screen(Init(cfg), 0), Configure(cfg.(maxQueue := 1));
    var z1 := Step(z0, Enable(true));
    var z2 := Step(z1, TapFires);
    var z3 := Step(z2, TapFires);
    Prepend(z3, lower, []);
    Prepend(z2, TapFires, [lower] + []);
    Prepend(z1, TapFires, [TapFires] + ([lower] + []));
    ls := [TapFires] + ([TapFires] + ([lower] + []));
    Prepend(z0, Enable(true), ls);
    ls := [Enable(true)] + ls;
  }
}
