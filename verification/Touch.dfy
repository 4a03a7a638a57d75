/** The touch gesture router of config/scripts/touch_gestures.js: recognition of holds and swipes, the bounded
    queue and the launcher's long poll.

    Coordinates are reals. The long-press and long-poll timers fire at any moment after they are armed and
    before they are cleared; a single tap may be committed at any moment. Whether a short touch pairs into a
    double tap, and what a release velocity rounds to, come from outside. */
module Touch {
  import opened Options

  datatype Axis = X | Y
  datatype Dir = GoLeft | GoRight | GoUp | GoDown
  datatype Zone = LeftZone | CenterZone | RightZone

  datatype Gesture = Arrow(dir: Dir) | BackSwipe | Tap | Seek | HoldOn(zone: Zone) | HoldOff

  datatype Config = Config(
    enabled: bool, stepPx: real, maxSteps: int, tapSlopPx: real, edgePx: real, edgeMinPx: real,
    flickMaxArrows: int, maxQueue: int, width: real)

  datatype Point = Point(x: real, y: real)

  /** One touch sequence; `armed` while its long-press callback is pending. */
  datatype Sequence = Sequence(
    start: Point, last: Point, accum: real, axis: Option<Axis>, moved: bool, abandoned: bool, edge: bool,
    longFired: bool, emitted: int, armed: bool)

  /** A queued gesture with its place in the history. */
  datatype Entry = Entry(n: nat, g: Gesture)

  /** Every gesture emitted, those handed to the launcher, those lost to overflow and to a disable, the waits
      made and answered, and how many gestures there were when the latest sequence began. */
  datatype History = History(
    log: seq<Gesture>, out: seq<Entry>, lost: set<nat>, cleared: set<nat>, waits: nat, answered: seq<nat>, since: nat)

  /** `timers` counts pending long-press callbacks; `waiter` is the number of the pending wait. */
  datatype State = State(
    cfg: Config, configured: bool, queue: seq<Entry>, emitted: nat, dropped: nat, touch: Option<Sequence>,
    timers: nat, waiter: Option<nat>, past: History)

  function Init(cfg: Config): State {
    State(cfg, false, [], 0, 0, None, 0, None, History([], [], {}, {}, 0, [], 0))
  }

  // ---- the queue and the long poll ----

  function Numbers(q: seq<Entry>): set<nat> {
    set e | e in q :: e.n
  }

  /** `drain` */
  function Drained(s: State): State {
    s.(queue := [], past := s.past.(out := s.past.out + s.queue))
  }

  function Wake(s: State): State {
    match s.waiter
    case None => s
    case Some(w) =>
      var z := Drained(s.(waiter := None));
      z.(past := z.past.(answered := z.past.answered + [w]))
  }

  /** Room for one more: a full queue loses its oldest gesture. */
  function Trimmed(s: State): State {
    if |s.queue| < s.cfg.maxQueue then s
    else
      s.(queue := if s.queue == [] then [] else s.queue[1..], dropped := s.dropped + 1,
         past := s.past.(lost := s.past.lost + (if s.queue == [] then {} else {s.queue[0].n})))
  }

  function Appended(s: State, g: Gesture): State {
    s.(queue := s.queue + [Entry(|s.past.log|, g)], emitted := s.emitted + 1,
       past := s.past.(log := s.past.log + [g]))
  }

  function Push(s: State, g: Gesture): State {
    if !s.cfg.enabled then s else Wake(Appended(Trimmed(s), g))
  }

  /** `wait`: answered at once when something is queued or the page is unconfigured; otherwise it takes the
      place of an earlier wait, which is answered now. */
  function Wait(s: State): State {
    var w := s.past.waits;
    if s.queue != [] || !s.configured then
      var z := Drained(s);
      z.(past := z.past.(waits := w + 1, answered := z.past.answered + [w]))
    else
      var z := Wake(s);
      z.(waiter := Some(w), past := z.past.(waits := w + 1))
  }

  function SetEnabled(s: State, on: bool): State {
    var s1 := s.(cfg := s.cfg.(enabled := on));
    if on then Wake(s1)
    else
      Wake(Disarmed(s1).(queue := [], touch := None,
                         past := s.past.(cleared := s.past.cleared + Numbers(s.queue))))
  }

  // ---- recognition ----

  function ZoneOf(cfg: Config, x: real): Zone {
    if x < cfg.width / 3.0 then LeftZone else if x > cfg.width * 2.0 / 3.0 then RightZone else CenterZone
  }

  /** Content follows the finger. */
  function ArrowFor(axis: Axis, delta: real): Dir {
    if axis.X? then (if delta > 0.0 then GoLeft else GoRight) else (if delta > 0.0 then GoUp else GoDown)
  }

  function Abs(r: real): real {
    if r < 0.0 then -r else r
  }

  /** The sequence's long-press callback is cancelled. */
  function Disarmed(s: State): State {
    if s.touch.Some? && s.touch.value.armed then
      s.(timers := if s.timers > 0 then s.timers - 1 else 0, touch := Some(s.touch.value.(armed := false)))
    else s
  }

  function OnStart(s: State, fingers: nat, p: Option<Point>): State {
    if fingers > 1 then
      if s.touch.Some? then s.(touch := Some(s.touch.value.(abandoned := true))) else s
    else if p.None? then s
    else
      var at := p.value;
      s.(touch := Some(Sequence(at, at, 0.0, None, false, false, at.x <= s.cfg.edgePx, false, 0, true)),
         timers := s.timers + 1, past := s.past.(since := |s.past.log|))
  }

  /** A long-press callback fires: it acts on whatever sequence is current. `own` when it is that one's. */
  function LongPress(s: State, own: bool): State
    requires s.timers > 0
  {
    var s1 := s.(timers := s.timers - 1);
    if s.touch.None? then s1
    else
      var t := s.touch.value.(armed := s.touch.value.armed && !own);
      if !t.moved && !t.abandoned then
        Push(s1.(touch := Some(t.(longFired := true))), HoldOn(ZoneOf(s.cfg, t.start.x)))
      else s1.(touch := Some(t))
  }

  predicate Earned(cfg: Config, t: Sequence) {
    Abs(t.accum) >= cfg.stepPx && t.emitted < cfg.maxSteps
  }

  function Stepped(cfg: Config, t: Sequence): Sequence {
    t.(accum := t.accum - (if t.accum > 0.0 then cfg.stepPx else -cfg.stepPx), emitted := t.emitted + 1)
  }

  /** The moves a drag has earned, one per `stepPx`, up to `maxSteps`. */
  function Steps(s: State, axis: Axis): State
    requires s.touch.Some?
    decreases s.cfg.maxSteps - s.touch.value.emitted
  {
    var t := s.touch.value;
    if Earned(s.cfg, t) then
      Steps(Push(s.(touch := Some(Stepped(s.cfg, t))), Arrow(ArrowFor(axis, t.accum))), axis)
    else s
  }

  /** The sequence after a move to `p`, before any arrow. */
  function Dragged(cfg: Config, t: Sequence, p: Point): Sequence {
    var totalX, totalY := Abs(p.x - t.start.x), Abs(p.y - t.start.y);
    var moved := t.moved || totalX > cfg.tapSlopPx || totalY > cfg.tapSlopPx;
    if !moved then t.(last := p)
    else
      var axis := if t.axis.Some? then t.axis.value else if totalX > totalY then X else Y;
      var along := if axis.X? then p.x - t.last.x else p.y - t.last.y;
      t.(last := p, moved := true, axis := Some(axis),
         accum := if t.edge && axis.X? then t.accum else t.accum + along)
  }

  function OnMove(s: State, fingers: nat, p: Option<Point>): State {
    if s.touch.None? || s.touch.value.abandoned then s
    else if fingers > 1 then s.(touch := Some(s.touch.value.(abandoned := true)))
    else if p.None? then s
    else
      var t := Dragged(s.cfg, s.touch.value, p.value);
      var s1 := if t.moved && !s.touch.value.moved then Disarmed(s) else s;
      var s2 := s1.(touch := Some(t.(armed := s1.touch.value.armed)));
      if !t.moved || t.axis.None? || (t.edge && t.axis.value.X?) then s2 else Steps(s2, t.axis.value)
  }

  /** What a short touch comes to: too long for a tap, the second of a pair, or one that waits for its pair. */
  datatype TapOutcome = TooLong | Paired(seek: bool) | Single

  function Flicks(s: State, n: int, dir: Dir): State
    decreases n
  {
    if n <= 0 then s else Flicks(Push(s, Arrow(dir)), n - 1, dir)
  }

  function Min(a: int, b: int): int {
    if a < b then a else b
  }

  /** A swipe ends: at least one move, then the momentum of a fast release (`flick`, in arrows). */
  function Released(s: State, t: Sequence, dx: real, dy: real, flick: Option<int>): State {
    var axis := if t.axis.Some? then t.axis.value else if Abs(dx) > Abs(dy) then X else Y;
    var s1 := if t.emitted == 0 then Push(s, Arrow(ArrowFor(axis, if axis.X? then dx else dy))) else s;
    var emitted := if t.emitted == 0 then 1 else t.emitted;
    if emitted >= s.cfg.maxSteps || flick.None? then s1
    else
      var n := Min(Min(s.cfg.flickMaxArrows, flick.value), s.cfg.maxSteps - emitted);
      var across := t.axis == Some(X);
      Flicks(s1, n, if across then (if dx < 0.0 then GoRight else GoLeft) else (if dy < 0.0 then GoDown else GoUp))
  }

  /** The last finger is up: the sequence `t` is over. */
  function Ended(s: State, t: Sequence, p: Option<Point>, tap: TapOutcome, flick: Option<int>): State {
    var at := if p.Some? then p.value else t.last;
    var dx, dy := at.x - t.start.x, at.y - t.start.y;
    if t.longFired then Push(s, HoldOff)
    else if t.abandoned then s
    else if !t.moved then
      match tap
      case TooLong => s
      case Paired(seek) => Push(s, if seek then Seek else Tap)
      case Single => s
    else if t.edge && dx >= s.cfg.edgeMinPx && Abs(dx) > Abs(dy) then Push(s, BackSwipe)
    else if t.edge && t.axis == Some(X) then s
    else Released(s, t, dx, dy, flick)
  }

  function OnEnd(s: State, fingers: nat, p: Option<Point>, tap: TapOutcome, flick: Option<int>): State {
    if s.touch.None? || fingers > 0 then s
    else Ended(Disarmed(s).(touch := None), s.touch.value, p, tap, flick)
  }

  function OnCancel(s: State): State {
    if s.touch.None? then s
    else
      var s1 := Disarmed(s);
      (if s.touch.value.longFired then Push(s1, HoldOff) else s1).(touch := None)
  }

  // ---- runs ----

  /** Touches as a screen reports them, the two timers, and the launcher's calls. */
  datatype Label =
    | FingerDown(p: Option<Point>)
    | FingersMove(p: Option<Point>)
    | FingerUp(p: Option<Point>, tap: TapOutcome, flick: Option<int>)
    | TouchCancel(left: nat)
    | LongPressFires(own: bool)
    | TapFires
    | Drain
    | Poll
    | PollTimeout
    | Configure(cfg: Config)
    | Enable(on: bool)

  /** The router and the number of fingers down. */
  datatype Screen = Screen(s: State, fingers: nat)

  predicate Enabled(z: Screen, l: Label) {
    match l
    case FingerDown(_) => true
    case FingersMove(_) => z.fingers > 0
    case FingerUp(_, _, _) => z.fingers > 0
    case TouchCancel(left) => left < z.fingers
    case LongPressFires(own) =>
      if own then z.s.timers > 0 && z.s.touch.Some? && z.s.touch.value.armed
      else z.s.timers > (if z.s.touch.Some? && z.s.touch.value.armed then 1 else 0)
    case TapFires => true
    case Drain => true
    case Poll => true
    case PollTimeout => z.s.waiter.Some?
    case Configure(_) => true
    case Enable(_) => true
  }

  /** A disabled router ignores touches. */
  function Handled(s: State, after: State): State {
    if s.cfg.enabled then after else s
  }

  function Step(z: Screen, l: Label): Screen
    requires Enabled(z, l)
  {
    var s := z.s;
    match l
    case FingerDown(p) => Screen(Handled(s, OnStart(s, z.fingers + 1, p)), z.fingers + 1)
    case FingersMove(p) => z.(s := Handled(s, OnMove(s, z.fingers, p)))
    case FingerUp(p, tap, flick) => Screen(Handled(s, OnEnd(s, z.fingers - 1, p, tap, flick)), z.fingers - 1)
    case TouchCancel(left) => Screen(Handled(s, OnCancel(s)), left)
    case LongPressFires(own) => z.(s := LongPress(s, own))
    case TapFires => z.(s := Push(s, Tap))
    case Drain => z.(s := Drained(s))
    case Poll => z.(s := Wait(s))
    case PollTimeout => z.(s := Wake(s))
    case Configure(cfg) => z.(s := s.(cfg := cfg, configured := true))
    case Enable(on) => z.(s := SetEnabled(s, on))
  }

  predicate Feasible(z: Screen, ls: seq<Label>)
    decreases |ls|
  {
    ls == [] || (Enabled(z, ls[0]) && Feasible(Step(z, ls[0]), ls[1..]))
  }

  function After(z: Screen, ls: seq<Label>): Screen
    requires Feasible(z, ls)
    decreases |ls|
  {
    if ls == [] then z else After(Step(z, ls[0]), ls[1..])
  }
}
