/** The router object of config/scripts/touch_gestures.js, whose handlers change its variables in place. */
module TouchRouter {
  import opened Options
  import opened Touch

  class Router {
    var cfg: Config
    var configured: bool
    var queue: seq<Entry>
    var emitted: nat
    var dropped: nat
    var touch: Option<Sequence>
    var timers: nat
    var waiter: Option<nat>
    var waits: nat
    ghost var past: History

    ghost function View(): State
      reads this
    {
      State(cfg, configured, queue, emitted, dropped, touch, timers, waiter, past)
    }

    /** `stats.emitted` numbers the gestures, `waits` the waits. */
    ghost predicate Valid()
      reads this
    {
      emitted == |past.log| && waits == past.waits
    }

    constructor (cfg: Config)
      ensures Valid() && View() == Init(cfg)
    {
      this.cfg, configured, queue, emitted, dropped, touch, timers, waiter := cfg, false, [], 0, 0, None, 0, None;
      waits := 0;
      past := History([], [], {}, {}, 0, [], 0);
    }

    method Drain() returns (out: seq<Entry>)
      modifies this`queue, this`past
      ensures out == old(queue) && View() == Drained(old(View()))
    {
      out := queue;
      queue := [];
      past := past.(out := past.out + out);
    }

    method WakeUp()
      modifies this`queue, this`past, this`waiter
      ensures View() == Wake(old(View()))
    {
      if waiter.None? {
        return;
      }
      ghost var w := waiter.value;
      waiter := None;
      var out := Drain();
      past := past.(answered := past.answered + [w]);
    }

    method Emit(g: Gesture)
      requires Valid()
      modifies this`queue, this`past, this`waiter, this`emitted, this`dropped
      ensures Valid() && View() == Push(old(View()), g)
    {
      if !cfg.enabled {
        return;
      }
      if |queue| >= cfg.maxQueue {
        if queue != [] {
          past := past.(lost := past.lost + {queue[0].n});
          queue := queue[1..];
        }
        dropped := dropped + 1;
      }
      assert View() == Trimmed(old(View()));
      queue := queue + [Entry(emitted, g)];
      emitted := emitted + 1;
      past := past.(log := past.log + [g]);
      assert View() == Appended(Trimmed(old(View())), g);
      WakeUp();
    }

    /** `wait`: the answer when there is one at once. */
    method Poll() returns (answer: Option<seq<Entry>>)
      requires Valid()
      modifies this`queue, this`past, this`waiter, this`waits
      ensures Valid() && View() == Wait(old(View()))
      ensures answer == if old(queue) != [] || !configured then Some(old(queue)) else None
    {
      var w := waits;
      waits := w + 1;
      if queue != [] || !configured {
        var out := Drain();
        past := past.(waits := w + 1, answered := past.answered + [w]);
        return Some(out);
      }
      WakeUp();
      waiter := Some(w);
      past := past.(waits := w + 1);
      answer := None;
    }

    method Configure(cfg: Config)
      modifies this`cfg, this`configured
      ensures View() == old(View()).(cfg := cfg, configured := true)
    {
      this.cfg, configured := cfg, true;
    }

    method ClearTimer()
      modifies this`touch, this`timers
      ensures View() == Disarmed(old(View()))
    {
      if touch.Some? && touch.value.armed {
        timers := if timers > 0 then timers - 1 else 0;
        touch := Some(touch.value.(armed := false));
      }
    }

    method Enable(on: bool)
      requires Valid()
      modifies this
      ensures Valid() && View() == SetEnabled(old(View()), on)
    {
      cfg := cfg.(enabled := on);
      if !on {
        past := past.(cleared := past.cleared + set e | e in queue :: e.n);
        queue := [];
        ClearTimer();
        touch := None;
      }
      WakeUp();
    }

    method Start(fingers: nat, p: Option<Point>)
      modifies this`touch, this`timers, this`past
      ensures View() == OnStart(old(View()), fingers, p)
    {
      if fingers > 1 {
        if touch.Some? {
          touch := Some(touch.value.(abandoned := true));
        }
        return;
      }
      if p.None? {
        return;
      }
      var at := p.value;
      touch := Some(Sequence(at, at, 0.0, None, false, false, at.x <= cfg.edgePx, false, 0, true));
      timers := timers + 1;
      past := past.(since := |past.log|);
    }

    method LongPressed(own: bool)
      requires Valid() && timers > 0
      modifies this
      ensures Valid() && View() == LongPress(old(View()), own)
    {
      timers := timers - 1;
      if touch.None? {
        return;
      }
      var t := touch.value.(armed := touch.value.armed && !own);
      touch := Some(t);
      if !t.moved && !t.abandoned {
        touch := Some(t.(longFired := true));
        Emit(HoldOn(ZoneOf(cfg, t.start.x)));
      }
    }

    /** The arrows a drag has earned. */
    method EmitSteps(axis: Axis)
      requires Valid() && touch.Some?
      modifies this
      ensures Valid() && View() == Steps(old(View()), axis) && touch.Some?
    {
      while Earned(cfg, touch.value)
        invariant Valid() && touch.Some? && Steps(View(), axis) == Steps(old(View()), axis)
        decreases cfg.maxSteps - touch.value.emitted
      {
        hide Push, ArrowFor;
        var dir := ArrowFor(axis, touch.value.accum);
        ghost var before := View();
        touch := Some(Stepped(cfg, touch.value));
        PushKeepsTouch(View(), Arrow(dir));
        Emit(Arrow(dir));
      }
    }

    method Move(fingers: nat, p: Option<Point>)
      requires Valid()
      modifies this
      ensures Valid() && View() == OnMove(old(View()), fingers, p)
    {
      if touch.None? || touch.value.abandoned {
        return;
      }
      if fingers > 1 {
        touch := Some(touch.value.(abandoned := true));
        return;
      }
      if p.None? {
        return;
      }
      var t := Dragged(cfg, touch.value, p.value);
      if t.moved && !touch.value.moved {
        ClearTimer();
      }
      touch := Some(t.(armed := touch.value.armed));
      if !t.moved || t.axis.None? || (t.edge && t.axis.value.X?) {
        return;
      }
      EmitSteps(t.axis.value);
    }

    method EmitFlicks(n: int, dir: Dir)
      requires Valid()
      modifies this`queue, this`past, this`waiter, this`emitted, this`dropped
      ensures Valid() && View() == Flicks(old(View()), n, dir)
    {
      hide Push;
      var left := n;
      while left > 0
        invariant Valid() && Flicks(View(), left, dir) == Flicks(old(View()), n, dir)
      {
        Emit(Arrow(dir));
        left := left - 1;
      }
    }

    method Release(t: Sequence, dx: real, dy: real, flick: Option<int>)
      requires Valid()
      modifies this`queue, this`past, this`waiter, this`emitted, this`dropped
      ensures Valid() && View() == Released(old(View()), t, dx, dy, flick)
    {
      hide Push, Flicks, ArrowFor;
      var emittedNow := t.emitted;
      if emittedNow == 0 {
        var axis := if t.axis.Some? then t.axis.value else if Abs(dx) > Abs(dy) then X else Y;
        Emit(Arrow(ArrowFor(axis, if axis.X? then dx else dy)));
        emittedNow := 1;
      }
      if emittedNow >= cfg.maxSteps || flick.None? {
        return;
      }
      var n := Min(Min(cfg.flickMaxArrows, flick.value), cfg.maxSteps - emittedNow);
      var across := t.axis == Some(X);
      EmitFlicks(n, if across then (if dx < 0.0 then GoRight else GoLeft) else (if dy < 0.0 then GoDown else GoUp));
    }

    method End(fingers: nat, p: Option<Point>, tap: TapOutcome, flick: Option<int>)
      requires Valid()
      modifies this
      ensures Valid() && View() == OnEnd(old(View()), fingers, p, tap, flick)
    {
      hide Push, Released;
      if touch.None? || fingers > 0 {
        return;
      }
      var t := touch.value;
      ClearTimer();
      touch := None;
      assert View() == Disarmed(old(View())).(touch := None);
      if t.abandoned {
        if t.longFired {
          Emit(HoldOff);
        }
        return;
      }
      var at := if p.Some? then p.value else t.last;
      var dx, dy := at.x - t.start.x, at.y - t.start.y;
      if t.longFired {
        Emit(HoldOff);
      } else if !t.moved {
        match tap {
          case TooLong =>
          case Paired(seek) => Emit(if seek then Seek else Tap);
          case Single =>
        }
      } else if t.edge && dx >= cfg.edgeMinPx && Abs(dx) > Abs(dy) {
        Emit(BackSwipe);
      } else if !(t.edge && t.axis == Some(X)) {
        Release(t, dx, dy, flick);
      }
    }

    method Cancel()
      requires Valid()
      modifies this
      ensures Valid() && View() == OnCancel(old(View()))
    {
      if touch.None? {
        return;
      }
      var longFired := touch.value.longFired;
      ClearTimer();
      if longFired {
        Emit(HoldOff);
      }
      touch := None;
    }
  }

  lemma {:induction false} PushKeepsTouch(s: State, g: Gesture)
    ensures Push(s, g).touch == s.touch && Push(s, g).cfg == s.cfg
  {
  }
}
