/** What the gesture router keeps over every stream of touches and calls. */
module TouchSafety {
  import opened Options
  import opened Touch

  // ---- the queue and the long poll ----

  /** Everything handed over so far and everything still queued, in order. */
  function Flow(s: State): seq<Entry> {
    s.past.out + s.queue
  }

  predicate Increasing(q: seq<Entry>) {
    forall i, j :: 0 <= i < j < |q| ==> q[i].n < q[j].n
  }

  ghost predicate Fated(log: seq<Gesture>, flow: seq<Entry>, lost: set<nat>, cleared: set<nat>) {
    && Increasing(flow)
    && (forall e :: e in flow ==> e.n < |log| && log[e.n] == e.g)
    && (forall n: nat :: n in lost || n in cleared ==> n < |log|)
    && lost !! cleared && lost !! Numbers(flow) && cleared !! Numbers(flow)
    && (forall n: nat :: n < |log| ==> n in lost || n in cleared || n in Numbers(flow))
  }

  /** Each emitted gesture was handed over once and in order, or is queued, or was dropped, or was cleared by
      a disable, and these exclude each other. */
  ghost predicate Accounted(s: State) {
    Fated(s.past.log, Flow(s), s.past.lost, s.past.cleared) && s.emitted == |s.past.log|
  }

  /** A pending wait finds nothing queued; every wait made is pending or answered, and none twice. */
  predicate PollOk(s: State) {
    && (s.waiter.Some? ==> s.queue == [] && s.waiter.value < s.past.waits && s.waiter.value !in s.past.answered)
    && (forall i, j :: 0 <= i < j < |s.past.answered| ==> s.past.answered[i] != s.past.answered[j])
    && (forall w :: w in s.past.answered ==> w < s.past.waits)
    && (forall w: nat :: w < s.past.waits ==> w in s.past.answered || s.waiter == Some(w))
  }

  /** The fields the queue does not touch. */
  predicate SameTouch(s: State, z: State) {
    z.cfg == s.cfg && z.touch == s.touch && z.timers == s.timers && z.past.since == s.past.since
  }

  lemma {:induction false} DrainedOk(s: State)
    requires Accounted(s)
    ensures Accounted(Drained(s)) && SameTouch(s, Drained(s))
  {
    assert Flow(Drained(s)) == Flow(s);
  }

  lemma {:induction false} WakeOk(s: State)
    requires Accounted(s)
    ensures Accounted(Wake(s)) && SameTouch(s, Wake(s)) && Wake(s).past.log == s.past.log
  {
    if s.waiter.Some? {
      DrainedOk(s.(waiter := None));
      assert Flow(s.(waiter := None)) == Flow(s);
    }
  }

  function Rest(flow: seq<Entry>, k: nat): (rest: seq<Entry>)
    requires k < |flow|
    ensures |rest| == |flow| - 1
    ensures forall i :: 0 <= i < k ==> rest[i] == flow[i]
    ensures forall i :: k <= i < |rest| ==> rest[i] == flow[i + 1]
  {
    flow[..k] + flow[k + 1..]
  }

  lemma {:induction false} InRest(flow: seq<Entry>, k: nat, e: Entry)
    requires Increasing(flow) && k < |flow|
    ensures e in Rest(flow, k) <==> e in flow && e.n != flow[k].n
  {
    if e in Rest(flow, k) {
      var i :| 0 <= i < |flow| - 1 && Rest(flow, k)[i] == e;
      assert flow[if i < k then i else i + 1] == e;
    }
    if e in flow && e.n != flow[k].n {
      var i :| 0 <= i < |flow| && flow[i] == e;
      assert Rest(flow, k)[if i < k then i else i - 1] == e;
    }
  }

  /** Taking one entry out of the flow takes out its number and nothing else. */
  lemma {:induction false} TakeOut(flow: seq<Entry>, k: nat)
    requires Increasing(flow) && k < |flow|
    ensures Increasing(Rest(flow, k)) && Numbers(Rest(flow, k)) == Numbers(flow) - {flow[k].n}
    ensures forall e :: e in Rest(flow, k) ==> e in flow
  {
    forall e ensures e in Rest(flow, k) <==> e in flow && e.n != flow[k].n {
      InRest(flow, k, e);
    }
    hide Rest;
  }

  lemma {:induction false} DropFirst(log: seq<Gesture>, out: seq<Entry>, q: seq<Entry>, lost: set<nat>,
                                     cleared: set<nat>)
    requires Fated(log, out + q, lost, cleared) && q != []
    ensures Fated(log, out + q[1..], lost + {q[0].n}, cleared)
  {
    var flow := out + q;
    TakeOut(flow, |out|);
    assert out + q[1..] == Rest(flow, |out|);
    assert flow[|out|] == q[0] && q[0] in flow;
    hide Increasing, Numbers;
    assert q[0].n in Numbers(flow) by {
      InNumbers(flow, q[0]);
    }
  }

  lemma {:induction false} InNumbers(q: seq<Entry>, e: Entry)
    requires e in q
    ensures e.n in Numbers(q)
  {
  }

  lemma {:induction false} TrimmedOk(s: State)
    requires Accounted(s)
    ensures Accounted(Trimmed(s)) && SameTouch(s, Trimmed(s)) && Trimmed(s).past.log == s.past.log
  {
    if |s.queue| >= s.cfg.maxQueue && s.queue != [] {
      DropFirst(s.past.log, s.past.out, s.queue, s.past.lost, s.past.cleared);
    }
  }

  lemma {:induction false} AppendOne(log: seq<Gesture>, flow: seq<Entry>, lost: set<nat>, cleared: set<nat>, g: Gesture)
    requires Fated(log, flow, lost, cleared)
    ensures Fated(log + [g], flow + [Entry(|log|, g)], lost, cleared)
  {
    var more := flow + [Entry(|log|, g)];
    assert Numbers(more) == Numbers(flow) + {|log|} by {
      assert more[|flow|] == Entry(|log|, g);
      forall e | e in flow ensures e in more {
        var i :| 0 <= i < |flow| && flow[i] == e;
        assert more[i] == e;
      }
    }
  }

  lemma {:induction false} AppendedOk(s: State, g: Gesture)
    requires Accounted(s)
    ensures Accounted(Appended(s, g)) && SameTouch(s, Appended(s, g))
    ensures Appended(s, g).past.log == s.past.log + [g]
  {
    AppendOne(s.past.log, Flow(s), s.past.lost, s.past.cleared, g);
    assert Flow(Appended(s, g)) == Flow(s) + [Entry(|s.past.log|, g)];
  }

  /** A push adds one gesture to the history and leaves recognition alone. */
  lemma {:induction false} PushOk(s: State, g: Gesture)
    requires Accounted(s)
    ensures Accounted(Push(s, g)) && SameTouch(s, Push(s, g))
    ensures Push(s, g).past.log == if s.cfg.enabled then s.past.log + [g] else s.past.log
  {
    hide Accounted, SameTouch;
    if s.cfg.enabled {
      TrimmedOk(s);
      AppendedOk(Trimmed(s), g);
      WakeOk(Appended(Trimmed(s), g));
      SameThrice(s, Trimmed(s), Appended(Trimmed(s), g), Wake(Appended(Trimmed(s), g)));
    } else {
      SameThrice(s, s, s, s);
    }
  }

  lemma {:induction false} SameThrice(a: State, b: State, c: State, d: State)
    requires SameTouch(a, b) || b == a
    requires SameTouch(b, c) || c == b
    requires SameTouch(c, d) || d == c
    ensures SameTouch(a, d)
  {
  }

  lemma {:induction false} WakePollOk(s: State)
    requires PollOk(s) || (s.waiter.Some? && PollOk(s.(queue := [])))
    ensures PollOk(Wake(s)) && Wake(s).waiter.None?
  {
    var z := Wake(s);
    if s.waiter.Some? {
      var w := s.waiter.value;
      assert z.past.answered == s.past.answered + [w];
      forall v: nat | v < z.past.waits ensures v in z.past.answered {
        if v in s.past.answered {
          var i :| 0 <= i < |s.past.answered| && s.past.answered[i] == v;
          assert z.past.answered[i] == v;
        } else {
          assert z.past.answered[|s.past.answered|] == w;
        }
      }
    }
  }

  lemma {:induction false} PushPollOk(s: State, g: Gesture)
    requires PollOk(s)
    ensures PollOk(Push(s, g))
  {
    if s.cfg.enabled {
      var z := Appended(Trimmed(s), g);
      assert s.waiter.Some? ==> z.(queue := []).queue == s.queue;
      WakePollOk(z);
    }
  }

  lemma {:induction false} WaitPollOk(s: State)
    requires PollOk(s)
    ensures PollOk(Wait(s))
  {
    var w := s.past.waits;
    if s.queue != [] || !s.configured {
      Answers(s, w);
    } else {
      WakePollOk(s);
    }
  }

  /** A wait answered at once. */
  lemma {:induction false} Answers(s: State, w: nat)
    requires PollOk(s) && w == s.past.waits
    ensures var z := Drained(s); PollOk(z.(past := z.past.(waits := w + 1, answered := z.past.answered + [w])))
  {
    var was, all := s.past.answered, s.past.answered + [w];
    assert forall v :: v in all ==> v in was || v == w;
    forall v: nat | v < w + 1 ensures v in all || s.waiter == Some(v) {
      if v == w {
        assert all[|was|] == w;
      } else if v in was {
        var i :| 0 <= i < |was| && was[i] == v;
        assert all[i] == v;
      }
    }
    forall i, j | 0 <= i < j < |all| ensures all[i] != all[j] {
      assert all[i] == was[i] && was[i] in was;
    }
  }

  /** The queue is within its bound, and the drop counter counts exactly the gestures lost to it. */
  predicate Bounded(s: State) {
    1 <= s.cfg.maxQueue && |s.queue| <= s.cfg.maxQueue && s.dropped == |s.past.lost|
  }

  lemma {:induction false} PushBounded(s: State, g: Gesture)
    requires Bounded(s) && Accounted(s)
    ensures Bounded(Push(s, g))
  {
    if s.cfg.enabled && |s.queue| >= s.cfg.maxQueue {
      var e := s.queue[0];
      assert Flow(s)[|s.past.out|] == e;
      assert e in Flow(s) && e.n in Numbers(Flow(s));
    }
  }

  /** One push on an enabled router nobody waits on leaves the queue within its bound exactly when the bound
      is positive and the queue was within it before. */
  lemma {:induction false} PushBound(s: State, g: Gesture)
    requires s.cfg.enabled && s.waiter.None?
    ensures |Push(s, g).queue| <= s.cfg.maxQueue <==> 1 <= s.cfg.maxQueue && |s.queue| <= s.cfg.maxQueue
  {
  }
}
