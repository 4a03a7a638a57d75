/** The guarantees of self-update over all runs of the three threads and the portal. */
module UpdatesRuns {
  import opened Options
  import opened Updates
  import opened UpdatesSafety

  ghost predicate Inv(cfg: Config, s: State) {
    && (!cfg.auto ==> ConsentOk(s))
    && TabOk(s) && LoopOk(s) && LinkOk(s)
    && (forall m: nat :: FlightOk(s, m))
  }

  lemma {:induction false} InitHolds(cfg: Config)
    ensures Inv(cfg, Init())
  {
  }

  lemma {:induction false} LoopStepKeeps(cfg: Config, s: State, a: LoopAction)
    requires Inv(cfg, s) && CanLoop(s, a)
    ensures Inv(cfg, DoLoop(cfg, s, a))
  {
    hide DoLoop, CanLoop, ConsentOk, TabOk, LoopOk, LinkOk, FlightOk;
    if !cfg.auto {
      LoopKeepsConsent(cfg, s, a);
    }
    LoopKeepsTab(cfg, s, a);
    LoopKeepsLoop(cfg, s, a);
    LoopKeepsLink(cfg, s, a);
    forall m: nat ensures FlightOk(DoLoop(cfg, s, a), m) {
      LoopKeepsFlight(cfg, s, a, m);
    }
  }

  /** The input thread touches nothing of the loop's but `confirm_requested_`. */
  lemma {:induction false} InputFrame(cfg: Config, s: State, a: InputAction)
    requires CanInput(s.prompt, a)
    ensures var z := DoInput(cfg, s, a);
            z.portal == s.portal && z.loop == s.loop.(confirm := z.loop.confirm) && z.now == s.now &&
            z.past.events == s.past.events
  {
  }

  lemma {:induction false} InputStepKeeps(cfg: Config, s: State, a: InputAction)
    requires Inv(cfg, s) && CanInput(s.prompt, a)
    ensures Inv(cfg, DoInput(cfg, s, a))
  {
    InputFrame(cfg, s, a);
    InputKeepsTab(cfg, s, a);
    if !cfg.auto {
      InputKeepsConsent(cfg, s, a);
    }
    hide DoInput, CanInput, ConsentOk, TabOk;
    forall m: nat ensures FlightOk(DoInput(cfg, s, a), m) {
      assert FlightOk(s, m);
    }
  }

  lemma {:induction false} StepKeeps(cfg: Config, s: State, l: Label)
    requires Inv(cfg, s) && Enabled(s, l)
    ensures Inv(cfg, Step(cfg, s, l))
  {
    match l
    case InputStep(a) => InputStepKeeps(cfg, s, a);
    case LoopStep(a) => LoopStepKeeps(cfg, s, a);
    case _ =>
      forall m: nat ensures FlightOk(Step(cfg, s, l), m) {
        assert FlightOk(s, m);
      }
  }

  lemma {:induction false} RunKeeps(cfg: Config, s: State, ls: seq<Label>)
    requires Inv(cfg, s) && Feasible(cfg, s, ls)
    ensures Inv(cfg, After(cfg, s, ls))
    decreases |ls|
  {
    hide Inv;
    if ls != [] {
      StepKeeps(cfg, s, ls[0]);
      RunKeeps(cfg, Step(cfg, s, ls[0]), ls[1..]);
    }
  }

  /** `s` can be reached from a launch with `cfg`. */
  ghost predicate Reached(cfg: Config, s: State) {
    exists ls: seq<Label> :: Feasible(cfg, Init(), ls) && After(cfg, Init(), ls) == s
  }

  lemma {:induction false} ReachedHolds(cfg: Config, s: State)
    requires Reached(cfg, s)
    ensures Inv(cfg, s)
  {
    hide Inv;
    InitHolds(cfg);
    var ls: seq<Label> :| Feasible(cfg, Init(), ls) && After(cfg, Init(), ls) == s;
    RunKeeps(cfg, Init(), ls);
  }

  // ---- consent ----

  /** In notify mode the portal's `Update()` is never called more often than the user pressed Update now
      or Check for updates. */
  lemma {:induction false} NoDeployWithoutConsent(cfg: Config, s: State)
    requires Reached(cfg, s) && !cfg.auto
    ensures s.past.updates <= s.past.presses
  {
    ReachedHolds(cfg, s);
  }

  // ---- deploys in flight ----

  /** At most one deploy is in flight on a monitor, plus one for each accepted call whose reply was lost. */
  lemma {:induction false} OneInFlight(cfg: Config, s: State, m: nat)
    requires Reached(cfg, s)
    ensures Count(s.portal.inFlight, m) <= Count(s.portal.lost, m) + 1
  {
    ReachedHolds(cfg, s);
    assert FlightOk(s, m);
  }

  // ---- the Updates tab ----

  /** Between callbacks, `Checking` has a probe running or waiting to be read. */
  lemma {:induction false} CheckingIsAnswered(cfg: Config, s: State)
    requires Reached(cfg, s) && s.prompt.phase.Checking? && s.prompt.pc.Free?
    ensures !s.prompt.probe.NoProbe?
  {
    ReachedHolds(cfg, s);
  }

  /** Reading it leaves `Checking`, or leaves the input thread nothing to do but ask the portal. */
  lemma {:induction false} ProbeAnswers(s: State, a: InputAction)
    requires s.prompt.pc.Settling? && CanInput(DoSettle(s).prompt, a)
    ensures DoSettle(s).prompt.phase.Checking? ==> a.Request? && DoRequest(DoSettle(s)).prompt.phase.Requested?
  {
  }

  predicate TickOnly(ls: seq<Label>) {
    forall l :: l in ls ==> l.InputStep? && !l.i.PressUpdate? && !l.i.PressCheck?
  }

  lemma {:induction false} SettleAnswers(cfg: Config, s: State) returns (ls: seq<Label>)
    requires s.prompt.pc.Settling?
    ensures TickOnly(ls) && Feasible(cfg, s, ls) && !After(cfg, s, ls).prompt.phase.Checking?
  {
    var l, z := InputStep(Settle), DoSettle(s);
    if z.prompt.pc.Requesting? {
      ls := [l, InputStep(Request)];
      assert Feasible(cfg, z, [InputStep(Request)]) && ls[1..] == [InputStep(Request)];
    } else {
      ls := [l];
    }
  }

  lemma {:induction false} PollAnswers(cfg: Config, s: State) returns (ls: seq<Label>)
    requires s.prompt.pc.Polling? && s.prompt.probe.Published?
    ensures TickOnly(ls) && Feasible(cfg, s, ls) && !After(cfg, s, ls).prompt.phase.Checking?
  {
    var s1 := DoPollProbe(cfg, s);
    var s2 := DoReadAnnounced(cfg, s1);
    ls := SettleAnswers(cfg, s2);
    hide DoPollProbe, DoReadAnnounced;
    Before(cfg, s1, InputStep(ReadAnnounced), ls);
    ls := [InputStep(ReadAnnounced)] + ls;
    Before(cfg, s, InputStep(PollProbe), ls);
    ls := [InputStep(PollProbe)] + ls;
  }

  lemma {:induction false} TickAnswers(cfg: Config, s: State) returns (ls: seq<Label>)
    requires s.prompt.pc.Free? && s.prompt.probe.Published?
    ensures TickOnly(ls) && Feasible(cfg, s, ls) && !After(cfg, s, ls).prompt.phase.Checking?
  {
    hide DoPollProbe, Feasible, After;
    ls := PollAnswers(cfg, DoTickStart(cfg, s));
    Before(cfg, s, InputStep(TickStart), ls);
    ls := [InputStep(TickStart)] + ls;
  }

  lemma {:induction false} Before(cfg: Config, s: State, l: Label, ls: seq<Label>)
    requires Enabled(s, l) && Feasible(cfg, Step(cfg, s, l), ls)
    ensures Feasible(cfg, s, [l] + ls) && After(cfg, s, [l] + ls) == After(cfg, Step(cfg, s, l), ls)
  {
    hide Step, Enabled;
    assert ([l] + ls)[1..] == ls;
  }

  /** The phase is `Checking` throughout `ls`. */
  predicate KeepsChecking(cfg: Config, s: State, ls: seq<Label>)
    requires Feasible(cfg, s, ls)
    decreases |ls|
  {
    && s.prompt.phase.Checking?
    && (ls != [] ==> KeepsChecking(cfg, Step(cfg, s, ls[0]), ls[1..]))
  }

  /** The input thread has read the probe, or is about to. */
  predicate Reading(p: Prompt) {
    (p.pc.Polling? && p.probe.Published?) || p.pc.Consuming? || p.pc.Settling? || p.pc.Requesting?
  }

  lemma {:induction false} InputStaysReading(cfg: Config, s: State, a: InputAction)
    requires CanInput(s.prompt, a) && Reading(s.prompt) && DoInput(cfg, s, a).prompt.phase.Checking?
    ensures Reading(DoInput(cfg, s, a).prompt)
  {
  }

  lemma {:induction false} InputStaysPublished(cfg: Config, s: State, a: InputAction)
    requires CanInput(s.prompt, a) && DoInput(cfg, s, a).prompt.phase.Checking?
    requires s.prompt.probe.Published? || Reading(s.prompt)
    ensures DoInput(cfg, s, a).prompt.probe.Published? || Reading(DoInput(cfg, s, a).prompt)
  {
  }

  lemma {:induction false} LoopLeavesPrompt(cfg: Config, s: State, a: LoopAction)
    requires CanLoop(s, a) && DoLoop(cfg, s, a).prompt.phase.Checking?
    ensures DoLoop(cfg, s, a).prompt == s.prompt
  {
    hide ReconnectDelay;
  }

  lemma {:induction false} StaysReading(cfg: Config, s: State, l: Label)
    requires Enabled(s, l) && Step(cfg, s, l).prompt.phase.Checking? && Reading(s.prompt)
    ensures Reading(Step(cfg, s, l).prompt)
  {
    hide DoInput, DoLoop;
    match l
    case InputStep(a) => InputStaysReading(cfg, s, a);
    case LoopStep(a) => LoopLeavesPrompt(cfg, s, a);
    case _ =>
  }

  lemma {:induction false} StaysPublished(cfg: Config, s: State, l: Label)
    requires Enabled(s, l) && Step(cfg, s, l).prompt.phase.Checking?
    requires s.prompt.probe.Published? || Reading(s.prompt)
    ensures Step(cfg, s, l).prompt.probe.Published? || Reading(Step(cfg, s, l).prompt)
  {
    hide DoInput, DoLoop;
    match l
    case InputStep(a) => InputStaysPublished(cfg, s, a);
    case LoopStep(a) => LoopLeavesPrompt(cfg, s, a);
    case _ =>
  }

  lemma {:induction false} TickFinishes(cfg: Config, s: State, ls: seq<Label>, k: nat)
    requires Feasible(cfg, s, ls) && k < |ls| && ls[k] == InputStep(Announce) && Reading(s.prompt)
    ensures !KeepsChecking(cfg, s, ls)
    decreases |ls|
  {
    if k > 0 && KeepsChecking(cfg, s, ls) {
      assert KeepsChecking(cfg, Step(cfg, s, ls[0]), ls[1..]);
      StaysReading(cfg, s, ls[0]);
      TickFinishes(cfg, Step(cfg, s, ls[0]), ls[1..], k - 1);
    }
  }

  lemma {:induction false} TickStarts(cfg: Config, s: State, ls: seq<Label>, j: nat, k: nat)
    requires Feasible(cfg, s, ls) && j < k < |ls| && ls[j] == InputStep(TickStart) && ls[k] == InputStep(Announce)
    requires s.prompt.probe.Published? || Reading(s.prompt)
    ensures !KeepsChecking(cfg, s, ls)
    decreases |ls|
  {
    if KeepsChecking(cfg, s, ls) {
      var z := Step(cfg, s, ls[0]);
      assert KeepsChecking(cfg, z, ls[1..]);
      if j > 0 {
        StaysPublished(cfg, s, ls[0]);
        TickStarts(cfg, z, ls[1..], j - 1, k - 1);
      } else {
        TickFinishes(cfg, z, ls[1..], k - 1);
      }
    }
  }

  /** A check is answered: any continuation in which the probe ends and then a tick runs from its start to its
      end leaves `Checking`, whatever else happens in between. Pressing Check again does not put it off: the
      probe already published answers that press too. */
  lemma {:induction false} CheckingEnds(cfg: Config, s: State, ls: seq<Label>, i: nat, j: nat, k: nat)
    requires Feasible(cfg, s, ls) && i < j < k < |ls|
    requires ls[i].ProbeEnds? && ls[j] == InputStep(TickStart) && ls[k] == InputStep(Announce)
    ensures !KeepsChecking(cfg, s, ls)
    decreases |ls|
  {
    if KeepsChecking(cfg, s, ls) {
      var z := Step(cfg, s, ls[0]);
      if i > 0 {
        CheckingEnds(cfg, z, ls[1..], i - 1, j - 1, k - 1);
      } else {
        TickStarts(cfg, z, ls[1..], j - 1, k - 1);
      }
    }
  }

  /** Such a continuation always exists: whatever the probe finds, its end and one tick take the phase out of
      `Checking`. */
  lemma {:induction false} CheckingCanEnd(cfg: Config, s: State, found: RefCheck, commit: string)
    returns (ended: seq<Label>, tick: seq<Label>)
    requires Reached(cfg, s) && s.prompt.phase.Checking? && s.prompt.pc.Free?
    ensures ended == if s.prompt.probe.Probing? then [ProbeEnds(found, commit)] else []
    ensures TickOnly(tick) && Feasible(cfg, s, ended + tick) && !After(cfg, s, ended + tick).prompt.phase.Checking?
  {
    CheckingIsAnswered(cfg, s);
    hide Reached, Feasible, After, DoInput, DoLoop;
    if s.prompt.probe.Probing? {
      var l := ProbeEnds(found, commit);
      ended := [l];
      tick := TickAnswers(cfg, Step(cfg, s, l));
      Before(cfg, s, l, tick);
    } else {
      ended := [];
      tick := TickAnswers(cfg, s);
      assert [] + tick == tick;
    }
  }

  predicate AsksAnew(l: Label) {
    l.InputStep? && l.i.Request?
  }

  predicate Progress(l: Label) {
    l.LoopStep? && l.k.OnRunning?
  }

  /** No request is recorded, and the timeout counts from where it stood. */
  predicate Unrenewed(s: State, z: State) {
    && (z.prompt.phase.Requested? ==> s.prompt.phase.Requested?)
    && z.prompt.requestedAt == s.prompt.requestedAt && z.now >= s.now
  }

  lemma {:induction false} InputStaysEnded(cfg: Config, s: State, a: InputAction)
    requires CanInput(s.prompt, a) && !a.Request?
    ensures Unrenewed(s, DoInput(cfg, s, a))
  {
  }

  lemma {:induction false} LoopStaysEnded(cfg: Config, s: State, a: LoopAction)
    requires CanLoop(s, a) && !a.OnRunning?
    ensures Unrenewed(s, DoLoop(cfg, s, a))
  {
    hide ReconnectDelay;
  }

  /** Without a new request or progress, a phase that is not `Requested` does not become so, and the
      timeout keeps counting from where it stood. */
  lemma {:induction false} StaysEnded(cfg: Config, s: State, l: Label)
    requires Enabled(s, l) && !AsksAnew(l) && !Progress(l)
    ensures Unrenewed(s, Step(cfg, s, l))
  {
    hide DoInput, DoLoop;
    match l
    case InputStep(a) => InputStaysEnded(cfg, s, a);
    case LoopStep(a) => LoopStaysEnded(cfg, s, a);
    case _ =>
  }

  lemma {:induction false} RunStaysEnded(cfg: Config, s: State, ls: seq<Label>)
    requires Feasible(cfg, s, ls) && (forall l :: l in ls ==> !AsksAnew(l) && !Progress(l))
    ensures Unrenewed(s, After(cfg, s, ls))
    decreases |ls|
  {
    hide Step, Enabled;
    if ls != [] {
      StaysEnded(cfg, s, ls[0]);
      RunStaysEnded(cfg, Step(cfg, s, ls[0]), ls[1..]);
    }
  }

  /** `Requested` ends: whatever else happens, once a tick looks at the clock `timeout` ms after the request
      or its last progress, the phase is something else until the next request. */
  lemma {:induction false} RequestedEnds(cfg: Config, s: State, ls: seq<Label>, ms: seq<Label>)
    requires Feasible(cfg, s, ls) && (forall l :: l in ls + ms ==> !AsksAnew(l) && !Progress(l))
    requires var z := After(cfg, s, ls);
             z.prompt.pc.Locking? && z.now >= s.prompt.requestedAt + cfg.timeout && Feasible(cfg, DoLock(cfg, z), ms)
    ensures !After(cfg, DoLock(cfg, After(cfg, s, ls)), ms).prompt.phase.Requested?
  {
    RunStaysEnded(cfg, s, ls);
    RunStaysEnded(cfg, DoLock(cfg, After(cfg, s, ls)), ms);
  }

  /** A Check press, a probe result, an announcement, or the fallback that a probe result leads to. */
  predicate MustNotOverwrite(s: State, l: Label) {
    match l
    case InputStep(a) => !a.PressUpdate? && !a.Lock? && (a.Request? ==> s.prompt.pc == Requesting(true))
    case LoopStep(k) => k.OnAvailable?
    case ProbeEnds(_, _) => true
    case _ => false
  }

  /** With the probe configured, none of these changes `Requested` or `Done`, except the fallback when a
      verdict of `Done` came in after the probe was found unreadable and before the request was recorded. */
  lemma {:induction false} OverwritesExactly(cfg: Config, s: State, l: Label)
    requires cfg.probing && Enabled(s, l) && MustNotOverwrite(s, l)
    requires s.prompt.phase.Requested? || s.prompt.phase.Done?
    ensures Step(cfg, s, l).prompt.phase != s.prompt.phase <==>
              l == InputStep(Request) && s.prompt.pc == Requesting(true) && s.prompt.phase.Done?
  {
  }

  /** The portal's answer: a signal, or a call that failed. */
  predicate Answers(l: Label) {
    l.LoopStep? && (l.k.OnTerminal? || (l.k.CallReturns? && (l.k.outcome.Rejected? || l.k.outcome.ReplyLost?)))
  }

  /** The user presses Update now, or the portal answers. */
  predicate Unsettles(l: Label) {
    l == InputStep(PressUpdate) || Answers(l)
  }

  predicate Settled(s: State) {
    s.prompt.phase.Done? && !s.prompt.pc.Requesting?
  }

  lemma {:induction false} InputKeepsDone(cfg: Config, s: State, a: InputAction)
    requires CanInput(s.prompt, a) && !a.PressUpdate? && cfg.probing && Settled(s)
    ensures Settled(DoInput(cfg, s, a))
  {
  }

  lemma {:induction false} LoopKeepsPrompt(cfg: Config, s: State, a: LoopAction)
    requires CanLoop(s, a) && !Answers(LoopStep(a))
    ensures DoLoop(cfg, s, a).prompt == s.prompt || (a.OnRunning? && DoLoop(cfg, s, a) == DoRunning(s))
  {
    hide ReconnectDelay;
  }

  lemma {:induction false} StepKeepsDone(cfg: Config, s: State, l: Label)
    requires Enabled(s, l) && !Unsettles(l) && cfg.probing && Settled(s)
    ensures Settled(Step(cfg, s, l))
  {
    hide DoInput, DoLoop;
    match l
    case InputStep(a) => InputKeepsDone(cfg, s, a);
    case LoopStep(a) => LoopKeepsPrompt(cfg, s, a);
    case _ =>
  }

  /** Over any run outside that gap, `Done` stays until the user presses Update now or the portal answers
      another call. */
  lemma {:induction false} DoneStays(cfg: Config, s: State, ls: seq<Label>)
    requires Feasible(cfg, s, ls) && (forall l :: l in ls ==> !Unsettles(l)) && cfg.probing && Settled(s)
    ensures Settled(After(cfg, s, ls))
    decreases |ls|
  {
    hide Step, Enabled, Settled;
    if ls != [] {
      StepKeepsDone(cfg, s, ls[0]);
      DoneStays(cfg, Step(cfg, s, ls[0]), ls[1..]);
    }
  }

  predicate ClockOk(s: State) {
    s.prompt.requestedAt <= s.now
  }

  lemma {:induction false} StepKeepsClock(cfg: Config, s: State, l: Label)
    requires Enabled(s, l) && ClockOk(s)
    ensures ClockOk(Step(cfg, s, l)) && s.prompt.requestedAt <= Step(cfg, s, l).prompt.requestedAt
    ensures s.now <= Step(cfg, s, l).now
  {
    hide ReconnectDelay;
  }

  lemma {:induction false} RunKeepsClock(cfg: Config, s: State, ls: seq<Label>)
    requires Feasible(cfg, s, ls) && ClockOk(s)
    ensures ClockOk(After(cfg, s, ls)) && s.now <= After(cfg, s, ls).now
    decreases |ls|
  {
    hide Step, Enabled, ClockOk;
    if ls != [] {
      StepKeepsClock(cfg, s, ls[0]);
      RunKeepsClock(cfg, Step(cfg, s, ls[0]), ls[1..]);
    }
  }

  lemma {:induction false} StepKeepsRequested(cfg: Config, s: State, l: Label)
    requires Enabled(s, l) && !Answers(l)
    requires s.prompt.phase.Requested? && s.now < s.prompt.requestedAt + cfg.timeout
    ensures Step(cfg, s, l).prompt.phase.Requested?
  {
    hide ReconnectDelay;
  }

  lemma {:induction false} RunKeepsRequested(cfg: Config, s: State, ls: seq<Label>)
    requires Feasible(cfg, s, ls) && (forall l :: l in ls ==> !Answers(l)) && ClockOk(s)
    requires s.prompt.phase.Requested? && After(cfg, s, ls).now < s.prompt.requestedAt + cfg.timeout
    ensures After(cfg, s, ls).prompt.phase.Requested?
    decreases |ls|
  {
    hide Step, Enabled;
    RunKeepsClock(cfg, s, ls);
    if ls != [] {
      StepKeepsClock(cfg, s, ls[0]);
      StepKeepsRequested(cfg, s, ls[0]);
      RunKeepsRequested(cfg, Step(cfg, s, ls[0]), ls[1..]);
    }
  }

  /** Nothing but an answer from the portal ends `Requested` before its timeout. */
  lemma {:induction false} RequestedStays(cfg: Config, s: State, ls: seq<Label>)
    requires Reached(cfg, s) && Feasible(cfg, s, ls) && (forall l :: l in ls ==> !Answers(l))
    requires s.prompt.phase.Requested? && After(cfg, s, ls).now < s.prompt.requestedAt + cfg.timeout
    ensures After(cfg, s, ls).prompt.phase.Requested?
  {
    var ms: seq<Label> :| Feasible(cfg, Init(), ms) && After(cfg, Init(), ms) == s;
    RunKeepsClock(cfg, Init(), ms);
    RunKeepsRequested(cfg, s, ls);
  }

  // ---- reconnection ----

  function PowerOf2(k: nat): nat {
    if k == 0 then 1 else 2 * PowerOf2(k - 1)
  }

  lemma {:induction false} ShiftIsPower(n: nat, k: nat)
    ensures ShiftLeft(n, k) == n * PowerOf2(k)
  {
    if k > 0 {
      ShiftIsPower(n, k - 1);
      assert 2 * (n * PowerOf2(k - 1)) == n * (2 * PowerOf2(k - 1));
    }
  }

  lemma {:induction false} PowerGrows(k: nat)
    requires k >= 6
    ensures PowerOf2(k) >= 64
  {
    if k == 6 {
      assert PowerOf2(4) == 16;
    } else {
      PowerGrows(k - 1);
    }
  }

  /** Every delay is min(60000, 1000 * 2^k), although the shift itself stops at 6. */
  lemma {:induction false} DelayIs(k: nat)
    ensures ReconnectDelay(k) == if 1000 * PowerOf2(k) < 60000 then 1000 * PowerOf2(k) else 60000
  {
    ShiftIsPower(RECONNECT_BASE_MS, k);
    ShiftIsPower(RECONNECT_BASE_MS, RECONNECT_MAX_SHIFT);
    if k >= RECONNECT_MAX_SHIFT {
      PowerGrows(k);
      PowerGrows(RECONNECT_MAX_SHIFT);
    }
  }

  lemma {:induction false} AllWaits()
    ensures Waits(RECONNECT_MAX_TRIES - 1) == 363000
    ensures forall n: nat :: n < RECONNECT_MAX_TRIES ==> Waits(n) <= 363000
  {
    assert ShiftLeft(1000, 6) == 2 * ShiftLeft(1000, 5) && ShiftLeft(1000, 5) == 2 * ShiftLeft(1000, 4);
    assert ShiftLeft(1000, 4) == 2 * ShiftLeft(1000, 3) && ShiftLeft(1000, 3) == 2 * ShiftLeft(1000, 2);
    assert ShiftLeft(1000, 2) == 4000 && ShiftLeft(1000, 1) == 2000;
    assert Waits(3) == 7000;
    assert Waits(6) == 63000;
    assert Waits(9) == 243000;
  }

  /** Drops and failed attempts among events i..j. */
  function Troubles(es: seq<Event>, i: nat, j: nat): nat
    requires i <= j <= |es|
    decreases j
  {
    if j == i then 0 else Troubles(es, i, j - 1) + One(Trouble(es[j - 1]))
  }

  function Delays(es: seq<Event>, i: nat, j: nat): nat
    requires i <= j <= |es|
    decreases j
  {
    if j == i then 0 else Delays(es, i, j - 1) + Delay(es[j - 1])
  }

  lemma {:induction false} StretchWithinBudget(es: seq<Event>, i: nat, j: nat)
    requires i <= j <= |es| && (forall k: nat :: i <= k < j ==> !StableDrop(es, k))
    ensures Troubles(es, i, j) <= Budget(es[..j]) && Delays(es, i, j) <= Waited(es[..j])
    decreases j
  {
    if j > i {
      StretchWithinBudget(es, i, j - 1);
      assert es[..j][..j - 1] == es[..j - 1];
      assert !StableDrop(es, j - 1);
    }
  }

  /** Over any stretch of events in which no link stayed up 30 s, dropped links and failed attempts number
      at most 12, and the waits between them add up to at most 363 s. */
  lemma {:induction false} ReconnectionEnds(cfg: Config, s: State, i: nat, j: nat)
    requires Reached(cfg, s) && i <= j <= |s.past.events|
    requires forall k: nat :: i <= k < j ==> !StableDrop(s.past.events, k)
    ensures Troubles(s.past.events, i, j) <= 12
    ensures Delays(s.past.events, i, j) <= 363000
  {
    ReachedHolds(cfg, s);
    StretchWithinBudget(s.past.events, i, j);
    AllWaits();
    hide Budget, Waited, Waits, Troubles, Delays;
    if s.loop.inLoop {
      assert BudgetOk(s.past.events[..j]);
    } else {
      StartOfLink();
      assert s.past.events[..j] == [];
    }
  }

  /** Among events i..j, the links made over a new connection, those dropped, and those given up because the
      portal refused a new monitor. */
  function Connects(es: seq<Event>, i: nat, j: nat): nat
    requires i <= j <= |es|
    decreases j
  {
    if j == i then 0 else Connects(es, i, j - 1) + One(es[j - 1].Connected?)
  }

  function Drops(es: seq<Event>, i: nat, j: nat): nat
    requires i <= j <= |es|
    decreases j
  {
    if j == i then 0 else Drops(es, i, j - 1) + One(es[j - 1].Dropped?)
  }

  function FailedRebuilds(es: seq<Event>, i: nat, j: nat): nat
    requires i <= j <= |es|
    decreases j
  {
    if j == i then 0 else FailedRebuilds(es, i, j - 1) + One(es[j - 1].RebuildFailed?)
  }

  /** Every link made is lost again, or still up. */
  lemma {:induction false} LinksConserved(es: seq<Event>, i: nat, j: nat)
    requires i <= j <= |es| && BudgetsOk(es)
    ensures Connects(es, i, j) + One(LinkUp(es[..i]))
            == Drops(es, i, j) + FailedRebuilds(es, i, j) + One(LinkUp(es[..j]))
    ensures Drops(es, i, j) <= Troubles(es, i, j)
    decreases j
  {
    hide Budget, Waited, Waits;
    if j > i {
      LinksConserved(es, i, j - 1);
      assert BudgetOk(es[..j]);
      assert es[..j][..j - 1] == es[..j - 1];
    }
  }

  /** Over any stretch in which no link stayed up 30 s, the bus is connected anew at most twelve times more
      than the portal refused a monitor, and not less often than that short of one. */
  lemma {:induction false} ReconnectsBounded(cfg: Config, s: State, i: nat, j: nat)
    requires Reached(cfg, s) && i <= j <= |s.past.events|
    requires forall k: nat :: i <= k < j ==> !StableDrop(s.past.events, k)
    ensures var es := s.past.events;
            FailedRebuilds(es, i, j) <= Connects(es, i, j) + 1
            && Connects(es, i, j) <= FailedRebuilds(es, i, j) + 12
  {
    var es := s.past.events;
    ReachedHolds(cfg, s);
    if !s.loop.inLoop {
      StartOfLink();
    }
    LinksConserved(es, i, j);
    StretchWithinBudget(es, i, j);
    hide Budget, Waited, Waits, Connects, Drops, FailedRebuilds, Troubles, LinkUp;
    assert BudgetOk(es[..j]);
  }

  /** The loop goes inert with the twelfth of them, and not before. */
  lemma {:induction false} InertAtTheTwelfth(cfg: Config, s: State)
    requires Reached(cfg, s) && s.loop.inLoop && !s.loop.pc.Stopped?
    ensures s.loop.pc.Inert? <==> Budget(s.past.events) == 12
  {
    ReachedHolds(cfg, s);
  }
}
