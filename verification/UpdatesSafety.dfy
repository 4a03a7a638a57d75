/** What every run of the self-update threads keeps.

    `ConsentOk` counts presses against the calls made and the consent still on its way from the controller
    to the portal loop. `TabOk` ties the phase shown in the Updates tab to the probe and to where the input
    thread stands. `FlightOk` bounds the deploys in flight on one monitor by the calls whose reply was lost.
    `LinkOk` reads the failures since the last stable link, and the time spent waiting, off the history of
    the link. The loop's actions come in three groups, so that each proof stays small. */
module UpdatesSafety {
  import opened Options
  import opened Updates

  function One(b: bool): nat {
    if b then 1 else 0
  }

  predicate IsLinkAction(a: LoopAction) {
    a.Establish? || a.PumpFails? || a.Rebuild?
  }

  predicate IsTurnAction(a: LoopAction) {
    a.TakeConfirm? || a.Decide? || a.CallReturns?
  }

  // ---- consent ----

  /** Presses recorded somewhere and not yet turned into a call. */
  function Outstanding(s: State): nat {
    One(s.prompt.pc.Requesting? || s.prompt.pc.Asking?)
    + One(s.prompt.phase.Checking? && s.prompt.pc != Requesting(true))
    + One(s.loop.confirm) + One(s.loop.want) + One(s.loop.pc.Calling?)
  }

  predicate ConsentOk(s: State) {
    s.past.updates + Outstanding(s) <= s.past.presses
  }

  lemma {:induction false} InputKeepsConsent(cfg: Config, s: State, a: InputAction)
    requires CanInput(s.prompt, a) && ConsentOk(s)
    ensures ConsentOk(DoInput(cfg, s, a))
  {
  }

  lemma {:induction false} LinkKeepsConsent(cfg: Config, s: State, a: LoopAction)
    requires CanLoop(s, a) && IsLinkAction(a) && ConsentOk(s) && !cfg.auto
    ensures ConsentOk(DoLoop(cfg, s, a))
  {
    hide ReconnectDelay;
  }

  lemma {:induction false} TurnKeepsConsent(cfg: Config, s: State, a: LoopAction)
    requires CanLoop(s, a) && IsTurnAction(a) && ConsentOk(s) && !cfg.auto
    ensures ConsentOk(DoLoop(cfg, s, a))
  {
  }

  lemma {:induction false} SignalKeepsConsent(cfg: Config, s: State, a: LoopAction)
    requires CanLoop(s, a) && !IsLinkAction(a) && !IsTurnAction(a) && ConsentOk(s) && !cfg.auto
    ensures ConsentOk(DoLoop(cfg, s, a))
  {
  }

  lemma {:induction false} LoopKeepsConsent(cfg: Config, s: State, a: LoopAction)
    requires CanLoop(s, a) && ConsentOk(s) && !cfg.auto
    ensures ConsentOk(DoLoop(cfg, s, a))
  {
    hide DoLoop, CanLoop;
    if IsLinkAction(a) {
      LinkKeepsConsent(cfg, s, a);
    } else if IsTurnAction(a) {
      TurnKeepsConsent(cfg, s, a);
    } else {
      SignalKeepsConsent(cfg, s, a);
    }
  }

  // ---- the tab ----

  /** `Checking` has a probe to answer it, and a fallback starts from `Checking` or a later verdict. */
  predicate TabOk(s: State) {
    var p := s.prompt;
    && (p.phase.Checking? ==>
          !p.probe.NoProbe? || p.pc.Kicking? || p.pc.Consuming? || p.pc.Settling? || p.pc == Requesting(true))
    && (p.pc == Requesting(true) ==> p.phase.Checking? || IsVerdict(p.phase))
    && p.requestedAt <= s.now && p.refusedAt <= s.now
  }

  lemma {:induction false} InputKeepsTab(cfg: Config, s: State, a: InputAction)
    requires CanInput(s.prompt, a) && TabOk(s)
    ensures TabOk(DoInput(cfg, s, a))
  {
  }

  lemma {:induction false} LoopKeepsTab(cfg: Config, s: State, a: LoopAction)
    requires CanLoop(s, a) && TabOk(s)
    ensures TabOk(DoLoop(cfg, s, a))
  {
  }

  // ---- deploys in flight ----

  predicate HasMonitor(pc: LoopPc) {
    pc.Pumping? || pc.Turning? || pc.Deciding? || pc.Calling?
  }

  predicate LoopOk(s: State) {
    && (HasMonitor(s.loop.pc) ==> s.loop.monitor.Some?)
    && (s.loop.monitor.Some? ==> s.loop.monitor.value < s.portal.made)
    && (s.loop.pc.Calling? ==> s.loop.updating)
    && s.loop.lastConnect <= s.now
  }

  predicate FlightOk(s: State, m: nat) {
    var flying, lost := Count(s.portal.inFlight, m), Count(s.portal.lost, m);
    && flying <= lost + 1
    && (m >= s.portal.made ==> flying == 0)
    && (s.loop.monitor == Some(m) ==> flying <= lost + One(s.loop.updating && !s.loop.pc.Calling?))
  }

  lemma {:induction false} LinkKeepsFlight(cfg: Config, s: State, a: LoopAction, m: nat)
    requires CanLoop(s, a) && IsLinkAction(a) && LoopOk(s) && FlightOk(s, m)
    ensures FlightOk(DoLoop(cfg, s, a), m)
  {
    hide ReconnectDelay;
  }

  lemma {:induction false} TurnKeepsFlight(cfg: Config, s: State, a: LoopAction, m: nat)
    requires CanLoop(s, a) && IsTurnAction(a) && LoopOk(s) && FlightOk(s, m)
    ensures FlightOk(DoLoop(cfg, s, a), m)
  {
  }

  lemma {:induction false} SignalKeepsFlight(cfg: Config, s: State, a: LoopAction, m: nat)
    requires CanLoop(s, a) && !IsLinkAction(a) && !IsTurnAction(a) && LoopOk(s) && FlightOk(s, m)
    ensures FlightOk(DoLoop(cfg, s, a), m)
  {
  }

  lemma {:induction false} LoopKeepsFlight(cfg: Config, s: State, a: LoopAction, m: nat)
    requires CanLoop(s, a) && LoopOk(s) && FlightOk(s, m)
    ensures FlightOk(DoLoop(cfg, s, a), m)
  {
    hide DoLoop, CanLoop;
    if IsLinkAction(a) {
      LinkKeepsFlight(cfg, s, a, m);
    } else if IsTurnAction(a) {
      TurnKeepsFlight(cfg, s, a, m);
    } else {
      SignalKeepsFlight(cfg, s, a, m);
    }
  }

  lemma {:induction false} FailingKeepsLoop(s: State, z: State)
    requires LoopOk(s) && z.loop == Failing(s.loop) && z.portal.made == s.portal.made && z.now == s.now
    ensures LoopOk(z)
  {
    hide ReconnectDelay;
  }

  lemma {:induction false} LinkKeepsLoop(cfg: Config, s: State, a: LoopAction)
    requires CanLoop(s, a) && IsLinkAction(a) && LoopOk(s)
    ensures LoopOk(DoLoop(cfg, s, a))
  {
    hide Failing, DelayAfter;
    var z := DoLoop(cfg, s, a);
    if z.loop == Failing(s.loop) && z.portal.made == s.portal.made && z.now == s.now {
      FailingKeepsLoop(s, z);
    }
  }

  lemma {:induction false} TurnKeepsLoop(cfg: Config, s: State, a: LoopAction)
    requires CanLoop(s, a) && IsTurnAction(a) && LoopOk(s)
    ensures LoopOk(DoLoop(cfg, s, a))
  {
  }

  lemma {:induction false} SignalKeepsLoop(cfg: Config, s: State, a: LoopAction)
    requires CanLoop(s, a) && !IsLinkAction(a) && !IsTurnAction(a) && LoopOk(s)
    ensures LoopOk(DoLoop(cfg, s, a))
  {
  }

  lemma {:induction false} LoopKeepsLoop(cfg: Config, s: State, a: LoopAction)
    requires CanLoop(s, a) && LoopOk(s)
    ensures LoopOk(DoLoop(cfg, s, a))
  {
    hide DoLoop, CanLoop;
    if IsLinkAction(a) {
      LinkKeepsLoop(cfg, s, a);
    } else if IsTurnAction(a) {
      TurnKeepsLoop(cfg, s, a);
    } else {
      SignalKeepsLoop(cfg, s, a);
    }
  }

  // ---- reconnection ----

  predicate Trouble(e: Event) {
    e.Dropped? || e.Refused?
  }

  /** When the link was last made, over the events so far. */
  function LastConnected(es: seq<Event>): nat
    decreases |es|
  {
    if es == [] then 0
    else var e := es[|es| - 1]; if e.Connected? || e.Rebuilt? then e.at else LastConnected(es[..|es| - 1])
  }

  /** Event `k` is the drop of a link that had been up for 30 s. */
  predicate StableDrop(es: seq<Event>, k: nat)
    requires k < |es|
  {
    es[k].Dropped? && es[k].at - LastConnected(es[..k]) >= 30000
  }

  /** Drops and failed attempts since the last stable drop, and the waits that followed them. */
  function Budget(es: seq<Event>): nat
    decreases |es|
  {
    if es == [] then 0
    else if StableDrop(es, |es| - 1) then 0
    else Budget(es[..|es| - 1]) + One(Trouble(es[|es| - 1]))
  }

  function Delay(e: Event): nat {
    if Trouble(e) then e.delay else 0
  }

  function Waited(es: seq<Event>): nat
    decreases |es|
  {
    if es == [] then 0
    else if StableDrop(es, |es| - 1) then 0
    else Waited(es[..|es| - 1]) + Delay(es[|es| - 1])
  }

  /** The waits after the first `n` failures of a stretch. */
  function Waits(n: nat): nat {
    if n == 0 then 0 else Waits(n - 1) + ReconnectDelay(n - 1)
  }

  /** Whether a link is up after `es`. */
  predicate LinkUp(es: seq<Event>) {
    es != [] && (es[|es| - 1].Connected? || es[|es| - 1].Rebuilt?)
  }

  /** A link is lost while it is up, and made while it is down. */
  predicate InTurn(es: seq<Event>, e: Event) {
    LinkUp(es) <==> e.Dropped? || e.Rebuilt? || e.RebuildFailed?
  }

  /** Giving up takes twelve failures, leaves no link, and only the first eleven are waited after. */
  predicate BudgetOk(es: seq<Event>) {
    && Budget(es) <= RECONNECT_MAX_TRIES
    && (Budget(es) == RECONNECT_MAX_TRIES ==> !LinkUp(es))
    && (es != [] ==> InTurn(es[..|es| - 1], es[|es| - 1]))
    && Waited(es) == Waits(if Budget(es) < RECONNECT_MAX_TRIES then Budget(es) else RECONNECT_MAX_TRIES - 1)
  }

  predicate BudgetsOk(es: seq<Event>) {
    forall n: nat :: n <= |es| ==> BudgetOk(es[..n])
  }

  ghost predicate LinkOk(s: State) {
    if s.loop.inLoop then
      && s.loop.failures == Budget(s.past.events)
      && s.loop.lastConnect == LastConnected(s.past.events)
      && BudgetsOk(s.past.events)
      && (HasMonitor(s.loop.pc) ==> LinkUp(s.past.events))
      && (s.loop.pc.Retrying? || s.loop.pc.BackingOff? ==> !LinkUp(s.past.events))
      && (s.loop.failures >= RECONNECT_MAX_TRIES ==> s.loop.pc.Inert? || s.loop.pc.Stopped?)
      && (s.loop.pc.Inert? ==> s.loop.failures == RECONNECT_MAX_TRIES)
    else
      && s.past.events == [] && !HasMonitor(s.loop.pc)
      && s.loop.failures <= RECONNECT_MAX_TRIES
      && (s.loop.failures == RECONNECT_MAX_TRIES ==> s.loop.pc.Inert? || s.loop.pc.Stopped?)
  }

  lemma {:induction false} SnocFacts(es: seq<Event>, e: Event)
    ensures (es + [e])[..|es|] == es
    ensures LinkUp(es + [e]) <==> e.Connected? || e.Rebuilt?
    ensures LastConnected(es + [e]) == if e.Connected? || e.Rebuilt? then e.at else LastConnected(es)
    ensures StableDrop(es + [e], |es|) == (e.Dropped? && e.at - LastConnected(es) >= 30000)
    ensures Budget(es + [e]) == if StableDrop(es + [e], |es|) then 0 else Budget(es) + One(Trouble(e))
    ensures Waited(es + [e]) == if StableDrop(es + [e], |es|) then 0 else Waited(es) + Delay(e)
    ensures BudgetsOk(es) ==> BudgetOk(es)
    ensures BudgetsOk(es) && BudgetOk(es + [e]) ==> BudgetsOk(es + [e])
  {
    assert (es + [e])[..|es|] == es && es[..|es|] == es;
    if BudgetsOk(es) && BudgetOk(es + [e]) {
      forall n: nat | n <= |es| + 1 ensures BudgetOk((es + [e])[..n]) {
        if n <= |es| {
          assert (es + [e])[..n] == es[..n];
        } else {
          assert (es + [e])[..n] == es + [e];
        }
      }
    }
  }

  /** The link is unaffected. */
  predicate SameLink(s: State, z: State) {
    && z.past.events == s.past.events && z.loop.inLoop == s.loop.inLoop && z.loop.failures == s.loop.failures
    && z.loop.lastConnect == s.loop.lastConnect
    && (HasMonitor(z.loop.pc) ==> HasMonitor(s.loop.pc))
    && (z.loop.pc.Inert? ==> s.loop.pc.Inert?)
    && (s.loop.pc.Inert? || s.loop.pc.Stopped? ==> z.loop.pc.Inert? || z.loop.pc.Stopped?)
    && (z.loop.pc.Retrying? || z.loop.pc.BackingOff? ==> s.loop.pc.Retrying? || s.loop.pc.BackingOff?)
  }

  lemma {:induction false} OtherLoopActions(cfg: Config, s: State, a: LoopAction)
    requires CanLoop(s, a) && !IsLinkAction(a)
    ensures SameLink(s, DoLoop(cfg, s, a))
  {
    hide ReconnectDelay;
  }

  lemma {:induction false} EstablishKeepsLink(s: State, ok: bool)
    requires CanLoop(s, Establish(ok)) && LinkOk(s)
    ensures LinkOk(DoEstablish(s, ok))
  {
    hide Budget, Waited, LastConnected, StableDrop, BudgetsOk, ReconnectDelay;
    WaitsNext(s.loop.failures);
    if !ok {
      SnocFacts(s.past.events, Refused(DelayAfter(s.loop)));
    } else {
      SnocFacts(s.past.events, Connected(s.now));
      StartOfLink();
    }
  }

  lemma {:induction false} WaitsNext(n: nat)
    ensures Waits(0) == 0 && Waits(n + 1) == Waits(n) + ReconnectDelay(n)
  {
  }

  lemma {:induction false} StartOfLink()
    ensures Budget([]) == 0 && Waited([]) == 0 && Waits(0) == 0 && BudgetsOk([])
  {
  }

  lemma {:induction false} PumpFailsKeepsLink(s: State)
    requires CanLoop(s, PumpFails) && LinkOk(s)
    ensures LinkOk(DoPumpFails(s))
  {
    hide Budget, Waited, LastConnected, StableDrop, BudgetsOk, ReconnectDelay;
    WaitsNext(s.loop.failures);
    var stable := s.now - s.loop.lastConnect >= RECONNECT_STABLE_MS;
    SnocFacts(s.past.events, Dropped(s.now, if stable then 0 else DelayAfter(s.loop)));
  }

  lemma {:induction false} RebuildKeepsLink(s: State, ok: bool)
    requires CanLoop(s, Rebuild(ok)) && LinkOk(s)
    ensures LinkOk(DoRebuild(s, ok))
  {
    hide Budget, Waited, LastConnected, StableDrop, BudgetsOk;
    SnocFacts(s.past.events, if ok then Rebuilt(s.now) else RebuildFailed);
  }

  lemma {:induction false} LoopKeepsLink(cfg: Config, s: State, a: LoopAction)
    requires CanLoop(s, a) && LinkOk(s)
    ensures LinkOk(DoLoop(cfg, s, a))
  {
    match a
    case Establish(ok) => EstablishKeepsLink(s, ok);
    case PumpFails => PumpFailsKeepsLink(s);
    case Rebuild(ok) => RebuildKeepsLink(s, ok);
    case _ => OtherLoopActions(cfg, s, a);
  }
}
