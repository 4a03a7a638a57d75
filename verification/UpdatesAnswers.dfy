/** What self-update answers: what a check, a verdict, a refusal and an announcement make of the Updates tab. */
module UpdatesAnswers {
  import opened Options
  import opened Updates
  import opened UpdatesSafety
  import opened UpdatesRuns

  /** The portal found nothing to install for `commit`, less than the refusal window ago. */
  predicate Refused(cfg: Config, s: State, commit: string) {
    s.prompt.refused != "" && s.prompt.refused == commit && s.now - s.prompt.refusedAt < cfg.window
  }

  /** An announcement that something can come of. */
  predicate Stands(cfg: Config, s: State) {
    s.available.Some? && !Refused(cfg, s, s.available.value)
  }

  function Inputs(actions: seq<InputAction>): seq<Label> {
    if actions == [] then [] else [InputStep(actions[0])] + Inputs(actions[1..])
  }

  lemma {:induction false} Nothing(cfg: Config, s: State)
    ensures Feasible(cfg, s, Inputs([])) && After(cfg, s, Inputs([])) == s
  {
  }

  lemma {:induction false} Then(cfg: Config, s: State, a: InputAction, more: seq<InputAction>)
    requires CanInput(s.prompt, a) && Feasible(cfg, DoInput(cfg, s, a), Inputs(more))
    ensures Feasible(cfg, s, Inputs([a] + more))
    ensures After(cfg, s, Inputs([a] + more)) == After(cfg, DoInput(cfg, s, a), Inputs(more))
  {
    hide DoInput, CanInput, Feasible, After;
    assert ([a] + more)[1..] == more;
    assert Enabled(s, InputStep(a)) && Step(cfg, s, InputStep(a)) == DoInput(cfg, s, a);
    Before(cfg, s, InputStep(a), Inputs(more));
  }

  // ---- the answer to a check ----

  const READING: seq<InputAction> := [TickStart] + ([PollProbe] + ([ReadAnnounced] + ([Settle] + [])))

  lemma {:induction false} ReadingIs(cfg: Config, s: State)
    requires s.prompt.pc.Free? && s.prompt.probe.Published?
    ensures Feasible(cfg, s, Inputs(READING))
    ensures After(cfg, s, Inputs(READING)) == DoSettle(DoReadAnnounced(cfg, DoPollProbe(cfg, DoTickStart(cfg, s))))
  {
    hide Feasible, After;
    var s1 := DoTickStart(cfg, s);
    var s2 := DoPollProbe(cfg, s1);
    var s3 := DoReadAnnounced(cfg, s2);
    var s4 := DoSettle(s3);
    Nothing(cfg, s4);
    Then(cfg, s3, Settle, []);
    Then(cfg, s2, ReadAnnounced, [Settle] + []);
    Then(cfg, s1, PollProbe, [ReadAnnounced] + ([Settle] + []));
    Then(cfg, s, TickStart, [PollProbe] + ([ReadAnnounced] + ([Settle] + [])));
  }

  /** A check whose probe found a newer commit ends in an offer of that commit. One that found none ends in "latest",
      with news of it, unless an announcement stands: then that stays on offer. One that could read nothing is handed
      to the portal. */
  lemma {:induction false} CheckAnswers(cfg: Config, s: State, found: RefCheck, commit: string)
    requires s.prompt.phase.Checking? && s.prompt.pc.Free? && s.prompt.probe == Published(found, commit)
    ensures Feasible(cfg, s, Inputs(READING))
    ensures var z := After(cfg, s, Inputs(READING));
            if found.Unknown? then
              z.prompt.pc == Requesting(true) && z.prompt.phase.Checking? && z.available == s.available
            else if found.UpdateAvailable? && !Refused(cfg, s, commit) then
              z.prompt.phase.Idle? && z.available == Some(commit) && z.prompt.announced == commit
            else if Stands(cfg, s) then
              z.prompt.phase.Idle? && z.available == s.available && !z.prompt.news
            else
              z.prompt.phase.Empty? && z.available == s.available && z.prompt.news
  {
    ReadingIs(cfg, s);
    hide Feasible, After;
  }

  /** A probe nobody asked for announces a newer commit, and says "latest" only where nothing was said and no
      announcement stands. */
  lemma {:induction false} LaunchProbeSays(cfg: Config, s: State, found: RefCheck, commit: string)
    requires !s.prompt.phase.Checking? && s.prompt.pc.Free? && s.prompt.probe == Published(found, commit)
    ensures Feasible(cfg, s, Inputs(READING))
    ensures var z := After(cfg, s, Inputs(READING));
            var news := found.UpdateAvailable? && !Refused(cfg, s, commit);
            var quiet := s.prompt.phase.Idle? && !s.prompt.forUser && !found.Unknown? && !news && !Stands(cfg, s);
            && z.available == (if news then Some(commit) else s.available)
            && z.prompt.lastCommit == (if news then "" else s.prompt.lastCommit)
            && z.prompt.phase == (if quiet then Empty else s.prompt.phase)
  {
    ReadingIs(cfg, s);
    hide Feasible, After;
  }

  // ---- announcements ----

  lemma {:induction false} InputKeepsAvailable(cfg: Config, s: State, a: InputAction)
    requires CanInput(s.prompt, a)
    ensures DoInput(cfg, s, a).available == s.available || (a.PollProbe? && DoInput(cfg, s, a).available.Some?)
  {
  }

  lemma {:induction false} LoopKeepsAvailable(cfg: Config, s: State, a: LoopAction)
    requires CanLoop(s, a)
    ensures DoLoop(cfg, s, a).available == if a.OnAvailable? && !cfg.auto then Some(a.commit) else s.available
  {
    hide ReconnectDelay;
  }

  /** Nothing ever withdraws an announcement. */
  lemma {:induction false} AvailableStays(cfg: Config, s: State, ls: seq<Label>)
    requires Feasible(cfg, s, ls) && s.available.Some?
    ensures After(cfg, s, ls).available.Some?
    decreases |ls|
  {
    hide DoInput, DoLoop;
    if ls != [] {
      match ls[0] {
        case InputStep(a) => InputKeepsAvailable(cfg, s, a);
        case LoopStep(a) => LoopKeepsAvailable(cfg, s, a);
        case _ =>
      }
      AvailableStays(cfg, Step(cfg, s, ls[0]), ls[1..]);
    }
  }

  /** A step says "latest" only on the portal's word, or where the probe read no newer commit and no announcement
      was standing when the probe looked. */
  lemma {:induction false} EmptyExactly(cfg: Config, s: State, a: InputAction)
    requires CanInput(s.prompt, a) && !s.prompt.phase.Empty?
    ensures DoInput(cfg, s, a).prompt.phase.Empty? <==>
              && a.Settle? && s.prompt.pc.result.UpToDate? && !s.prompt.pc.announced
              && (s.prompt.phase.Checking? || (s.prompt.phase.Idle? && !s.prompt.pc.forUser))
  {
  }

  lemma {:induction false} FlagIs(cfg: Config, s: State)
    requires s.prompt.pc.Consuming?
    ensures var z := DoInput(cfg, s, ReadAnnounced); z.prompt.pc.Settling? && z.prompt.pc.announced == Stands(cfg, s)
  {
  }

  const FINISHING: seq<InputAction> := [Lock] + ([Announce] + [])

  /** The rest of a tick: an announcement not seen before takes back an earlier "latest", failure or block, and
      leaves a request and a finished deploy standing. So one that arrives just after the probe looked is shown by
      the same tick. */
  lemma {:induction false} TickFinds(cfg: Config, s: State)
    requires s.prompt.pc.Locking? && !(s.prompt.phase.Requested? && s.now >= s.prompt.requestedAt + cfg.timeout)
    ensures Feasible(cfg, s, Inputs(FINISHING))
    ensures var z, p := After(cfg, s, Inputs(FINISHING)), s.prompt.phase;
            var unseen := s.available.Some? && s.available.value !in {"", s.prompt.lastCommit};
            && z.prompt.pc.Free? && !z.prompt.news
            && z.prompt.phase == (if unseen && (p.Empty? || p.Failed? || p.Blocked?) then Idle else p)
            && z.prompt.lastCommit == (if unseen then s.available.value else s.prompt.lastCommit)
  {
    hide Feasible, After;
    var s1 := DoLock(cfg, s);
    var s2 := DoAnnounce(s1);
    Nothing(cfg, s2);
    Then(cfg, s1, Announce, []);
    Then(cfg, s, Lock, [Announce] + []);
  }

  /** A tick that sees the portal's "nothing to install" for the commit the probe announced refuses that commit from
      then on, and no other tick refuses anything. */
  lemma {:induction false} TickRefuses(cfg: Config, s: State)
    requires s.prompt.pc.Locking? && !(s.prompt.phase.Requested? && s.now >= s.prompt.requestedAt + cfg.timeout)
    ensures Feasible(cfg, s, Inputs(FINISHING))
    ensures var z, p := After(cfg, s, Inputs(FINISHING)).prompt, s.prompt;
            if p.phase.Empty? && p.news && p.announced != "" && s.available == Some(p.announced)
            then z.refused == p.announced && z.refusedAt == s.now
            else z.refused == p.refused && z.refusedAt == p.refusedAt
  {
    hide Feasible, After;
    var s1 := DoLock(cfg, s);
    var s2 := DoAnnounce(s1);
    Nothing(cfg, s2);
    Then(cfg, s1, Announce, []);
    Then(cfg, s, Lock, [Announce] + []);
  }

  /** A tick that finds the request unanswered for too long says so. */
  lemma {:induction false} TickTimesOut(cfg: Config, s: State)
    requires s.prompt.pc.Locking? && s.prompt.phase.Requested? && s.now >= s.prompt.requestedAt + cfg.timeout
    ensures DoInput(cfg, s, Lock).prompt.phase.Failed? && DoInput(cfg, s, Lock).prompt.news
  {
  }

  // ---- the portal ----

  /** The portal's verdict becomes the phase, is news until the next tick, and ends the deploy. */
  lemma {:induction false} VerdictShows(cfg: Config, s: State, v: Phase)
    requires Enabled(s, LoopStep(OnTerminal(v)))
    ensures var z := Step(cfg, s, LoopStep(OnTerminal(v)));
            && z.prompt.phase == v && z.prompt.news && !z.loop.updating
            && Count(z.portal.inFlight, z.loop.monitor.value) == Count(s.portal.inFlight, z.loop.monitor.value) - 1
  {
  }

  /** A press of Update now is recorded at once and becomes consent for the loop. */
  lemma {:induction false} PressAsks(cfg: Config, s: State)
    requires s.prompt.pc.Free?
    ensures var press: seq<InputAction> := [PressUpdate] + ([Request] + ([Ask] + []));
            && Feasible(cfg, s, Inputs(press))
            && var z := After(cfg, s, Inputs(press));
               && z.prompt.phase.Requested? && z.prompt.requestedAt == s.now && z.loop.confirm && z.prompt.pc.Free?
               && z.past.presses == s.past.presses + 1
  {
    hide Feasible, After;
    var s1 := WithPc(Pressed(s), Requesting(false));
    var s2 := DoRequest(s1);
    var s3 := WithPc(s2.(loop := s2.loop.(confirm := true)), Free);
    Nothing(cfg, s3);
    Then(cfg, s2, Ask, []);
    Then(cfg, s1, Request, [Ask] + []);
    Then(cfg, s, PressUpdate, [Request] + ([Ask] + []));
  }

  /** Consent, or in auto mode an announcement, makes the loop call the portal on its next turn unless a deploy is
      under way; in notify mode an announcement alone does not. */
  lemma {:induction false} TurnCalls(cfg: Config, s: State)
    requires s.loop.pc.Turning? && !s.loop.rebuild
    ensures var z := DoLoop(cfg, s, TakeConfirm);
            && z.loop.pc.Deciding? && !z.loop.confirm
            && (DoLoop(cfg, z, Decide).loop.pc.Calling? <==>
                  !s.loop.updating && (s.loop.want || s.loop.confirm))
  {
  }

  lemma {:induction false} AnnouncementAsks(cfg: Config, s: State, commit: string)
    requires s.loop.pc.Pumping?
    ensures var z := DoLoop(cfg, s, OnAvailable(commit));
            if cfg.auto then z.loop.want == (s.loop.want || !s.loop.updating) && z.available == s.available
            else z.available == Some(commit) && z.loop == s.loop
  {
  }

  /** What comes of a call: the portal's refusal is shown as blocked or failed, a lost reply as failed, and a deploy
      it took on runs, alone or beside one whose reply was lost. A call that could not be made changes nothing but
      that another may be tried. */
  lemma {:induction false} CallAnswers(cfg: Config, s: State, outcome: Outcome)
    requires CanLoop(s, CallReturns(outcome))
    ensures var z, m := DoLoop(cfg, s, CallReturns(outcome)), s.loop.monitor.value;
            && z.loop.pc.Pumping? && z.loop.monitor == s.loop.monitor
            && z.prompt.phase == (match outcome
                                  case NotSent => s.prompt.phase
                                  case Accepted => s.prompt.phase
                                  case Rejected(blocked) => if blocked then Blocked else Failed
                                  case ReplyLost => Failed)
            && z.prompt.news == (outcome.Rejected? || outcome.ReplyLost? || s.prompt.news)
            && z.loop.updating == (outcome.Accepted? && s.loop.updating)
            && Count(z.portal.inFlight, m)
               == Count(s.portal.inFlight, m) + (if outcome.Accepted? || outcome.ReplyLost? then 1 else 0)
            && Count(z.portal.lost, m) == Count(s.portal.lost, m) + (if outcome.ReplyLost? then 1 else 0)
            && z.past.updates == s.past.updates + (if outcome.NotSent? then 0 else 1)
  {
  }

  /** A press of Check starts a probe unless one is about; without a probe to ask it is a press of Update now, and
      while a deploy is asked for or done it does nothing. */
  lemma {:induction false} PressChecks(cfg: Config, s: State)
    requires s.prompt.pc.Free?
    ensures var z := DoInput(cfg, s, PressCheck);
            if !cfg.probing then z == DoInput(cfg, s, PressUpdate)
            else if s.prompt.phase.Requested? || s.prompt.phase.Done? then z == Pressed(s)
            else
              && z.prompt.phase.Checking? && !z.prompt.news && CanInput(z.prompt, Kick)
              && var y := DoInput(cfg, z, Kick);
                 && y.prompt.phase.Checking? && y.prompt.pc.Free? && y.prompt.forUser
                 && y.prompt.probe == if s.prompt.probe.NoProbe? then Probing else s.prompt.probe
  {
  }

  /** The first tick of a launch starts a probe, and no later tick does. */
  lemma {:induction false} LaunchProbes(cfg: Config, s: State)
    requires s.prompt.pc.Free?
    ensures var z := DoInput(cfg, s, TickStart);
            && z.prompt.pc.Polling? && (cfg.probing ==> z.prompt.launched)
            && z.prompt.probe == if cfg.probing && !s.prompt.launched && s.prompt.probe.NoProbe? then Probing
                                 else s.prompt.probe
  {
  }

  lemma {:induction false} LaunchedStays(cfg: Config, s: State, ls: seq<Label>)
    requires Feasible(cfg, s, ls) && s.prompt.launched
    ensures After(cfg, s, ls).prompt.launched
    decreases |ls|
  {
    hide DoInput, DoLoop;
    if ls != [] {
      match ls[0] {
        case InputStep(a) => InputStaysLaunched(cfg, s, a);
        case LoopStep(a) => LoopStaysLaunched(cfg, s, a);
        case _ =>
      }
      LaunchedStays(cfg, Step(cfg, s, ls[0]), ls[1..]);
    }
  }

  lemma {:induction false} InputStaysLaunched(cfg: Config, s: State, a: InputAction)
    requires CanInput(s.prompt, a) && s.prompt.launched
    ensures DoInput(cfg, s, a).prompt.launched
  {
  }

  lemma {:induction false} LoopStaysLaunched(cfg: Config, s: State, a: LoopAction)
    requires CanLoop(s, a)
    ensures DoLoop(cfg, s, a).prompt.launched == s.prompt.launched
  {
    hide ReconnectDelay;
  }

  /** Word that the deploy is running puts its timeout off. */
  lemma {:induction false} RunningPutsOff(cfg: Config, s: State)
    requires s.loop.pc.Pumping?
    ensures DoLoop(cfg, s, OnRunning)
            == if s.prompt.phase.Requested? then s.(prompt := s.prompt.(requestedAt := s.now)) else s
  {
  }

  /** Consent is not lost on the way: whatever happens to the link, a press stands until the loop takes it up, and
      what it took up until it decides. */
  lemma {:induction false} ConsentStays(cfg: Config, s: State, l: Label)
    requires Enabled(s, l)
    ensures s.loop.confirm && l != LoopStep(TakeConfirm) ==> Step(cfg, s, l).loop.confirm
    ensures s.loop.want && l != LoopStep(Decide) ==> Step(cfg, s, l).loop.want
    ensures l == LoopStep(Decide) && s.loop.updating ==> Step(cfg, s, l).loop.want == s.loop.want
  {
    hide DoInput, DoLoop;
    match l
    case InputStep(a) => InputFrame(cfg, s, a); InputLeavesConsent(cfg, s, a);
    case LoopStep(a) => LoopLeavesConsent(cfg, s, a);
    case _ =>
  }

  lemma {:induction false} InputLeavesConsent(cfg: Config, s: State, a: InputAction)
    requires CanInput(s.prompt, a)
    ensures var k := DoInput(cfg, s, a).loop; (s.loop.confirm ==> k.confirm) && k.want == s.loop.want
  {
  }

  lemma {:induction false} LoopLeavesConsent(cfg: Config, s: State, a: LoopAction)
    requires CanLoop(s, a)
    ensures s.loop.confirm && a != TakeConfirm ==> DoLoop(cfg, s, a).loop.confirm
    ensures s.loop.want && a != Decide ==> DoLoop(cfg, s, a).loop.want
    ensures a == Decide && s.loop.updating ==> DoLoop(cfg, s, a).loop.want == s.loop.want
  {
    hide ReconnectDelay, ShouldGiveUp;
  }

  /** A restart of the portal gets the monitor rebuilt before anything else is done. */
  lemma {:induction false} OwnerRebuilds(cfg: Config, s: State, ok: bool)
    requires s.loop.pc.Pumping?
    ensures var z := DoLoop(cfg, s, OnOwnerChanged);
            && z == s.(loop := s.loop.(rebuild := true))
            && var y := DoLoop(cfg, z, PumpOk);
               && CanLoop(y, Rebuild(ok)) && !CanLoop(y, TakeConfirm)
               && var x := DoLoop(cfg, y, Rebuild(ok)).loop;
                  && !x.rebuild && !x.updating && x.failures == s.loop.failures
                  && x.monitor == (if ok then Some(s.portal.made) else None)
                  && x.pc == if ok then Pumping else Retrying
  {
  }
}
