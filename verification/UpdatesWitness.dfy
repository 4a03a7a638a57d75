/** Runs showing that the guarantees of self-update need the conditions they are stated with.

    A reply to `Update()` that is lost leaves a deploy running behind a tab that says Failed, so the next press
    starts a second one. The verdict of such a deploy can also arrive between the two sections of the fallback
    and be replaced. A portal that restarts and refuses the new monitor costs no attempt. */
module UpdatesWitness {
  import opened Options
  import opened Updates
  import opened UpdatesSafety
  import opened UpdatesRuns

  lemma {:induction false} FeasibleSnoc(cfg: Config, s: State, ls: seq<Label>, l: Label)
    requires Feasible(cfg, s, ls) && Enabled(After(cfg, s, ls), l)
    ensures Feasible(cfg, s, ls + [l]) && After(cfg, s, ls + [l]) == Step(cfg, After(cfg, s, ls), l)
    decreases |ls|
  {
    hide Step, Enabled;
    if ls == [] {
      assert ls + [l] == [l] && [l][1..] == [];
    } else {
      FeasibleSnoc(cfg, Step(cfg, s, ls[0]), ls[1..], l);
      assert (ls + [l])[1..] == ls[1..] + [l];
    }
  }

  lemma {:induction false} Take(cfg: Config, s: State, l: Label)
    requires Reached(cfg, s) && Enabled(s, l)
    ensures Reached(cfg, Step(cfg, s, l))
  {
    hide Step, Enabled;
    var ls: seq<Label> :| Feasible(cfg, Init(), ls) && After(cfg, Init(), ls) == s;
    FeasibleSnoc(cfg, Init(), ls, l);
  }

  lemma {:induction false} Launched(cfg: Config) returns (s: State)
    ensures Reached(cfg, s) && s.prompt == Init().prompt && s.available.None?
    ensures s.loop == Loop(Pumping, true, true, false, false, false, false, 0, 0, Some(0))
    ensures s.portal == Portal(1, map[], map[]) && s.past.events == [Connected(0)] && s.now == 0
  {
    assert Reached(cfg, Init()) by {
      assert Feasible(cfg, Init(), []) && After(cfg, Init(), []) == Init();
    }
    Take(cfg, Init(), LoopStep(Establish(true)));
    s := DoEstablish(Init(), true);
  }

  /** One press of Update now, up to the call the loop makes for it. */
  lemma {:induction false} PressAndCall(cfg: Config, s: State) returns (z: State)
    requires Reached(cfg, s) && s.prompt.pc.Free? && s.loop.pc.Pumping?
    requires !s.loop.updating && !s.loop.rebuild && !s.loop.want
    ensures Reached(cfg, z) && z.portal == s.portal && z.available == s.available
    ensures z.prompt == s.prompt.(phase := Requested, news := false, requestedAt := s.now)
    ensures z.loop == s.loop.(pc := Calling, confirm := false, updating := true)
  {
    Take(cfg, s, InputStep(PressUpdate));
    var s1 := WithPc(Pressed(s), Requesting(false));
    Take(cfg, s1, InputStep(Request));
    var s2 := DoRequest(s1);
    Take(cfg, s2, InputStep(Ask));
    var s3 := WithPc(s2.(loop := s2.loop.(confirm := true)), Free);
    z := Calls(cfg, s3);
  }

  lemma {:induction false} Calls(cfg: Config, s: State) returns (z: State)
    requires Reached(cfg, s) && s.loop.pc.Pumping? && s.loop.confirm
    requires !s.loop.updating && !s.loop.rebuild && !s.loop.want
    ensures Reached(cfg, z) && z.portal == s.portal && z.available == s.available && z.prompt == s.prompt
    ensures z.loop == s.loop.(pc := Calling, confirm := false, updating := true)
  {
    Take(cfg, s, LoopStep(PumpOk));
    var s1 := WithLoop(s, s.loop.(pc := Turning));
    Take(cfg, s1, LoopStep(TakeConfirm));
    var s2 := WithLoop(s1, s1.loop.(confirm := false, want := true, pc := Deciding));
    Take(cfg, s2, LoopStep(Decide));
    z := WithLoop(s2, s2.loop.(want := false, updating := true, pc := Calling));
  }

  /** The portal takes `n` calls and their replies are lost: the tab says Failed while the deploys run. */
  lemma {:induction false} LoseReplies(cfg: Config, n: nat) returns (s: State)
    ensures Reached(cfg, s) && s.prompt.probe.NoProbe? && s.prompt.pc.Free? && (n > 0 ==> s.prompt.phase.Failed?)
    ensures s.loop == Loop(Pumping, true, true, false, false, false, false, 0, 0, Some(0))
    ensures Count(s.portal.inFlight, 0) == n && Count(s.portal.lost, 0) == n
    decreases n
  {
    if n == 0 {
      s := Launched(cfg);
    } else {
      var s1 := LoseReplies(cfg, n - 1);
      var s2 := PressAndCall(cfg, s1);
      Take(cfg, s2, LoopStep(CallReturns(ReplyLost)));
      s := DoCall(s2, ReplyLost);
    }
  }

  /** After `n` lost replies the next press puts deploy n + 1 in flight on the same monitor: the bound of
      `OneInFlight` is reached for every number of lost replies. */
  lemma {:induction false} ManyInFlight(cfg: Config, n: nat) returns (s: State)
    ensures Reached(cfg, s) && Count(s.portal.inFlight, 0) == n + 1 && Count(s.portal.lost, 0) == n
  {
    var s1 := LoseReplies(cfg, n);
    var s2 := PressAndCall(cfg, s1);
    Take(cfg, s2, LoopStep(CallReturns(Accepted)));
    s := DoCall(s2, Accepted);
  }

  /** A press of Check, up to the unreadable probe being found so. */
  lemma {:induction false} CheckUnreadable(cfg: Config, s: State) returns (z: State)
    requires Reached(cfg, s) && cfg.probing && s.prompt.pc.Free? && s.prompt.phase.Failed? && s.prompt.probe.NoProbe?
    ensures Reached(cfg, z) && z.loop == s.loop && z.portal == s.portal
    ensures z.prompt.phase.Checking? && z.prompt.pc == Consuming(Unknown, "", true)
  {
    Take(cfg, s, InputStep(PressCheck));
    var s1 := DoPressCheck(cfg, Pressed(s));
    Take(cfg, s1, InputStep(Kick));
    var s2 := WithPrompt(s1, Kicked(s1.prompt).(forUser := true, pc := Free));
    Take(cfg, s2, ProbeEnds(Unknown, ""));
    var s3 := WithPrompt(s2, s2.prompt.(probe := Published(Unknown, "")));
    Take(cfg, s3, InputStep(TickStart));
    var s4 := DoTickStart(cfg, s3);
    Take(cfg, s4, InputStep(PollProbe));
    z := DoPollProbe(cfg, s4);
  }

  /** The verdict of the deploy whose reply was lost arrives between the two halves of the fallback, and
      the request the fallback records replaces `Done`. */
  lemma {:induction false} DoneOverwritten(cfg: Config) returns (s: State)
    requires cfg.probing
    ensures Reached(cfg, s) && s.prompt.phase.Done? && s.prompt.pc == Requesting(true)
    ensures Enabled(s, InputStep(Request)) && Step(cfg, s, InputStep(Request)).prompt.phase.Requested?
  {
    var s1 := LoseReplies(cfg, 1);
    var s2 := CheckUnreadable(cfg, s1);
    Take(cfg, s2, InputStep(ReadAnnounced));
    var s3 := DoReadAnnounced(cfg, s2);
    Take(cfg, s3, InputStep(Settle));
    var s4 := DoSettle(s3);
    Take(cfg, s4, LoopStep(OnTerminal(Done)));
    s := DoTerminal(s4, Done);
  }

  /** A portal that keeps restarting and refusing the new monitor makes the loop drop its bus and reconnect
      any number of times, with no wait in between; none of them counts towards giving up. */
  lemma {:induction false} RebuildsUncounted(cfg: Config, n: nat) returns (s: State)
    ensures Reached(cfg, s) && s.loop.pc.Pumping? && s.loop.running && s.loop.inLoop && s.loop.failures == 0
    ensures var es := s.past.events;
            && FailedRebuilds(es, 0, |es|) == n && Connects(es, 0, |es|) == n + 1
            && Drops(es, 0, |es|) == 0 && s.now == 0
    decreases n
  {
    if n == 0 {
      s := Launched(cfg);
      Counts([], Connected(0));
    } else {
      var s0 := RebuildsUncounted(cfg, n - 1);
      Take(cfg, s0, LoopStep(OnOwnerChanged));
      var s1 := WithLoop(s0, s0.loop.(rebuild := true));
      Take(cfg, s1, LoopStep(PumpOk));
      var s2 := WithLoop(s1, s1.loop.(pc := Turning));
      Take(cfg, s2, LoopStep(Rebuild(false)));
      var s3 := DoRebuild(s2, false);
      Take(cfg, s3, LoopStep(Establish(true)));
      s := DoEstablish(s3, true);
      Counts(s0.past.events, RebuildFailed);
      Counts(s3.past.events, Connected(0));
    }
  }

  lemma {:induction false} Counts(es: seq<Event>, e: Event)
    ensures var n, fs := |es|, es + [e];
            && Connects(fs, 0, n + 1) == Connects(es, 0, n) + One(e.Connected?)
            && Drops(fs, 0, n + 1) == Drops(es, 0, n) + One(e.Dropped?)
            && FailedRebuilds(fs, 0, n + 1) == FailedRebuilds(es, 0, n) + One(e.RebuildFailed?)
  {
    SamePrefix(es, es + [e], |es|);
  }

  lemma {:induction false} SamePrefix(es: seq<Event>, fs: seq<Event>, j: nat)
    requires j <= |es| <= |fs| && fs[..|es|] == es
    ensures Connects(fs, 0, j) == Connects(es, 0, j) && Drops(fs, 0, j) == Drops(es, 0, j)
    ensures FailedRebuilds(fs, 0, j) == FailedRebuilds(es, 0, j)
    decreases j
  {
    if j > 0 {
      SamePrefix(es, fs, j - 1);
      assert fs[j - 1] == fs[..|es|][j - 1];
    }
  }
}
