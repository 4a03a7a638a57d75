/** The comment in `ensure_connected` that no request reaches a new target ahead of the sticky user agent
    does not hold: `send_text` checks only that some socket is open. The run below lets a request through
    at the first socket, replaces the socket, and writes the request to the second before its re-arm. */
module CdpEarlyWrite {
  import opened Options
  import opened CdpSession
  import opened CdpSafety
  import opened CdpReplies
  import opened CdpSticky
  import opened CdpRuns

  lemma {:induction false} Does(s: State, t: Tid, a: Action)
    requires Reached(s) && CanCall(s, t, a)
    ensures Reached(Call(s, t, a))
  {
    Take(s, CallerStep(t, a));
  }

  /** Thread `t`, about to send something with no socket open, takes its turn to reconnect, */
  lemma {:induction false} TakesTurn(s: State, t: Tid) returns (z: State)
    requires Reached(s) && At(s, t).pc.Entering? && At(s, t).arm.None?
    requires !s.link.stopping && s.link.fd.None? && s.link.arming.None? && s.link.reconnectMu.None?
    ensures Reached(z) && z == Go(WithLink(s, s.link.(reconnectMu := Some(t))), t, Joining)
  {
    Does(s, t, Enter);
    var s1 := Go(s, t, AwaitTurn);
    Does(s1, t, TakeTurn);
    var s2 := Go(WithLink(s1, s.link.(reconnectMu := Some(t))), t, CheckingAgain);
    Does(s2, t, CheckAgain);
    z := Go(s2, t, Joining);
    assert z.threads == s.threads[t := At(s, t).(pc := Joining)];
  }

  /** connects, and publishes descriptor 5. */
  lemma {:induction false} Publishes(s: State, t: Tid) returns (z: State)
    requires Reached(s) && At(s, t).pc.Joining?
    requires !s.link.stopping && s.link.sendMu.None? && 5 !in s.link.os && Joinable(s.link)
    ensures Reached(z) && z.sticky == s.sticky && z.req == s.req
    ensures z.past == s.past.(due := {PageEnable}, atPublish := s.sticky.scripts)
    ensures z.link == Published(s.link.(handle := None, os := s.link.os[5 := Session(s.link.epoch + 1)]), t, 5)
    ensures z.threads == s.threads[t := At(s, t).(pc := Spawning, arm := Some(ArmPage))]
  {
    Does(s, t, Join);
    var s1 := Go(WithLink(s, s.link.(handle := None)), t, Connecting);
    Does(s1, t, Connect(5));
    var s2 := Go(WithLink(s1, s1.link.(os := s.link.os[5 := Session(s.link.epoch + 1)])), t, Publishing(5));
    Does(s2, t, Publish);
    z := DoPublish(s2, t);
  }

  /** The request admitted to `t` reaches the socket, */
  lemma {:induction false} Writes(s: State, t: Tid) returns (z: State)
    requires Reached(s) && At(s, t).pc.Admitted? && s.link.sendMu.None? && s.link.fd.Some?
    ensures Reached(z) && z.sticky == s.sticky && z.req.slots == s.req.slots[s.req.nextId + 1 := Slot(false, None)]
    ensures z.req.nextId == s.req.nextId + 1 && z.req.pending == s.req.pending + {z.req.nextId}
    ensures z.link == s.link.(sendMu := Some(ByThread(t)))
    ensures z.threads == s.threads[t := At(s, t).(pc := Writing(z.req.nextId, s.link.fd.value))]
    ensures z.past.issued == s.past.issued && z.past.shut == s.past.shut
    ensures Write(OwnerOf(s.link.os, s.link.fd.value),
                  if At(s, t).arm.Some? then Rearm else Request(At(s, t).admitted), s.link.armed) in z.past.wire
  {
    Does(s, t, Register);
    var s1 := DoRegister(s, t);
    Does(s1, t, SendStart);
    var s2 := DoSendStart(s1, t);
    Does(s2, t, SendChunk);
    z := DoSendChunk(s2, t);
  }

  /** and is answered. */
  lemma {:induction false} Answered(s: State, t: Tid) returns (z: State)
    requires Reached(s) && At(s, t).pc.Writing? && At(s, t).pc.id in s.req.pending && At(s, t).arm.Some?
    requires s.link.epoch in s.link.readers && s.link.readers[s.link.epoch] == Polling
    ensures Reached(z) && z.sticky == s.sticky
    ensures z.link == s.link.(sendMu := None) && z.req.pending == s.req.pending - {At(s, t).pc.id}
    ensures z.threads == s.threads[t := At(s, t).(pc := Arming)]
    ensures z.past == s.past.(issued := s.past.issued + {(s.link.epoch, At(s, t).job)},
                              sentAt := s.past.sentAt[At(s, t).pc.id := s.link.epoch])
  {
    var id, e, body := At(s, t).pc.id, s.link.epoch, Body("", false);
    Does(s, t, SendEnd(true));
    var s1 := DoSendEnd(s, t, true);
    Take(s1, ReaderStep(e, Receive(id, body)));
    var s2 := DoReceive(s1, e, id, body);
    Take(s2, ReaderStep(e, Deliver));
    var s3 := DoDeliver(s2, e);
    assert s3.link.readers == s.link.readers;
    z := Returns(s3, t);
  }

  lemma {:induction false} Returns(s: State, t: Tid) returns (z: State)
    requires Reached(s) && At(s, t).pc.Waiting? && Done(s.req, At(s, t).pc.id) && At(s, t).arm.Some?
    ensures Reached(z) && z.sticky == s.sticky && z.link == s.link && z.past == s.past
    ensures z.req.pending == s.req.pending - {At(s, t).pc.id}
    ensures z.threads == s.threads[t := At(s, t).(pc := Arming)]
  {
    Does(s, t, Wake);
    var s1 := DoWake(s, t);
    Does(s1, t, Forget);
    z := DoForget(s1, t);
  }

  /** With nothing sticky stored, the re-arm ends after `Page.enable`. */
  lemma {:induction false} FinishesArming(s: State, t: Tid) returns (z: State)
    requires Reached(s) && At(s, t).pc.Arming? && At(s, t).arm == Some(ArmAgent)
    requires s.sticky == Sticky("", [], ("", "")) && s.link.fd.Some?
    ensures Reached(z) && z.sticky == s.sticky && z.req == s.req
    ensures z.link == s.link.(arming := None, armed := true, reconnectMu := None)
    ensures z.threads == s.threads[t := Thread(Admitted, At(s, t).own, At(s, t).own, None, s.link.epoch)]
    ensures z.past.issued == s.past.issued && z.past.shut == s.past.shut
  {
    Does(s, t, ArmNext);
    var s1 := ArmSkip(s, t, ArmRead);
    Does(s1, t, ArmNext);
    var s2 := ArmSkip(Due(s1, ScriptsOf([])), t, ArmScripts([]));
    z := EndsArming(s2, t);
  }

  lemma {:induction false} EndsArming(s: State, t: Tid) returns (z: State)
    requires Reached(s) && At(s, t).pc.Arming? && At(s, t).arm == Some(ArmScripts([]))
    requires s.sticky.grant == ("", "") && s.link.fd.Some?
    ensures Reached(z) && z.sticky == s.sticky && z.req == s.req && z.past == s.past
    ensures z.link == s.link.(arming := None, armed := true, reconnectMu := None)
    ensures z.threads == s.threads[t := Thread(Admitted, At(s, t).own, At(s, t).own, None, s.link.epoch)]
  {
    Does(s, t, ArmNext);
    var s1 := ArmSkip(s, t, ArmGrant);
    Does(s1, t, ArmNext);
    var s2 := ArmSkip(s1, t, ArmEnd);
    Does(s2, t, ArmNext);
    z := DoArmEnd(s2, t);
  }

  /** Thread 0 opens the first socket for a request of its own and is let through to it. */
  lemma {:induction false} FirstSocket() returns (s: State)
    ensures Reached(s) && s.sticky == Sticky("", [], ("", ""))
    ensures s.link == Link(false, Some(5), true, None, Some(1), None, None, map[1 := Polling], map[5 := Session(1)], 1)
    ensures s.threads == map[0 := Thread(Admitted, Other(""), Other(""), None, 1)]
    ensures s.past.issued == {(1, PageEnable)} && s.past.shut == {} && s.req.pending == {}
  {
    assert Reached(Init()) by {
      assert Feasible(Init(), []) && After(Init(), []) == Init();
    }
    Does(Init(), 0, CallRequest(""));
    var s1 := TakesTurn(Ask(Init(), 0, Other("")), 0);
    var s2 := Publishes(s1, 0);
    var s3 := SendsFirst(s2);
    var s4 := Answered(s3, 0);
    s := FinishesArming(s4, 0);
  }

  lemma {:induction false} SendsFirst(s: State) returns (z: State)
    requires Reached(s) && At(s, 0).pc.Spawning? && At(s, 0).arm == Some(ArmPage)
    requires s.link.fd.Some? && s.link.arming == Some(0) && !s.link.stopping && s.link.sendMu.None?
    ensures Reached(z) && z.sticky == s.sticky && z.past.issued == s.past.issued && z.past.shut == s.past.shut
    ensures z.req.pending == s.req.pending + {z.req.nextId}
    ensures var e := s.link.epoch;
            z.link == s.link.(readers := s.link.readers[e := Polling], handle := Some(e), sendMu := Some(ByThread(0)))
    ensures z.threads == s.threads[0 := Thread(Writing(z.req.nextId, s.link.fd.value), PageEnable, At(s, 0).own,
                                               Some(ArmAgent), s.link.epoch)]
  {
    Does(s, 0, Spawn);
    var s1 := DoSpawn(s, 0);
    Does(s1, 0, ArmNext);
    var s2 := ArmAsk(s1, 0, PageEnable, ArmAgent);
    Does(s2, 0, Enter);
    z := Writes(Admit(s2, 0), 0);
  }

  /** The first socket ends and its reader with it. */
  lemma {:induction false} SocketEnds(s: State) returns (z: State)
    requires Reached(s) && s.link.readers == map[1 := Polling] && s.link.epoch == 1
    requires s.link.fd == Some(5) && s.link.os == map[5 := Session(1)] && s.link.sendMu.None?
    requires s.req.pending == {}
    ensures Reached(z) && z.sticky == s.sticky && z.threads == s.threads
    ensures z.link == s.link.(fd := None, armed := false, readers := map[1 := Finished], os := map[])
    ensures z.past == s.past.(shut := s.past.shut + {1})
  {
    Take(s, ReaderStep(1, Quit));
    var s1 := WithReader(s, 1, Closing);
    Take(s1, ReaderStep(1, Close));
    var s2 := DoClose(s1, 1);
    z := ReaderExits(s2);
  }

  lemma {:induction false} ReaderExits(s: State) returns (z: State)
    requires Reached(s) && s.link.readers == map[1 := Closed] && s.req.pending == {}
    ensures Reached(z) && z.sticky == s.sticky && z.threads == s.threads && z.past == s.past
    ensures z.link == s.link.(readers := map[1 := Finished])
  {
    Take(s, ReaderStep(1, TakeAll));
    var s1 := WithReader(s, 1, Marking({}));
    Take(s1, ReaderStep(1, Exit));
    z := WithReader(s1, 1, Finished);
  }

  /** A write of an ordinary request on the open, unarmed second socket, with a user agent stored and not
      sent there: the hypothesis of `EarlyWritesAreStale` cannot be dropped. */
  lemma {:induction false} EarlyWrite() returns (s: State, w: Write)
    ensures Reached(s) && w in s.past.wire
    ensures w == Write(Session(2), Request(1), false) && s.link.epoch == 2 && 2 !in s.past.shut
    ensures Stored(s.sticky, Agent("x")) && (2, Agent("x")) !in s.past.issued
  {
    var s1 := FirstSocket();
    var s2 := SocketEnds(s1);
    Does(s2, 1, CallAgent("x"));
    var s3 := Go(s2.(sticky := s2.sticky.(ua := "x")), 1, ReadAgent);
    Does(s3, 1, ReadSticky);
    var s4 := Ask(s3, 1, Agent("x"));
    var s5 := TakesTurn(s4, 1);
    var s6 := Publishes(s5, 1);
    s := Writes(s6, 0);
    w := Write(Session(2), Request(1), false);
  }

  // ---- who can write early ----

  predicate OwnSteps(ls: seq<Label>, t: Tid) {
    forall l :: l in ls ==> l.CallerStep? && l.t == t
  }

  /** `t` is about to write to the socket that was open and unarmed in `s`, and still is. */
  predicate WritesUnarmed(s: State, z: State, t: Tid) {
    At(z, t).pc.Writing? && z.link.epoch == s.link.epoch && z.link.fd.Some? && !z.link.armed
  }

  ghost predicate CanWriteUnarmed(s: State, t: Tid) {
    exists ls: seq<Label> :: Feasible(s, ls) && OwnSteps(ls, t) && WritesUnarmed(s, After(s, ls), t)
  }

  /** `u` is re-arming the socket and `t` is not past its admission. */
  predicate Blocked(s: State, t: Tid, u: Tid) {
    && s.link.arming == Some(u) && u != t && s.link.reconnectMu == Some(u) && s.link.fd.Some? && !s.link.armed
    && var th := At(s, t);
       th.arm.None? && !Passed(th) && !BeforeArming(th.pc)
  }

  predicate BeforeArming(pc: Pc) {
    pc.CheckingAgain? || pc.Joining? || pc.Connecting? || pc.Publishing? || pc.Spawning? || pc.Arming?
  }

  lemma {:induction false} StaysBlocked(s: State, t: Tid, u: Tid, a: Action)
    requires Blocked(s, t, u) && CanCall(s, t, a)
    ensures Blocked(Call(s, t, a), t, u)
  {
  }

  lemma {:induction false} RunStaysBlocked(s: State, t: Tid, u: Tid, ls: seq<Label>)
    requires Blocked(s, t, u) && Feasible(s, ls) && OwnSteps(ls, t)
    ensures Blocked(After(s, ls), t, u)
    decreases |ls|
  {
    hide Blocked, Call;
    if ls != [] {
      assert ls[0] in ls;
      StaysBlocked(s, t, u, ls[0].a);
      RunStaysBlocked(Step(s, ls[0]), t, u, ls[1..]);
    }
  }

  lemma {:induction false} RegisteredCanWrite(s: State, t: Tid)
    requires s.link.fd.Some? && !s.link.armed && s.link.sendMu.None? && At(s, t).pc.Registered?
    ensures var ls := [CallerStep(t, SendStart)]; Feasible(s, ls) && WritesUnarmed(s, After(s, ls), t)
  {
    var ls := [CallerStep(t, SendStart)];
    assert ls[1..] == [] && Step(s, ls[0]) == DoSendStart(s, t);
  }

  lemma {:induction false} PassedCanWrite(s: State, t: Tid)
    requires s.link.fd.Some? && !s.link.armed && s.link.sendMu.None?
    requires At(s, t).pc.Admitted? || At(s, t).pc.Registered?
    ensures CanWriteUnarmed(s, t)
  {
    var ls := [CallerStep(t, SendStart)];
    if At(s, t).pc.Registered? {
      RegisteredCanWrite(s, t);
      assert OwnSteps(ls, t);
    } else {
      var all := [CallerStep(t, Register)] + ls;
      var z := DoRegister(s, t);
      RegisteredCanWrite(z, t);
      assert all[1..] == ls && Step(s, all[0]) == z;
      assert OwnSteps(all, t) && Feasible(s, all) && After(s, all) == After(z, ls);
    }
  }

  lemma {:induction false} ArmingBlocks(s: State, t: Tid)
    requires Reached(s) && s.link.fd.Some? && !s.link.armed && s.link.arming != Some(t) && !Passed(At(s, t))
    ensures s.link.arming.Some? && Blocked(s, t, s.link.arming.value)
  {
    ReachedHolds(s);
    assert ThreadOk(s.link, t, At(s, t));
    var u := s.link.arming.value;
    assert ThreadOk(s.link, u, At(s, u));
  }

  /** While a socket is being re-armed, another thread can go on to write to it exactly when it is already
      past its admission, */
  lemma {:induction false} EarlyWriteExactly(s: State, t: Tid)
    requires Reached(s) && s.link.fd.Some? && !s.link.armed && s.link.sendMu.None? && s.link.arming != Some(t)
    ensures CanWriteUnarmed(s, t) <==> At(s, t).pc.Admitted? || At(s, t).pc.Registered?
  {
    if At(s, t).pc.Admitted? || At(s, t).pc.Registered? {
      PassedCanWrite(s, t);
    } else if CanWriteUnarmed(s, t) {
      var ls: seq<Label> :| Feasible(s, ls) && OwnSteps(ls, t) && WritesUnarmed(s, After(s, ls), t);
      NotWriting(s, t);
      ArmingBlocks(s, t);
      RunStaysBlocked(s, t, s.link.arming.value, ls);
    }
  }

  lemma {:induction false} NotWriting(s: State, t: Tid)
    requires Reached(s) && s.link.sendMu.None?
    ensures !At(s, t).pc.Writing?
  {
    ReachedHolds(s);
    assert ThreadOk(s.link, t, At(s, t));
  }

  /** and that was at an earlier socket, or this one has been shut down. */
  lemma {:induction false} PassedEarlier(s: State, t: Tid)
    requires Reached(s) && s.link.fd.Some? && !s.link.armed && s.link.arming != Some(t)
    requires At(s, t).pc.Admitted? || At(s, t).pc.Registered?
    ensures At(s, t).admitted < s.link.epoch || s.link.epoch in s.past.shut
  {
    ReachedHolds(s);
    assert ThreadOk(s.link, t, At(s, t)) && AdmitOk(s, t);
  }
}
