/** How the debugger session connects: a caller that finds no socket opens one, hands it to a reader and re-arms
    it; its own command goes out after that; and a session that has been stopped opens none. */
module CdpReconnect {
  import opened Options
  import opened CdpSession
  import opened CdpRuns
  import opened CdpDelivery

  /** Nobody is connecting and the last reader is done. */
  predicate Disconnected(k: Link) {
    !k.stopping && k.fd.None? && k.reconnectMu.None? && k.sendMu.None? && k.arming.None? && Joinable(k)
  }

  /** The steps of a reconnection up to the start of the re-arm, on a descriptor the system gives. */
  function Reconnecting(t: Tid, fd: Fd): seq<Label> {
    [CallerStep(t, Enter)] + ([CallerStep(t, TakeTurn)] + Opening(t, fd))
  }

  /** `t` has published `fd` as the next socket, which a new reader polls, and starts to re-arm it. */
  predicate Opened(s: State, z: State, t: Tid, fd: Fd) {
    && z.link.fd == Some(fd) && z.link.epoch == s.link.epoch + 1 && !z.link.armed
    && z.link.os == s.link.os[fd := Session(z.link.epoch)]
    && z.link.readers == s.link.readers[z.link.epoch := Polling]
    && z.link.arming == Some(t) && z.link.reconnectMu == Some(t)
    && At(z, t).pc == Arming && At(z, t).arm == Some(ArmPage) && At(z, t).own == At(s, t).own
    && z.req == s.req && z.sticky == s.sticky
  }

  /** A caller that finds no socket publishes a new one, hands it to a reader and starts to re-arm it. */
  lemma {:induction false} Reconnects(s: State, t: Tid, fd: Fd)
    requires At(s, t).pc.Entering? && At(s, t).arm.None? && Disconnected(s.link) && fd !in s.link.os
    ensures Feasible(s, Reconnecting(t, fd)) && Opened(s, After(s, Reconnecting(t, fd)), t, fd)
  {
    hide Feasible, After;
    var s1 := DoEnter(s, t);
    var s2 := Step(s1, CallerStep(t, TakeTurn));
    Opens(s2, t, fd);
    Prepend(s1, CallerStep(t, TakeTurn), Opening(t, fd));
    Prepend(s, CallerStep(t, Enter), [CallerStep(t, TakeTurn)] + Opening(t, fd));
  }

  function Opening(t: Tid, fd: Fd): seq<Label> {
    [CallerStep(t, CheckAgain)] + ([CallerStep(t, Join)] + Handing(t, fd))
  }

  function Handing(t: Tid, fd: Fd): seq<Label> {
    [CallerStep(t, Connect(fd))] + ([CallerStep(t, Publish)] + ([CallerStep(t, Spawn)] + []))
  }

  lemma {:induction false} Opens(s: State, t: Tid, fd: Fd)
    requires At(s, t).pc.CheckingAgain? && Disconnected(s.link.(reconnectMu := None))
    requires s.link.reconnectMu == Some(t) && fd !in s.link.os
    ensures Feasible(s, Opening(t, fd)) && Opened(s, After(s, Opening(t, fd)), t, fd)
  {
    hide Feasible, After;
    var s1 := DoCheckAgain(s, t);
    var s2 := Step(s1, CallerStep(t, Join));
    Hands(s2, t, fd);
    Prepend(s1, CallerStep(t, Join), Handing(t, fd));
    Prepend(s, CallerStep(t, CheckAgain), [CallerStep(t, Join)] + Handing(t, fd));
  }

  lemma {:induction false} Hands(s: State, t: Tid, fd: Fd)
    requires At(s, t).pc.Connecting? && !s.link.stopping && s.link.sendMu.None?
    requires s.link.reconnectMu == Some(t) && fd !in s.link.os
    ensures Feasible(s, Handing(t, fd)) && Opened(s, After(s, Handing(t, fd)), t, fd)
  {
    hide Feasible, After;
    var s3 := Step(s, CallerStep(t, Connect(fd)));
    var s4 := DoPublish(s3, t);
    var s5 := DoSpawn(s4, t);
    Nothing(s5);
    Prepend(s4, CallerStep(t, Spawn), []);
    Prepend(s3, CallerStep(t, Publish), [CallerStep(t, Spawn)] + []);
    Prepend(s, CallerStep(t, Connect(fd)), [CallerStep(t, Publish)] + ([CallerStep(t, Spawn)] + []));
  }

  // ---- the caller's own command ----

  /** A thread that is not re-arming is about its own command. */
  predicate Owns(s: State, t: Tid) {
    At(s, t).arm.None? ==> At(s, t).job == At(s, t).own
  }

  predicate Begins(a: Action) {
    a.CallRequest? || a.CallAgent? || a.CallScript? || a.CallGrant? || a.ReadSticky?
  }

  lemma {:induction false} StepOwns(s: State, l: Label, t: Tid)
    requires Enabled(s, l) && Owns(s, t)
    ensures Owns(Step(s, l), t)
    ensures !(l.CallerStep? && l.t == t && Begins(l.a)) ==> At(Step(s, l), t).own == At(s, t).own
  {
    hide Call, Read;
    match l
    case CallerStep(u, a) => if u == t { CallOwns(s, t, a); } else { OthersStay(s, u, a, t); }
    case ReaderStep(e, a) => ReadersStay(s, e, a);
    case _ =>
  }

  lemma {:induction false} CallOwns(s: State, t: Tid, a: Action)
    requires CanCall(s, t, a) && Owns(s, t)
    ensures Owns(Call(s, t, a), t)
    ensures !Begins(a) ==> At(Call(s, t, a), t).own == At(s, t).own
  {
  }

  lemma {:induction false} OthersStay(s: State, u: Tid, a: Action, t: Tid)
    requires CanCall(s, u, a) && u != t
    ensures At(Call(s, u, a), t) == At(s, t)
  {
  }

  lemma {:induction false} ReadersStay(s: State, e: Epoch, a: ReaderAction)
    requires CanRead(s, e, a)
    ensures var z := Read(s, e, a);
            z.threads == s.threads && z.link.stopping == s.link.stopping && z.link.epoch == s.link.epoch
  {
  }

  /** Whatever goes on in between, a re-arm of a socket included, the command a thread sends for its caller is the
      one it was called with. */
  lemma {:induction false} SendsItsOwn(s: State, ls: seq<Label>, t: Tid)
    requires Feasible(s, ls) && Owns(s, t)
    requires forall l :: l in ls && l.CallerStep? && l.t == t ==> !Begins(l.a)
    ensures Owns(After(s, ls), t) && At(After(s, ls), t).own == At(s, t).own
    decreases |ls|
  {
    hide Step, Enabled, Owns;
    if ls != [] {
      assert ls[0] in ls && forall l :: l in ls[1..] ==> l in ls;
      StepOwns(s, ls[0], t);
      SendsItsOwn(Step(s, ls[0]), ls[1..], t);
    }
  }

  /** The end of a re-arm: the socket is open to all, and the thread goes on with the command it was called with. */
  lemma {:induction false} RearmEnds(s: State, t: Tid)
    requires At(s, t).pc.Arming? && At(s, t).arm == Some(ArmEnd)
    ensures Enabled(s, CallerStep(t, ArmNext))
    ensures var z := Step(s, CallerStep(t, ArmNext));
            && z.link == s.link.(arming := None, armed := true, reconnectMu := None)
            && At(z, t).job == At(s, t).own && At(z, t).arm.None?
            && At(z, t).pc == if s.link.fd.Some? then Admitted else Idle
  {
  }

  // ---- stopping ----

  /** On a session that has been stopped nobody is let through any more but the thread that ends a re-arm, and no
      further socket is published. */
  lemma {:induction false} StopAdmitsNone(s: State, l: Label, t: Tid)
    requires Enabled(s, l) && s.link.stopping
    ensures var z := Step(s, l);
            && z.link.stopping && z.link.epoch == s.link.epoch
            && (At(z, t).pc.Admitted? && !At(s, t).pc.Admitted? ==>
                  l == CallerStep(t, ArmNext) && At(s, t).arm == Some(ArmEnd))
  {
    hide Call, Read;
    match l
    case CallerStep(u, a) => StoppedLink(s, u, a); if u == t { StoppedCall(s, t, a); } else { OthersStay(s, u, a, t); }
    case ReaderStep(e, a) => ReadersStay(s, e, a);
    case _ =>
  }

  lemma {:induction false} StoppedLink(s: State, t: Tid, a: Action)
    requires CanCall(s, t, a) && s.link.stopping
    ensures Call(s, t, a).link.stopping && Call(s, t, a).link.epoch == s.link.epoch
  {
  }

  lemma {:induction false} StoppedCall(s: State, t: Tid, a: Action)
    requires CanCall(s, t, a) && s.link.stopping
    ensures At(Call(s, t, a), t).pc.Admitted? && !At(s, t).pc.Admitted? ==>
              a == ArmNext && At(s, t).arm == Some(ArmEnd)
  {
  }

  lemma {:induction false} StoppedStaysShut(s: State, ls: seq<Label>)
    requires Feasible(s, ls) && s.link.stopping
    ensures After(s, ls).link.stopping && After(s, ls).link.epoch == s.link.epoch
    decreases |ls|
  {
    hide Step, Enabled;
    if ls != [] {
      StopAdmitsNone(s, ls[0], 0);
      StoppedStaysShut(Step(s, ls[0]), ls[1..]);
    }
  }

  /** Stopping shuts down the socket there is. */
  lemma {:induction false} StopShuts(s: State)
    ensures Enabled(s, Stop)
    ensures var z := Step(s, Stop);
            && z.link == s.link.(stopping := true) && z.req == s.req
            && z.past.shut == s.past.shut + if s.link.fd.Some? then {s.link.epoch} else {}
  {
  }
}
