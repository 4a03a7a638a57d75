/** The connection of the debugger session, over every step.

    `Connection` says who holds `reconnect_mu_`, `send_mu_` and the arming identity (`ThreadOk`), that the
    readers of all sockets but the latest have finished (`ReaderOk`), that the latest socket is open exactly
    until its reader reaches the section that closes it (`SocketOk`), that the session owns no other
    descriptor (`FdOk`), and which sockets have been shut down (`ShutOk`). Steps that leave the locks and the
    socket alone are disposed of together; the others get a lemma each. */
module CdpSafety {
  import opened Options
  import opened CdpSession

  // ---- the connection ----

  predicate HoldsTurn(th: Thread) {
    th.arm.Some? || th.pc.CheckingAgain? || th.pc.Joining? || th.pc.Connecting? || th.pc.Publishing?
  }

  predicate Shaped(th: Thread) {
    && (th.arm.Some? ==>
          !th.pc.Idle? && !th.pc.ReadAgent? && !th.pc.ReadGrant? && !th.pc.AwaitTurn? &&
          !th.pc.CheckingAgain? && !th.pc.Joining? && !th.pc.Connecting? && !th.pc.Publishing?)
    && (th.pc.Spawning? || th.pc.Arming? ==> th.arm.Some?)
  }

  /** The locks and the reconnect, as thread `t` in state `th` sees them. */
  predicate ThreadOk(k: Link, t: Tid, th: Thread) {
    && Shaped(th)
    && (HoldsTurn(th) <==> k.reconnectMu == Some(t))
    && (th.arm.Some? <==> k.arming == Some(t))
    && (th.pc.Writing? <==> k.sendMu == Some(ByThread(t)))
    && (th.pc.Writing? ==> k.fd == Some(th.pc.to))
    && (th.pc.Joining? || th.pc.Connecting? || th.pc.Publishing? ==> k.fd.None?)
    && (th.pc.Connecting? || th.pc.Publishing? ==> k.handle.None?)
    && (th.pc.Spawning? ==> k.epoch !in k.readers && k.handle.None?)
    && (th.pc.Publishing? ==> OwnerOf(k.os, th.pc.conn) == Session(k.epoch + 1))
  }

  predicate ReaderOk(k: Link, e: Epoch) {
    && (e in k.readers ==> 1 <= e <= k.epoch)
    && (e in k.readers && e < k.epoch ==> k.readers[e].Finished?)
    && (e in k.readers && k.readers[e].Ponging? <==> k.sendMu == Some(ByReader(e)))
  }

  /** The reader has not reached the section that closes the socket. */
  predicate HasOpen(r: Reader) {
    r.Polling? || r.Found? || r.Ponging? || r.Closing?
  }

  /** `spawning`: a socket is published and its reader not yet started. */
  predicate SocketOk(k: Link, spawning: bool) {
    && (k.epoch in k.readers ==> (HasOpen(k.readers[k.epoch]) <==> k.fd.Some?))
    && (k.epoch !in k.readers ==> (k.fd.Some? <==> spawning) && (k.epoch >= 1 ==> spawning))
    && (k.handle.Some? ==> k.handle.value == k.epoch && k.epoch in k.readers)
    && (k.handle.None? && k.epoch in k.readers ==> k.readers[k.epoch].Finished?)
    && (k.fd.Some? ==> (k.armed <==> k.arming.None?))
    && (k.arming.Some? ==> k.epoch >= 1)
    && (k.fd.Some? ==> OwnerOf(k.os, k.fd.value) == Session(k.epoch) && k.epoch >= 1)
  }

  predicate ReaderDue(s: State) {
    s.link.arming.Some? && At(s, s.link.arming.value).pc.Spawning?
  }

  /** The only descriptors the session holds are `fd_` and the one about to be published. */
  predicate FdOk(k: Link, f: Fd, publishing: Option<Fd>) {
    && (f in k.os ==> !k.os[f].Nobody?)
    && (OwnerOf(k.os, f).Session? ==> k.fd == Some(f) || publishing == Some(f))
  }

  function Unpublished(s: State): Option<Fd> {
    if s.link.reconnectMu.Some? && At(s, s.link.reconnectMu.value).pc.Publishing?
    then Some(At(s, s.link.reconnectMu.value).pc.conn) else None
  }

  predicate ShutOk(k: Link, shut: set<Epoch>, e: Epoch) {
    && (e in shut ==> 1 <= e <= k.epoch)
    && (1 <= e < k.epoch ==> e in shut)
    && (1 <= e == k.epoch && (k.fd.None? || k.stopping) ==> e in shut)
  }

  ghost predicate Connection(s: State) {
    && SocketOk(s.link, ReaderDue(s))
    && (forall t: Tid :: ThreadOk(s.link, t, At(s, t)))
    && (forall e: Epoch :: ReaderOk(s.link, e))
    && (forall f: Fd :: FdOk(s.link, f, Unpublished(s)))
    && (forall e: Epoch :: ShutOk(s.link, s.past.shut, e))
  }

  // Steps that touch neither the locks nor the socket.

  predicate Plain(pc: Pc) {
    !pc.CheckingAgain? && !pc.Joining? && !pc.Connecting? && !pc.Publishing? && !pc.Spawning? && !pc.Writing?
  }

  predicate QuietThread(th: Thread, th': Thread) {
    Plain(th.pc) && Plain(th'.pc) && th'.arm.Some? == th.arm.Some? && Shaped(th')
  }

  predicate QuietShut(s: State, z: State) {
    z.past.shut == s.past.shut || (s.link.fd.Some? && z.past.shut == s.past.shut + {s.link.epoch})
  }

  predicate QuietCall(s: State, z: State, t: Tid) {
    && z.link == s.link && QuietShut(s, z)
    && z.threads == s.threads[t := At(z, t)]
    && QuietThread(At(s, t), At(z, t))
  }

  lemma {:induction false} QuietCallKeeps(s: State, z: State, t: Tid)
    requires Connection(s) && QuietCall(s, z, t)
    ensures Connection(z)
  {
    assert ThreadOk(s.link, t, At(s, t));
    assert ShutOk(s.link, s.past.shut, s.link.epoch);
    assert SocketOk(s.link, ReaderDue(s));
    forall u: Tid ensures ThreadOk(z.link, u, At(z, u)) {
      assert ThreadOk(s.link, u, At(s, u));
    }
    forall e: Epoch ensures ShutOk(z.link, z.past.shut, e) {
      assert ShutOk(s.link, s.past.shut, e);
    }
    assert Unpublished(z) == Unpublished(s);
  }

  predicate IsQuiet(a: Action) {
    !a.TakeTurn? && !a.CheckAgain? && !a.Join? && !a.ConnectFails? && !a.Connect? && !a.Publish? && !a.Spawn? &&
    !a.ArmNext? && !a.SendStart? && !a.SendEnd? && !a.SendChunk?
  }

  predicate IsSetup(a: Action) {
    a.CallRequest? || a.CallAgent? || a.CallScript? || a.CallGrant? || a.ReadSticky? || a.Enter?
  }

  lemma {:induction false} SetupIsQuiet(s: State, t: Tid, a: Action)
    requires CanCall(s, t, a) && IsSetup(a)
    requires ThreadOk(s.link, t, At(s, t))
    ensures QuietCall(s, Call(s, t, a), t)
  {
  }

  lemma {:induction false} RequestIsQuiet(s: State, t: Tid, a: Action)
    requires CanCall(s, t, a) && IsQuiet(a) && !IsSetup(a)
    requires ThreadOk(s.link, t, At(s, t))
    ensures QuietCall(s, Call(s, t, a), t)
  {
  }

  // Steps that do. `t` is the only thread changed, so each needs one argument for `t` and one for the rest.

  ghost predicate LinkKept(s: State, z: State) {
    && (forall t: Tid :: ThreadOk(s.link, t, At(s, t)) ==> ThreadOk(z.link, t, At(z, t)))
    && (forall e: Epoch :: ReaderOk(s.link, e) ==> ReaderOk(z.link, e))
    && (forall f: Fd :: FdOk(s.link, f, Unpublished(s)) ==> FdOk(z.link, f, Unpublished(z)))
    && (forall e: Epoch :: ShutOk(s.link, s.past.shut, e) ==> ShutOk(z.link, z.past.shut, e))
    && SocketOk(z.link, ReaderDue(z))
  }

  lemma {:induction false} TurnKeeps(s: State, t: Tid, a: Action)
    requires CanCall(s, t, a) && (a.TakeTurn? || a.CheckAgain? || a.ConnectFails?)
    requires Connection(s)
    ensures LinkKept(s, Call(s, t, a))
  {
    assert ThreadOk(s.link, t, At(s, t));
    assert s.link.arming.Some? ==> ThreadOk(s.link, s.link.arming.value, At(s, s.link.arming.value));
  }

  lemma {:induction false} ConnectKeeps(s: State, t: Tid, a: Action)
    requires CanCall(s, t, a) && (a.Join? || a.Connect?)
    requires Connection(s)
    ensures LinkKept(s, Call(s, t, a))
  {
    assert ThreadOk(s.link, t, At(s, t));
    assert s.link.arming.Some? ==> ThreadOk(s.link, s.link.arming.value, At(s, s.link.arming.value));
  }

  lemma {:induction false} PublishKeeps(s: State, t: Tid)
    requires CanCall(s, t, Publish)
    requires Connection(s)
    ensures LinkKept(s, DoPublish(s, t))
  {
    assert ThreadOk(s.link, t, At(s, t));
    assert ShutOk(s.link, s.past.shut, s.link.epoch);
    assert ReaderOk(s.link, s.link.epoch) && ReaderOk(s.link, s.link.epoch + 1);
    assert s.link.arming.Some? ==> ThreadOk(s.link, s.link.arming.value, At(s, s.link.arming.value));
  }

  lemma {:induction false} SpawnKeeps(s: State, t: Tid)
    requires CanCall(s, t, Spawn)
    requires Connection(s)
    ensures LinkKept(s, DoSpawn(s, t))
  {
    assert ThreadOk(s.link, t, At(s, t));
    assert ReaderOk(s.link, s.link.epoch);
  }

  lemma {:induction false} ArmEndKeeps(s: State, t: Tid)
    requires At(s, t).pc.Arming?
    requires Connection(s)
    ensures LinkKept(s, DoArmEnd(s, t))
  {
    assert ThreadOk(s.link, t, At(s, t));
  }

  lemma {:induction false} ArmNextIsQuiet(s: State, t: Tid)
    requires CanCall(s, t, ArmNext) && !At(s, t).arm.value.ArmEnd?
    requires ThreadOk(s.link, t, At(s, t))
    ensures QuietCall(s, DoArmNext(s, t), t)
  {
  }

  lemma {:induction false} SendStartKeeps(s: State, t: Tid)
    requires CanCall(s, t, SendStart)
    requires Connection(s)
    ensures LinkKept(s, DoSendStart(s, t))
  {
    assert ThreadOk(s.link, t, At(s, t));
  }

  lemma {:induction false} SendEndKeeps(s: State, t: Tid, ok: bool)
    requires CanCall(s, t, SendEnd(ok))
    requires Connection(s)
    ensures LinkKept(s, DoSendEnd(s, t, ok))
  {
    assert ThreadOk(s.link, t, At(s, t));
  }

  lemma {:induction false} ArmNextCases(s: State, t: Tid)
    requires CanCall(s, t, ArmNext)
    ensures Call(s, t, ArmNext) == DoArmNext(s, t)
    ensures At(s, t).arm.value.ArmEnd? ==> DoArmNext(s, t) == DoArmEnd(s, t)
  {
  }

  lemma {:induction false} SendChunkKeeps(s: State, t: Tid)
    requires CanCall(s, t, SendChunk)
    requires Connection(s)
    ensures Connection(DoSendChunk(s, t))
  {
    var z := DoSendChunk(s, t);
    assert ReaderDue(z) == ReaderDue(s) && Unpublished(z) == Unpublished(s);
    assert forall u: Tid :: At(z, u) == At(s, u);
  }

  lemma {:induction false} CallKeepsConnection(s: State, t: Tid, a: Action)
    requires CanCall(s, t, a)
    requires Connection(s)
    ensures Connection(Call(s, t, a))
  {
    hide DoPublish, DoSpawn, DoArmNext, DoSendStart, DoSendEnd, ThreadOk, ReaderOk, ShutOk, FdOk, SocketOk;
    var z := Call(s, t, a);
    if IsQuiet(a) {
      assert ThreadOk(s.link, t, At(s, t));
      if IsSetup(a) {
        SetupIsQuiet(s, t, a);
      } else {
        RequestIsQuiet(s, t, a);
      }
      QuietCallKeeps(s, z, t);
    } else if a.TakeTurn? || a.CheckAgain? || a.ConnectFails? {
      TurnKeeps(s, t, a);
    } else if a.Join? || a.Connect? {
      ConnectKeeps(s, t, a);
    } else if a.Publish? {
      PublishKeeps(s, t);
    } else if a.Spawn? {
      SpawnKeeps(s, t);
    } else if a.ArmNext? {
      assert ThreadOk(s.link, t, At(s, t));
      ArmNextCases(s, t);
      if At(s, t).arm.value.ArmEnd? {
        ArmEndKeeps(s, t);
      } else {
        ArmNextIsQuiet(s, t);
        QuietCallKeeps(s, z, t);
      }
    } else if a.SendStart? {
      SendStartKeeps(s, t);
    } else if a.SendEnd? {
      SendEndKeeps(s, t, a.ok);
    } else {
      SendChunkKeeps(s, t);
    }
  }

  predicate QuietReader(r: Reader, r': Reader) {
    HasOpen(r') == HasOpen(r) && !r.Ponging? && !r'.Ponging? && !r.Finished?
  }

  predicate QuietRead(s: State, z: State, e: Epoch) {
    && e in s.link.readers && e in z.link.readers
    && z.link == s.link.(readers := s.link.readers[e := z.link.readers[e]])
    && QuietReader(s.link.readers[e], z.link.readers[e])
    && z.threads == s.threads && z.past.shut == s.past.shut
  }

  predicate IsQuietRead(a: ReaderAction) {
    !a.PingStart? && !a.PingChunk? && !a.PingEnd? && !a.Close?
  }

  lemma {:induction false} SameThreads(s: State, z: State)
    requires z.threads == s.threads && z.link.reconnectMu == s.link.reconnectMu && z.link.arming == s.link.arming
    ensures ReaderDue(z) == ReaderDue(s) && Unpublished(z) == Unpublished(s)
    ensures forall u: Tid :: At(z, u) == At(s, u)
  {
  }

  lemma {:induction false} QuietReads(s: State, e: Epoch, a: ReaderAction)
    requires CanRead(s, e, a) && IsQuietRead(a)
    ensures QuietRead(s, Read(s, e, a), e)
  {
    assert s.link.readers == s.link.readers[e := s.link.readers[e]];
  }

  lemma {:induction false} QuietReadKeeps(s: State, z: State, e: Epoch)
    requires Connection(s) && QuietRead(s, z, e)
    ensures LinkKept(s, z)
  {
    assert ReaderOk(s.link, e);
    SameThreads(s, z);
    assert s.link.arming.Some? ==> ThreadOk(s.link, s.link.arming.value, At(s, s.link.arming.value));
  }

  lemma {:induction false} PingKeeps(s: State, e: Epoch, a: ReaderAction)
    requires CanRead(s, e, a) && (a.PingStart? || a.PingChunk? || a.PingEnd?)
    requires Connection(s)
    ensures LinkKept(s, Read(s, e, a))
  {
    assert ReaderOk(s.link, e);
    SameThreads(s, Read(s, e, a));
    assert s.link.arming.Some? ==> ThreadOk(s.link, s.link.arming.value, At(s, s.link.arming.value));
  }

  lemma {:induction false} CloseKeeps(s: State, e: Epoch)
    requires CanRead(s, e, Close)
    requires Connection(s)
    ensures LinkKept(s, DoClose(s, e))
  {
    assert ReaderOk(s.link, e);
    SameThreads(s, DoClose(s, e));
    assert s.link.arming.Some? ==> ThreadOk(s.link, s.link.arming.value, At(s, s.link.arming.value));
  }

  lemma {:induction false} ReadKeepsConnection(s: State, e: Epoch, a: ReaderAction)
    requires CanRead(s, e, a)
    requires Connection(s)
    ensures Connection(Read(s, e, a))
  {
    hide ThreadOk, ReaderOk, ShutOk, FdOk, SocketOk;
    if IsQuietRead(a) {
      QuietReads(s, e, a);
      QuietReadKeeps(s, Read(s, e, a), e);
    } else if a.Close? {
      CloseKeeps(s, e);
    } else {
      PingKeeps(s, e, a);
    }
  }

  lemma {:induction false} KeepsConnection(s: State, l: Label)
    requires Connection(s) && Enabled(s, l)
    ensures Connection(Step(s, l))
  {
    var z := Step(s, l);
    match l
    case CallerStep(t, a) => CallKeepsConnection(s, t, a);
    case ReaderStep(e, a) => ReadKeepsConnection(s, e, a);
    case Stop => OtherKeeps(s, l);
    case JoinLast => OtherKeeps(s, l);
    case ForeignOpen(fd) => OtherKeeps(s, l);
    case ForeignClose(fd) => OtherKeeps(s, l);
  }

  lemma {:induction false} OtherKeeps(s: State, l: Label)
    requires Connection(s) && Enabled(s, l) && !l.CallerStep? && !l.ReaderStep?
    ensures LinkKept(s, Step(s, l))
  {
    SameThreads(s, Step(s, l));
  }
}
