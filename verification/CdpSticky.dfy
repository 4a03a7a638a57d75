/** The sticky state of the debugger session: the user agent, the scripts and the permission that every
    fresh socket is given again.

    `Stickies` accounts for each command in turn. One that the re-arm has read is owed by the arming thread,
    in its current request or further down its list, until it has gone out or the socket is shut down
    (`DueOk`). One that is stored has yet to be read by the re-arm, has gone out, or belongs to a setter that
    is still sending it (`StoredOk`). From the two it follows what an armed socket has carried (`AdmitOk`) and
    which requests can be written to one that is not armed (`WriteOk`). */
module CdpSticky {
  import opened Options
  import opened CdpSession
  import opened CdpSafety

  /** The current request's command is not on the wire yet, or its failure has not been acted on. */
  predicate Unsent(pc: Pc) {
    pc.Entering? || pc.Admitted? || pc.Registered? || pc.Writing? || (pc.Forgetting? && pc.drop) || pc.Dropping?
  }

  predicate BeforeConnection(pc: Pc) {
    pc.AwaitTurn? || pc.CheckingAgain? || pc.Joining? || pc.Connecting? || pc.Publishing?
  }

  /** `c` went out in full on the latest socket, or that socket has been shut down. */
  predicate Issued(s: State, c: Command) {
    (s.link.epoch, c) in s.past.issued || s.link.epoch in s.past.shut
  }

  // ---- what the re-arm has read, it sends ----

  predicate Owes(th: Thread, c: Command) {
    th.arm.Some? &&
    (|| (Unsent(th.pc) && th.job == c)
     || (th.arm.value.ArmPage? && c == PageEnable)
     || (th.arm.value.ArmScripts? && c.Script? && c.source in th.arm.value.rest))
  }

  predicate Owed(s: State, c: Command) {
    s.link.arming.Some? && Owes(At(s, s.link.arming.value), c)
  }

  predicate DueOk(s: State, c: Command) {
    s.link.fd.Some? && c in s.past.due ==> Issued(s, c) || Owed(s, c)
  }

  predicate HasStage(s: State) {
    s.link.arming.Some? && At(s, s.link.arming.value).arm.Some?
  }

  function StageOf(s: State): Stage
    requires HasStage(s)
  {
    At(s, s.link.arming.value).arm.value
  }

  lemma {:induction false} IssuedStays(s: State, t: Tid, a: Action, c: Command)
    requires CanCall(s, t, a) && Issued(s, c)
    requires ThreadOk(s.link, t, At(s, t)) && s.link.fd.Some?
    ensures Issued(Call(s, t, a), c)
  {
  }

  /** An owed command stays owed until it is sent or the socket is shut down. */
  lemma {:induction false} OwedMoves(s: State, t: Tid, a: Action, c: Command)
    requires CanCall(s, t, a) && Owed(s, c)
    requires ThreadOk(s.link, t, At(s, t)) && ThreadOk(s.link, s.link.arming.value, At(s, s.link.arming.value))
    requires ShutOk(s.link, s.past.shut, s.link.epoch) && s.link.fd.Some? && s.link.epoch >= 1
    ensures Owed(Call(s, t, a), c) || Issued(Call(s, t, a), c)
  {
  }

  lemma {:induction false} DueGrows(s: State, t: Tid, a: Action, c: Command)
    requires CanCall(s, t, a) && ThreadOk(s.link, t, At(s, t))
    requires c in Call(s, t, a).past.due && c !in s.past.due
    ensures Owed(Call(s, t, a), c)
  {
  }

  lemma {:induction false} PublishOpens(s: State, t: Tid, a: Action)
    requires CanCall(s, t, a) && ThreadOk(s.link, t, At(s, t))
    requires s.link.fd.None? && Call(s, t, a).link.fd.Some?
    ensures HasStage(Call(s, t, a)) && StageOf(Call(s, t, a)) == ArmPage
    ensures Call(s, t, a).past.due == {PageEnable} && Call(s, t, a).past.atPublish == Call(s, t, a).sticky.scripts
  {
  }

  lemma {:induction false} CallDueOk(s: State, t: Tid, a: Action, c: Command)
    requires CanCall(s, t, a)
    requires Connection(s) && DueOk(s, c)
    ensures DueOk(Call(s, t, a), c)
  {
    var z := Call(s, t, a);
    LinkFacts(s, t);
    if z.link.fd.Some? && c in z.past.due {
      hide Call, ThreadOk, ShutOk;
      if s.link.fd.None? {
        PublishOpens(s, t, a);
      } else if c !in s.past.due {
        DueGrows(s, t, a, c);
      } else if Issued(s, c) {
        IssuedStays(s, t, a, c);
      } else {
        OwedMoves(s, t, a, c);
      }
    }
  }

  lemma {:induction false} LinkFacts(s: State, t: Tid)
    requires Connection(s)
    ensures ThreadOk(s.link, t, At(s, t))
    ensures ShutOk(s.link, s.past.shut, s.link.epoch)
    ensures s.link.arming.Some? ==> ThreadOk(s.link, s.link.arming.value, At(s, s.link.arming.value))
    ensures s.link.fd.Some? ==> s.link.epoch >= 1
    ensures HasStage(s) <==> s.link.arming.Some?
  {
    if s.link.arming.Some? {
      assert ThreadOk(s.link, s.link.arming.value, At(s, s.link.arming.value));
    }
  }

  /** The re-arm has yet to read the part of the sticky state that `c` belongs to. */
  predicate Ahead(st: Stage, c: Command) {
    match c
    case Agent(_) => st.ArmPage? || st.ArmAgent?
    case Script(_) => st.ArmPage? || st.ArmAgent? || st.ArmRead?
    case Grant(_, _) => !st.ArmEnd?
    case _ => false
  }

  predicate Unread(s: State, c: Command) {
    HasStage(s) && Ahead(StageOf(s), c)
  }

  /** The scripts stored when the socket was published are among those the re-arm sends. */
  predicate PublishedOk(s: State, x: string) {
    s.link.fd.Some? && x in s.past.atPublish ==>
      x in s.sticky.scripts && (Script(x) in s.past.due || Unread(s, Script(x)))
  }

  predicate PageOk(s: State) {
    s.link.fd.Some? ==> PageEnable in s.past.due
  }

  /** The actions that read the sticky state or start over with a new socket. */
  predicate ReArms(a: Action) {
    a.Publish? || a.ArmNext?
  }

  /** Any other action leaves the re-arm where it is. */
  lemma {:induction false} ReadingStays(s: State, t: Tid, a: Action)
    requires CanCall(s, t, a) && !ReArms(a) && ThreadOk(s.link, t, At(s, t))
    ensures var z := Call(s, t, a);
            && z.past.due == s.past.due && z.past.atPublish == s.past.atPublish
            && z.link.fd == s.link.fd && z.link.arming == s.link.arming
            && (forall x :: x in s.sticky.scripts ==> x in z.sticky.scripts)
            && (HasStage(s) <==> HasStage(z)) && (HasStage(s) ==> StageOf(z) == StageOf(s))
  {
    LinkStays(s, t, a);
    StageStays(s, t, a);
    hide Call;
  }

  lemma {:induction false} LinkStays(s: State, t: Tid, a: Action)
    requires CanCall(s, t, a) && !ReArms(a)
    ensures Call(s, t, a).link.fd == s.link.fd && Call(s, t, a).link.arming == s.link.arming
    ensures Call(s, t, a).past.due == s.past.due && Call(s, t, a).past.atPublish == s.past.atPublish
  {
  }

  lemma {:induction false} StageStays(s: State, t: Tid, a: Action)
    requires CanCall(s, t, a) && !ReArms(a)
    ensures forall u: Tid :: At(Call(s, t, a), u).arm == At(s, u).arm
    ensures forall x :: x in s.sticky.scripts ==> x in Call(s, t, a).sticky.scripts
  {
  }

  lemma {:induction false} RearmPublishedOk(s: State, t: Tid, a: Action, x: string)
    requires CanCall(s, t, a) && ReArms(a)
    requires ThreadOk(s.link, t, At(s, t)) && PublishedOk(s, x)
    requires s.link.arming.Some? ==> ThreadOk(s.link, s.link.arming.value, At(s, s.link.arming.value))
    ensures PublishedOk(Call(s, t, a), x)
  {
  }

  lemma {:induction false} CallPublishedOk(s: State, t: Tid, a: Action, x: string)
    requires CanCall(s, t, a)
    requires Connection(s) && PublishedOk(s, x)
    ensures PublishedOk(Call(s, t, a), x)
  {
    LinkFacts(s, t);
    hide Call, ThreadOk, Connection;
    if ReArms(a) {
      RearmPublishedOk(s, t, a, x);
    } else {
      ReadingStays(s, t, a);
    }
  }

  lemma {:induction false} CallPageOk(s: State, t: Tid, a: Action)
    requires CanCall(s, t, a)
    requires PageOk(s)
    ensures PageOk(Call(s, t, a))
  {
  }

  // ---- what is stored is covered ----

  /** What a reconnect would have to send now. */
  predicate Stored(k: Sticky, c: Command) {
    match c
    case Agent(ua) => ua == k.ua != ""
    case Script(x) => x in k.scripts
    case Grant(o, p) => (o, p) == k.grant && o != ""
    case _ => false
  }

  /** A setter for `c` is still under way on this thread. */
  predicate Setting(th: Thread, c: Command) {
    || (th.pc.ReadAgent? && c.Agent?)
    || (th.pc.ReadGrant? && c.Grant?)
    || (th.own == c && (th.arm.Some? || Unsent(th.pc) || BeforeConnection(th.pc)))
  }

  ghost predicate StoredOk(s: State, c: Command) {
    s.link.fd.Some? && Stored(s.sticky, c) ==>
      Issued(s, c) || Owed(s, c) || Unread(s, c) || exists t: Tid :: Setting(At(s, t), c)
  }

  predicate JobOk(th: Thread) {
    th.arm.None? ==> th.job == th.own
  }

  lemma {:induction false} CallJobOk(s: State, t: Tid, a: Action)
    requires CanCall(s, t, a)
    requires JobOk(At(s, t))
    ensures JobOk(At(Call(s, t, a), t))
  {
  }

  lemma {:induction false} RearmSets(s: State, t: Tid, a: Action, c: Command)
    requires CanCall(s, t, a) && ReArms(a) && Setting(At(s, t), c) && JobOk(At(s, t))
    requires ThreadOk(s.link, t, At(s, t)) && s.link.fd.Some?
    ensures Setting(At(Call(s, t, a), t), c)
  {
  }

  lemma {:induction false} OtherSets(s: State, t: Tid, a: Action, c: Command)
    requires CanCall(s, t, a) && !ReArms(a) && Setting(At(s, t), c) && JobOk(At(s, t))
    requires ThreadOk(s.link, t, At(s, t)) && ShutOk(s.link, s.past.shut, s.link.epoch)
    requires s.link.fd.Some? && s.link.epoch >= 1 && Stored(s.sticky, c)
    ensures Setting(At(Call(s, t, a), t), c) || Issued(Call(s, t, a), c)
  {
  }

  lemma {:induction false} SettingMoves(s: State, t: Tid, a: Action, c: Command)
    requires CanCall(s, t, a) && Setting(At(s, t), c) && JobOk(At(s, t))
    requires ThreadOk(s.link, t, At(s, t)) && ShutOk(s.link, s.past.shut, s.link.epoch)
    requires s.link.fd.Some? && s.link.epoch >= 1 && Stored(s.sticky, c)
    ensures Setting(At(Call(s, t, a), t), c) || Issued(Call(s, t, a), c)
  {
    hide Call, ThreadOk, Stored, Setting, ShutOk;
    if ReArms(a) {
      RearmSets(s, t, a, c);
    } else {
      OtherSets(s, t, a, c);
    }
  }

  lemma {:induction false} RearmReads(s: State, t: Tid, a: Action, c: Command)
    requires CanCall(s, t, a) && ReArms(a) && Unread(s, c) && Stored(s.sticky, c)
    requires ThreadOk(s.link, t, At(s, t))
    ensures Unread(Call(s, t, a), c) || Owed(Call(s, t, a), c)
  {
  }

  lemma {:induction false} UnreadMoves(s: State, t: Tid, a: Action, c: Command)
    requires CanCall(s, t, a) && Unread(s, c) && Stored(s.sticky, c)
    requires ThreadOk(s.link, t, At(s, t))
    ensures Unread(Call(s, t, a), c) || Owed(Call(s, t, a), c)
  {
    hide Call, ThreadOk, Stored;
    if ReArms(a) {
      RearmReads(s, t, a, c);
    } else {
      ReadingStays(s, t, a);
    }
  }

  lemma {:induction false} Stores(s: State, t: Tid, a: Action, c: Command)
    requires CanCall(s, t, a)
    requires Stored(Call(s, t, a).sticky, c) && !Stored(s.sticky, c)
    ensures Setting(At(Call(s, t, a), t), c)
  {
  }

  lemma {:induction false} CallStoredOk(s: State, t: Tid, a: Action, c: Command)
    requires CanCall(s, t, a)
    requires Connection(s) && StoredOk(s, c) && JobOk(At(s, t))
    ensures StoredOk(Call(s, t, a), c)
  {
    var z := Call(s, t, a);
    LinkFacts(s, t);
    if z.link.fd.Some? && Stored(z.sticky, c) {
      hide Call, ThreadOk, ShutOk, Setting, Stored;
      if s.link.fd.None? {
        PublishOpens(s, t, a);
        StoredKinds(z.sticky, c);
      } else if !Stored(s.sticky, c) {
        Stores(s, t, a, c);
      } else if Issued(s, c) {
        IssuedStays(s, t, a, c);
      } else if Owed(s, c) {
        OwedMoves(s, t, a, c);
      } else if Unread(s, c) {
        UnreadMoves(s, t, a, c);
      } else {
        var u: Tid :| Setting(At(s, u), c);
        OthersStay(s, t, a);
        if u == t {
          SettingMoves(s, t, a, c);
        } else {
          assert Setting(At(z, u), c);
        }
      }
    }
  }

  lemma {:induction false} StoredKinds(k: Sticky, c: Command)
    requires Stored(k, c)
    ensures c.Agent? || c.Script? || c.Grant?
  {
  }

  lemma {:induction false} OthersStay(s: State, t: Tid, a: Action)
    requires CanCall(s, t, a)
    ensures forall u: Tid :: u != t ==> At(Call(s, t, a), u) == At(s, u)
  {
  }

  // ---- admission ----

  predicate AdmitOk(s: State, t: Tid) {
    var th := At(s, t);
    th.arm.None? && (th.pc.Admitted? || th.pc.Registered? || th.pc.Writing?) ==>
      th.admitted <= s.link.epoch &&
      (th.admitted == s.link.epoch ==> s.link.epoch in s.past.shut || (s.link.fd.Some? && s.link.armed))
  }

  predicate WriteOk(s: State, w: Write) {
    w in s.past.wire ==>
      && w.owner.Session? && w.owner.epoch <= s.link.epoch
      && (w.writer == Request(w.owner.epoch) ==> w.armed || w.owner.epoch in s.past.shut)
  }

  /** Past `ensure_connected`, and not re-arming. */
  predicate Passed(th: Thread) {
    th.arm.None? && (th.pc.Admitted? || th.pc.Registered? || th.pc.Writing?)
  }

  predicate Admits(a: Action) {
    a.Enter? || a.CheckAgain? || a.ArmNext?
  }

  lemma {:induction false} OnlyTheseAdmit(s: State, t: Tid, a: Action)
    requires CanCall(s, t, a) && !Admits(a) && Passed(At(Call(s, t, a), t))
    ensures Passed(At(s, t)) && At(Call(s, t, a), t).admitted == At(s, t).admitted
  {
  }

  /** A thread let through finds an armed socket, or the latest one shut down. */
  lemma {:induction false} AdmitsArmed(s: State, t: Tid, a: Action)
    requires CanCall(s, t, a) && Admits(a)
    requires ThreadOk(s.link, t, At(s, t)) && SocketOk(s.link, ReaderDue(s))
    ensures AdmitOk(Call(s, t, a), t)
  {
  }

  lemma {:induction false} OwnAdmitOk(s: State, t: Tid, a: Action)
    requires CanCall(s, t, a) && AdmitOk(s, t) && SocketOk(s.link, ReaderDue(s))
    requires ThreadOk(s.link, t, At(s, t)) && ShutOk(s.link, s.past.shut, s.link.epoch)
    ensures AdmitOk(Call(s, t, a), t)
  {
    hide Call, ThreadOk, SocketOk, ShutOk;
    if Admits(a) {
      AdmitsArmed(s, t, a);
    } else if Passed(At(Call(s, t, a), t)) {
      OnlyTheseAdmit(s, t, a);
      LinkMoves(s, t, a);
    }
  }

  lemma {:induction false} LinkMoves(s: State, t: Tid, a: Action)
    requires CanCall(s, t, a) && ThreadOk(s.link, t, At(s, t))
    ensures s.past.shut <= Call(s, t, a).past.shut
    ensures s.link.epoch <= Call(s, t, a).link.epoch
    ensures Call(s, t, a).link.epoch == s.link.epoch && s.link.fd.Some? && s.link.armed ==>
              Call(s, t, a).link.fd == s.link.fd && Call(s, t, a).link.armed
  {
  }

  lemma {:induction false} CallAdmitOk(s: State, t: Tid, a: Action, u: Tid)
    requires CanCall(s, t, a)
    requires Connection(s) && AdmitOk(s, u)
    ensures AdmitOk(Call(s, t, a), u)
  {
    LinkFacts(s, t);
    if u == t {
      OwnAdmitOk(s, t, a);
    } else {
      hide Call, ThreadOk, ShutOk;
      OthersStay(s, t, a);
      LinkMoves(s, t, a);
    }
  }

  lemma {:induction false} CallWriteOk(s: State, t: Tid, a: Action, w: Write)
    requires CanCall(s, t, a)
    requires Connection(s) && AdmitOk(s, t) && WriteOk(s, w)
    ensures WriteOk(Call(s, t, a), w)
  {
    assert ThreadOk(s.link, t, At(s, t));
  }

  lemma {:induction false} ReadWriteOk(s: State, e: Epoch, a: ReaderAction, w: Write)
    requires CanRead(s, e, a)
    requires Connection(s) && WriteOk(s, w)
    ensures WriteOk(Read(s, e, a), w)
  {
    assert ReaderOk(s.link, e);
  }

  // ---- together ----

  ghost predicate Stickies(s: State) {
    && PageOk(s)
    && (forall c: Command :: DueOk(s, c) && StoredOk(s, c))
    && (forall x: string :: PublishedOk(s, x))
    && (forall t: Tid :: JobOk(At(s, t)) && AdmitOk(s, t))
    && (forall w: Write :: WriteOk(s, w))
  }

  /** The reader, the destructor and the rest of the process leave the callers and the re-arm alone. */
  predicate Background(s: State, z: State) {
    && z.threads == s.threads && z.sticky == s.sticky && z.past.due == s.past.due
    && z.past.atPublish == s.past.atPublish && z.past.issued == s.past.issued && s.past.shut <= z.past.shut
    && z.link.epoch == s.link.epoch && z.link.arming == s.link.arming
    && (z.link.fd == s.link.fd || (z.link.fd.None? && z.link.epoch in z.past.shut))
    && (z.link.fd.Some? ==> z.link.armed == s.link.armed)
  }

  lemma {:induction false} ReadIsBackground(s: State, e: Epoch, a: ReaderAction)
    requires CanRead(s, e, a) && SocketOk(s.link, ReaderDue(s)) && ReaderOk(s.link, e)
    ensures Background(s, Read(s, e, a))
  {
  }

  lemma {:induction false} IsBackground(s: State, l: Label)
    requires Enabled(s, l) && !l.CallerStep? && !l.ReaderStep?
    ensures Background(s, Step(s, l))
  {
  }

  lemma {:induction false} BackgroundKeeps(s: State, z: State)
    requires Stickies(s) && Background(s, z)
    ensures PageOk(z)
    ensures forall c: Command :: DueOk(z, c) && StoredOk(z, c)
    ensures forall x: string :: PublishedOk(z, x)
    ensures forall t: Tid :: JobOk(At(z, t)) && AdmitOk(z, t)
  {
    assert forall t: Tid :: At(z, t) == At(s, t);
    forall c: Command ensures DueOk(z, c) && StoredOk(z, c) {
      assert DueOk(s, c) && StoredOk(s, c);
    }
    forall x: string ensures PublishedOk(z, x) {
      assert PublishedOk(s, x);
    }
    forall t: Tid ensures JobOk(At(z, t)) && AdmitOk(z, t) {
      assert JobOk(At(s, t)) && AdmitOk(s, t);
    }
  }

  lemma {:induction false} CallKeepsStickies(s: State, t: Tid, a: Action)
    requires CanCall(s, t, a)
    requires Connection(s) && Stickies(s)
    ensures Stickies(Call(s, t, a))
  {
    hide Call, DueOk, StoredOk, PublishedOk, AdmitOk, WriteOk, Connection;
    var z := Call(s, t, a);
    OthersStay(s, t, a);
    CallPageOk(s, t, a);
    CallJobOk(s, t, a);
    forall c: Command ensures DueOk(z, c) && StoredOk(z, c) {
      CallDueOk(s, t, a, c);
      CallStoredOk(s, t, a, c);
    }
    forall x: string ensures PublishedOk(z, x) {
      CallPublishedOk(s, t, a, x);
    }
    forall u: Tid ensures JobOk(At(z, u)) && AdmitOk(z, u) {
      CallAdmitOk(s, t, a, u);
      assert JobOk(At(s, u));
    }
    forall w: Write ensures WriteOk(z, w) {
      CallWriteOk(s, t, a, w);
    }
  }

  lemma {:induction false} KeepsStickies(s: State, l: Label)
    requires Enabled(s, l)
    requires Connection(s) && Stickies(s)
    ensures Stickies(Step(s, l))
  {
    if l.CallerStep? {
      CallKeepsStickies(s, l.t, l.a);
    } else {
      hide DueOk, StoredOk, PublishedOk, AdmitOk;
      var z := Step(s, l);
      if l.ReaderStep? {
        assert ReaderOk(s.link, l.e);
        ReadIsBackground(s, l.e, l.r);
      } else {
        IsBackground(s, l);
      }
      BackgroundKeeps(s, z);
      forall w: Write ensures WriteOk(z, w) {
        assert WriteOk(s, w);
        if l.ReaderStep? {
          ReadWriteOk(s, l.e, l.r, w);
        }
      }
    }
  }
}
