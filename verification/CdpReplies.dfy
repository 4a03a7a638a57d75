/** Requests and replies of the debugger session: what a request returns, and that none is left waiting.

    `Replies` keeps ids apart: two threads never hold the same one, a slot holds only a body that arrived
    under its id, and so does a request that has returned. `Waiters` accounts for each request in flight: its
    slot is done, or it is still in `pending_`, or somebody has taken it out and has yet to mark it; and no
    thread waits in `pending_` once the reader of the latest socket has emptied it for the last time. */
module CdpReplies {
  import opened Options
  import opened CdpSession
  import opened CdpSafety

  function IdOf(pc: Pc): Option<Id> {
    if pc.Registered? || pc.Writing? || pc.Waiting? || pc.Forgetting? then Some(pc.id) else None
  }

  // ---- bodies ----

  predicate BodyOk(r: Requests, th: Thread) {
    && (IdOf(th.pc).Some? ==> th.pc.id <= r.nextId && th.pc.id in r.slots)
    && (th.pc.Forgetting? && th.pc.body.Some? ==> (th.pc.id, th.pc.body.value) in r.received)
  }

  predicate SlotOk(r: Requests, id: Id) {
    id in r.slots && r.slots[id].body.Some? ==> r.slots[id].done && (id, r.slots[id].body.value) in r.received
  }

  predicate FoundOk(r: Requests, readers: map<Epoch, Reader>, e: Epoch) {
    e in readers && readers[e].Found? ==> (readers[e].id, readers[e].body) in r.received
  }

  predicate ReturnedOk(r: Requests, x: (Id, Body)) {
    x in r.returned ==> x in r.received && !x.1.failed
  }

  predicate Distinct(s: State, t: Tid, u: Tid) {
    IdOf(At(s, t).pc).Some? && IdOf(At(s, t).pc) == IdOf(At(s, u).pc) ==> t == u
  }

  ghost predicate Replies(s: State) {
    && (forall t: Tid :: BodyOk(s.req, At(s, t)))
    && (forall id: Id :: SlotOk(s.req, id))
    && (forall e: Epoch :: FoundOk(s.req, s.link.readers, e))
    && (forall x: (Id, Body) :: ReturnedOk(s.req, x))
    && (forall t: Tid, u: Tid :: Distinct(s, t, u))
  }

  /** Only new requests enter `pending_`, and one thread's step leaves the others where they are. */
  lemma {:induction false} PendingGrows(s: State, t: Tid, a: Action)
    requires CanCall(s, t, a)
    ensures Call(s, t, a).req.pending <= s.req.pending + {s.req.nextId + 1}
    ensures forall u: Tid :: u != t ==> At(Call(s, t, a), u) == At(s, u)
  {
  }

  lemma {:induction false} RequestsGrow(s: State, t: Tid, a: Action)
    requires CanCall(s, t, a)
    ensures s.req.nextId <= Call(s, t, a).req.nextId && s.req.slots.Keys <= Call(s, t, a).req.slots.Keys
    ensures Call(s, t, a).req.received == s.req.received
  {
  }

  /** A step gives its thread no id, the one it had, or a new one. */
  lemma {:induction false} IdMoves(s: State, t: Tid, a: Action)
    requires CanCall(s, t, a)
    ensures IdOf(At(Call(s, t, a), t).pc) in {None, IdOf(At(s, t).pc), Some(s.req.nextId + 1)}
  {
  }

  lemma {:induction false} NewIdHasSlot(s: State, t: Tid, a: Action)
    requires CanCall(s, t, a) && IdOf(At(Call(s, t, a), t).pc) == Some(s.req.nextId + 1)
    requires BodyOk(s.req, At(s, t))
    ensures s.req.nextId < Call(s, t, a).req.nextId && s.req.nextId + 1 in Call(s, t, a).req.slots
  {
  }

  /** A body in a thread's hands was in its slot. */
  lemma {:induction false} BodyFromSlot(s: State, t: Tid, a: Action)
    requires CanCall(s, t, a)
    requires At(Call(s, t, a), t).pc.Forgetting? && At(Call(s, t, a), t).pc.body.Some?
    ensures var pc := At(Call(s, t, a), t).pc;
            At(s, t).pc == Waiting(pc.id) && pc.id in s.req.slots && s.req.slots[pc.id].body == pc.body
  {
  }

  lemma {:induction false} OwnBody(s: State, t: Tid, a: Action)
    requires CanCall(s, t, a)
    requires BodyOk(s.req, At(s, t)) && (At(s, t).pc.Waiting? ==> SlotOk(s.req, At(s, t).pc.id))
    ensures BodyOk(Call(s, t, a).req, At(Call(s, t, a), t))
  {
    hide Call;
    IdMoves(s, t, a);
    RequestsGrow(s, t, a);
    var pc := At(Call(s, t, a), t).pc;
    if IdOf(pc) == Some(s.req.nextId + 1) {
      NewIdHasSlot(s, t, a);
    }
    if pc.Forgetting? && pc.body.Some? {
      BodyFromSlot(s, t, a);
    }
  }

  lemma {:induction false} CallBodies(s: State, t: Tid, a: Action)
    requires CanCall(s, t, a)
    requires Replies(s)
    ensures forall u: Tid :: BodyOk(Call(s, t, a).req, At(Call(s, t, a), u))
  {
    hide Call;
    OwnBody(s, t, a);
    PendingGrows(s, t, a);
    RequestsGrow(s, t, a);
    var z := Call(s, t, a);
    forall u: Tid ensures BodyOk(z.req, At(z, u)) {
      assert BodyOk(s.req, At(s, u));
    }
  }

  lemma {:induction false} CallReplies(s: State, t: Tid, a: Action)
    requires CanCall(s, t, a)
    requires Replies(s)
    ensures forall id: Id :: SlotOk(Call(s, t, a).req, id)
    ensures forall e: Epoch :: FoundOk(Call(s, t, a).req, Call(s, t, a).link.readers, e)
    ensures forall x: (Id, Body) :: ReturnedOk(Call(s, t, a).req, x)
  {
    var z := Call(s, t, a);
    assert BodyOk(s.req, At(s, t));
    forall id: Id ensures SlotOk(z.req, id) {
      assert SlotOk(s.req, id);
    }
    forall e: Epoch ensures FoundOk(z.req, z.link.readers, e) {
      assert FoundOk(s.req, s.link.readers, e);
    }
    forall x: (Id, Body) ensures ReturnedOk(z.req, x) {
      assert ReturnedOk(s.req, x);
    }
  }

  lemma {:induction false} CallDistinct(s: State, t: Tid, a: Action)
    requires CanCall(s, t, a)
    requires Replies(s)
    ensures forall u: Tid, v: Tid :: Distinct(Call(s, t, a), u, v)
  {
    hide Call;
    IdMoves(s, t, a);
    PendingGrows(s, t, a);
    var z := Call(s, t, a);
    forall u: Tid, v: Tid ensures Distinct(z, u, v) {
      assert Distinct(s, u, v);
      assert BodyOk(s.req, At(s, u)) && BodyOk(s.req, At(s, v));
    }
  }

  lemma {:induction false} ReadReplies(s: State, e: Epoch, a: ReaderAction)
    requires CanRead(s, e, a)
    requires Replies(s)
    ensures Replies(Read(s, e, a))
  {
    var z := Read(s, e, a);
    assert FoundOk(s.req, s.link.readers, e);
    forall u: Tid ensures BodyOk(z.req, At(z, u)) {
      assert BodyOk(s.req, At(s, u));
    }
    forall id: Id ensures SlotOk(z.req, id) {
      assert SlotOk(s.req, id);
    }
    forall f: Epoch ensures FoundOk(z.req, z.link.readers, f) {
      assert FoundOk(s.req, s.link.readers, f);
    }
    forall x: (Id, Body) ensures ReturnedOk(z.req, x) {
      assert ReturnedOk(s.req, x);
    }
    forall u: Tid, v: Tid ensures Distinct(z, u, v) {
      assert Distinct(s, u, v);
    }
  }

  lemma {:induction false} KeepsReplies(s: State, l: Label)
    requires Replies(s) && Enabled(s, l)
    ensures Replies(Step(s, l))
  {
    var z := Step(s, l);
    match l
    case CallerStep(t, a) =>
      CallBodies(s, t, a);
      CallReplies(s, t, a);
      CallDistinct(s, t, a);
    case ReaderStep(e, a) => ReadReplies(s, e, a);
    case _ =>
      assert z.threads == s.threads && z.req == s.req && z.link.readers == s.link.readers;
      assert forall u: Tid :: At(z, u) == At(s, u);
      assert forall u: Tid, v: Tid :: Distinct(s, u, v) ==> Distinct(z, u, v);
  }

  // ---- waiters ----

  predicate InFlight(pc: Pc) {
    pc.Registered? || pc.Writing? || pc.Waiting?
  }

  /** `h` has taken the request out of `pending_` and has yet to mark its slot. */
  predicate TakenBy(s: State, h: Holder, id: Id) {
    match h
    case ByThread(t) => At(s, t).pc.Failing? && id in At(s, t).pc.taken
    case ByReader(e) => e in s.link.readers && s.link.readers[e].Marking? && id in s.link.readers[e].taken
  }

  predicate Done(r: Requests, id: Id) {
    id in r.slots && r.slots[id].done
  }

  ghost predicate Accounted(s: State, id: Id) {
    Done(s.req, id) || id in s.req.pending || exists h: Holder :: TakenBy(s, h, id)
  }

  /** The reader of the latest socket has emptied `pending_` for the last time. */
  predicate Swept(k: Link) {
    k.epoch in k.readers && (k.readers[k.epoch].Marking? || k.readers[k.epoch].Finished?)
  }

  ghost predicate WaiterOk(s: State, t: Tid) {
    && (InFlight(At(s, t).pc) ==> Accounted(s, At(s, t).pc.id))
    && (At(s, t).pc.Waiting? ==> At(s, t).pc.id in s.past.sentAt)
  }

  /** A request sent and still in `pending_` went out on the latest socket, whose reader has yet to empty
      `pending_`. */
  predicate SentOk(s: State, id: Id) {
    id in s.past.sentAt ==>
      && id <= s.req.nextId && 1 <= s.past.sentAt[id] <= s.link.epoch
      && (id in s.req.pending ==> s.past.sentAt[id] == s.link.epoch && !Swept(s.link))
  }

  ghost predicate Waiters(s: State) {
    && (forall t: Tid :: WaiterOk(s, t))
    && (forall id: Id :: SentOk(s, id))
  }

  predicate Moves(a: Action) {
    a.Register? || a.Forget? || a.Swap? || a.Mark? || a.MarkEnd?
  }

  lemma {:induction false} OtherActions(s: State, t: Tid, a: Action)
    requires CanCall(s, t, a) && !Moves(a)
    ensures Call(s, t, a).req == s.req
    ensures !At(s, t).pc.Failing?
    ensures Call(s, t, a).link.readers == s.link.readers || a.Spawn?
    ensures InFlight(At(Call(s, t, a), t).pc) ==> InFlight(At(s, t).pc) && At(Call(s, t, a), t).pc.id == At(s, t).pc.id
  {
  }

  lemma {:induction false} MovesAccount(s: State, t: Tid, a: Action, id: Id)
    requires CanCall(s, t, a) && Moves(a)
    requires Accounted(s, id) && id <= s.req.nextId
    requires a.Forget? ==> At(s, t).pc.id != id
    ensures Accounted(Call(s, t, a), id)
  {
    var z := Call(s, t, a);
    if !Done(s.req, id) && id in s.req.pending && a.Swap? {
      assert TakenBy(z, ByThread(t), id);
    } else if !Done(s.req, id) && id !in s.req.pending {
      var h :| TakenBy(s, h, id);
      assert TakenBy(z, h, id) || Done(z.req, id);
    }
  }

  /** Apart from `Register` of `id` itself and the `Forget` of its owner, no step loses track of `id`. */
  lemma {:induction false} CallAccounts(s: State, t: Tid, a: Action, id: Id)
    requires CanCall(s, t, a)
    requires Accounted(s, id) && id <= s.req.nextId
    requires a.Forget? ==> At(s, t).pc.id != id
    requires a.Spawn? ==> s.link.epoch !in s.link.readers
    ensures Accounted(Call(s, t, a), id)
  {
    if Moves(a) {
      MovesAccount(s, t, a, id);
    } else {
      OtherActions(s, t, a);
      if !Done(s.req, id) && id !in s.req.pending {
        var h :| TakenBy(s, h, id);
        StillTaken(s, t, a, h, id);
      }
    }
  }

  lemma {:induction false} StillTaken(s: State, t: Tid, a: Action, h: Holder, id: Id)
    requires CanCall(s, t, a) && !At(s, t).pc.Failing?
    requires TakenBy(s, h, id)
    requires a.Spawn? ==> s.link.epoch !in s.link.readers
    ensures TakenBy(Call(s, t, a), h, id)
  {
    hide Call;
    PendingGrows(s, t, a);
    match h
    case ByThread(u) =>
    case ByReader(e) => ReadersStay(s, t, a);
  }

  lemma {:induction false} ReadersStay(s: State, t: Tid, a: Action)
    requires CanCall(s, t, a)
    ensures Call(s, t, a).link.readers == if a.Spawn? then s.link.readers[s.link.epoch := Polling] else s.link.readers
  {
  }

  lemma {:induction false} ReadAccounts(s: State, e: Epoch, a: ReaderAction, id: Id)
    requires CanRead(s, e, a)
    requires Accounted(s, id)
    ensures Accounted(Read(s, e, a), id)
  {
    var z := Read(s, e, a);
    if !Done(s.req, id) && id in s.req.pending && a.TakeAll? {
      assert TakenBy(z, ByReader(e), id);
    } else if !Done(s.req, id) && id !in s.req.pending {
      var h :| TakenBy(s, h, id);
      assert TakenBy(z, h, id) || Done(z.req, id);
    }
  }

  lemma {:induction false} CallKeepsWaiters(s: State, t: Tid, a: Action)
    requires CanCall(s, t, a)
    requires Connection(s) && Replies(s) && Waiters(s)
    ensures Waiters(Call(s, t, a))
  {
    hide Call, ReaderOk, ThreadOk, SocketOk, SentOk;
    var z := Call(s, t, a);
    assert ThreadOk(s.link, t, At(s, t)) && BodyOk(s.req, At(s, t));
    assert ReaderOk(s.link, s.link.epoch + 1);
    forall u: Tid ensures WaiterOk(z, u) {
      assert WaiterOk(s, u) && WaiterOk(s, t) && BodyOk(s.req, At(s, u)) && Distinct(s, t, u);
      if u != t {
        OtherKeepsWaiting(s, t, a, u);
      } else if InFlight(At(z, t).pc) {
        OwnKeepsWaiting(s, t, a);
      }
    }
    forall id: Id ensures SentOk(z, id) {
      assert SentOk(s, id);
      CallSent(s, t, a, id);
    }
  }

  lemma {:induction false} OtherKeepsWaiting(s: State, t: Tid, a: Action, u: Tid)
    requires CanCall(s, t, a) && u != t
    requires WaiterOk(s, u) && BodyOk(s.req, At(s, u)) && Distinct(s, t, u)
    requires ThreadOk(s.link, t, At(s, t))
    ensures WaiterOk(Call(s, t, a), u)
  {
    hide Call, Accounted;
    PendingGrows(s, t, a);
    SentGrows(s, t, a);
    SpawnsFirst(s, t, a);
    if InFlight(At(s, u).pc) {
      CallAccounts(s, t, a, At(s, u).pc.id);
    }
  }

  lemma {:induction false} OwnKeepsWaiting(s: State, t: Tid, a: Action)
    requires CanCall(s, t, a)
    requires ThreadOk(s.link, t, At(s, t))
    requires WaiterOk(s, t) && BodyOk(s.req, At(s, t))
    requires InFlight(At(Call(s, t, a), t).pc)
    ensures WaiterOk(Call(s, t, a), t)
  {
    hide Call, Accounted, ThreadOk;
    if a.Register? {
      RegisterIsPending(s, t);
    } else {
      FliesOn(s, t, a);
      OtherActions(s, t, a);
      SpawnsFirst(s, t, a);
      CallAccounts(s, t, a, At(s, t).pc.id);
      if At(Call(s, t, a), t).pc.Waiting? {
        WaitsAfterSend(s, t, a);
        SendRecords(s, t);
      }
    }
  }

  lemma {:induction false} FliesOn(s: State, t: Tid, a: Action)
    requires CanCall(s, t, a) && InFlight(At(Call(s, t, a), t).pc)
    ensures a.Register? || !Moves(a)
  {
  }

  lemma {:induction false} SpawnsFirst(s: State, t: Tid, a: Action)
    requires CanCall(s, t, a) && ThreadOk(s.link, t, At(s, t))
    ensures a.Spawn? ==> s.link.epoch !in s.link.readers
  {
  }

  lemma {:induction false} RegisterIsPending(s: State, t: Tid)
    requires CanCall(s, t, Register)
    ensures At(Call(s, t, Register), t).pc == Registered(s.req.nextId + 1)
    ensures Accounted(Call(s, t, Register), s.req.nextId + 1)
  {
  }

  lemma {:induction false} WaitsAfterSend(s: State, t: Tid, a: Action)
    requires CanCall(s, t, a) && At(Call(s, t, a), t).pc.Waiting?
    ensures a == SendEnd(true)
  {
  }

  lemma {:induction false} SendRecords(s: State, t: Tid)
    requires CanCall(s, t, SendEnd(true))
    ensures var z := Call(s, t, SendEnd(true));
            && z.link == s.link.(sendMu := None) && z.req == s.req
            && z.past.sentAt == s.past.sentAt[At(s, t).pc.id := s.link.epoch]
  {
  }

  // ---- the socket a request was sent on ----

  lemma {:induction false} SentGrows(s: State, t: Tid, a: Action)
    requires CanCall(s, t, a)
    ensures a == SendEnd(true) || Call(s, t, a).past.sentAt == s.past.sentAt
    ensures s.past.sentAt.Keys <= Call(s, t, a).past.sentAt.Keys
  {
  }

  lemma {:induction false} EpochStays(s: State, t: Tid, a: Action)
    requires CanCall(s, t, a)
    ensures Call(s, t, a).link.epoch == s.link.epoch || (a.Publish? && Call(s, t, a).link.epoch == s.link.epoch + 1)
    ensures s.req.nextId <= Call(s, t, a).req.nextId
  {
  }

  /** A thread in the middle of a write has the socket open, so its reader has not emptied `pending_`. */
  lemma {:induction false} WritesUnswept(s: State, t: Tid)
    requires SocketOk(s.link, ReaderDue(s)) && ThreadOk(s.link, t, At(s, t)) && At(s, t).pc.Writing?
    ensures !Swept(s.link) && s.link.epoch >= 1
  {
  }

  /** A new socket is published when nothing sent earlier is left in `pending_`. */
  lemma {:induction false} PublishesSwept(s: State, t: Tid)
    requires SocketOk(s.link, ReaderDue(s)) && ThreadOk(s.link, t, At(s, t)) && At(s, t).pc.Publishing?
    ensures Swept(s.link) || s.link.epoch == 0
  {
  }

  lemma {:induction false} CallSent(s: State, t: Tid, a: Action, id: Id)
    requires CanCall(s, t, a) && SentOk(s, id)
    requires SocketOk(s.link, ReaderDue(s)) && ThreadOk(s.link, t, At(s, t)) && ReaderOk(s.link, s.link.epoch + 1)
    requires BodyOk(s.req, At(s, t))
    ensures SentOk(Call(s, t, a), id)
  {
    hide Call, SocketOk, ThreadOk;
    PendingGrows(s, t, a);
    SentGrows(s, t, a);
    EpochStays(s, t, a);
    ReadersStay(s, t, a);
    if a == SendEnd(true) {
      WritesUnswept(s, t);
      SendRecords(s, t);
    } else if a.Publish? {
      PublishesSwept(s, t);
    } else if a.Spawn? {
      SpawnsFirst(s, t, a);
    }
  }

  lemma {:induction false} ReadSent(s: State, e: Epoch, a: ReaderAction, id: Id)
    requires CanRead(s, e, a) && SentOk(s, id) && ReaderOk(s.link, e)
    ensures SentOk(Read(s, e, a), id)
  {
  }

  lemma {:induction false} ReadKeepsWaiters(s: State, e: Epoch, a: ReaderAction)
    requires CanRead(s, e, a)
    requires Connection(s) && Waiters(s)
    ensures Waiters(Read(s, e, a))
  {
    var z := Read(s, e, a);
    assert ReaderOk(s.link, e);
    forall id: Id ensures SentOk(z, id) {
      assert SentOk(s, id);
      ReadSent(s, e, a, id);
    }
    forall u: Tid ensures WaiterOk(z, u) {
      assert WaiterOk(s, u) && At(z, u) == At(s, u);
      if InFlight(At(s, u).pc) {
        ReadAccounts(s, e, a, At(s, u).pc.id);
      }
    }
  }

  lemma {:induction false} KeepsWaiters(s: State, l: Label)
    requires Connection(s) && Replies(s) && Waiters(s) && Enabled(s, l)
    ensures Waiters(Step(s, l))
  {
    match l
    case CallerStep(t, a) => CallKeepsWaiters(s, t, a);
    case ReaderStep(e, a) => ReadKeepsWaiters(s, e, a);
    case _ =>
      var z := Step(s, l);
      assert z.threads == s.threads && z.req == s.req && z.past.sentAt == s.past.sentAt;
      assert z.link.readers == s.link.readers && z.link.epoch == s.link.epoch;
      forall id: Id ensures SentOk(z, id) {
        assert SentOk(s, id);
      }
      forall u: Tid ensures WaiterOk(z, u) {
        assert WaiterOk(s, u) && At(z, u) == At(s, u);
        if InFlight(At(s, u).pc) && !Done(s.req, At(s, u).pc.id) && At(s, u).pc.id !in s.req.pending {
          var h :| TakenBy(s, h, At(s, u).pc.id);
          assert TakenBy(z, h, At(s, u).pc.id);
        }
      }
  }
}
