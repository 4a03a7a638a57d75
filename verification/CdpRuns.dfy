/** The guarantees of the debugger session over all runs, whatever the scheduler and the network do. */
module CdpRuns {
  import opened Options
  import opened CdpSession
  import opened CdpSafety
  import opened CdpReplies
  import opened CdpSticky

  ghost predicate Inv(s: State) {
    Connection(s) && Replies(s) && Waiters(s) && Stickies(s)
  }

  lemma {:induction false} InitHolds()
    ensures Inv(Init())
  {
    var s := Init();
    assert forall t: Tid :: At(s, t) == IDLE;
  }

  lemma {:induction false} StepKeeps(s: State, l: Label)
    requires Inv(s) && Enabled(s, l)
    ensures Inv(Step(s, l))
  {
    hide Connection, Replies, Waiters, Stickies, Step;
    KeepsConnection(s, l);
    KeepsReplies(s, l);
    KeepsWaiters(s, l);
    KeepsStickies(s, l);
  }

  lemma {:induction false} RunKeeps(s: State, ls: seq<Label>)
    requires Inv(s) && Feasible(s, ls)
    ensures Inv(After(s, ls))
    decreases |ls|
  {
    hide Inv;
    if ls != [] {
      StepKeeps(s, ls[0]);
      RunKeeps(Step(s, ls[0]), ls[1..]);
    }
  }

  /** `s` can be reached from a new session. */
  ghost predicate Reached(s: State) {
    exists ls: seq<Label> :: Feasible(Init(), ls) && After(Init(), ls) == s
  }

  lemma {:induction false} ReachedHolds(s: State)
    requires Reached(s)
    ensures Inv(s)
  {
    hide Inv;
    InitHolds();
    var ls: seq<Label> :| Feasible(Init(), ls) && After(Init(), ls) == s;
    RunKeeps(Init(), ls);
  }

  lemma {:induction false} FeasibleSnoc(s: State, ls: seq<Label>, l: Label)
    requires Feasible(s, ls) && Enabled(After(s, ls), l)
    ensures Feasible(s, ls + [l]) && After(s, ls + [l]) == Step(After(s, ls), l)
    decreases |ls|
  {
    if ls == [] {
      assert ls + [l] == [l] && [l][1..] == [];
    } else {
      FeasibleSnoc(Step(s, ls[0]), ls[1..], l);
      assert (ls + [l])[1..] == ls[1..] + [l];
    }
  }

  lemma {:induction false} Take(s: State, l: Label)
    requires Reached(s) && Enabled(s, l)
    ensures Reached(Step(s, l))
  {
    var ls: seq<Label> :| Feasible(Init(), ls) && After(Init(), ls) == s;
    FeasibleSnoc(Init(), ls, l);
  }

  // ---- replies ----

  /** A request returns nothing, or the body of a reply that carried its own id and no error. */
  lemma {:induction false} RepliesMatch(s: State, id: Id, body: Body)
    requires Reached(s) && (id, body) in s.req.returned
    ensures (id, body) in s.req.received && !body.failed
  {
    ReachedHolds(s);
    assert ReturnedOk(s.req, (id, body));
  }

  /** A reader between closing its socket and ending, or a thread marking what it has taken. */
  predicate WillMark(s: State, h: Holder, id: Id) {
    TakenBy(s, h, id) && Enabled(s, MarkBy(h, id)) && Done(Step(s, MarkBy(h, id)).req, id)
  }

  function MarkBy(h: Holder, id: Id): Label {
    match h
    case ByThread(t) => CallerStep(t, Mark(id))
    case ByReader(e) => ReaderStep(e, MarkOne(id))
  }

  /** A waiter whose slot is unfinished is about to be marked by a thread free to do so, or is still in
      `pending_` while the socket its request went out on is open or that socket's reader has yet to fail
      what is pending. */
  lemma {:induction false} NoStrandedWaiter(s: State, t: Tid)
    requires Reached(s) && At(s, t).pc.Waiting? && !Done(s.req, At(s, t).pc.id)
    ensures At(s, t).pc.id in s.past.sentAt
    ensures var id, k := At(s, t).pc.id, s.link;
            var e := s.past.sentAt[id];
            || (exists h: Holder :: WillMark(s, h, id))
            || (id in s.req.pending && e == k.epoch && (k.fd.Some? || (e in k.readers && k.readers[e].Closed?)))
  {
    ReachedHolds(s);
    var id := At(s, t).pc.id;
    assert WaiterOk(s, t) && SentOk(s, id);
    if id !in s.req.pending {
      var h: Holder :| TakenBy(s, h, id);
      assert WillMark(s, h, id);
    }
  }

  /** Once a reader has finished, on whichever socket, `pending_` holds no request sent on that socket. */
  lemma {:induction false} FinishedReaderLeavesNone(s: State, e: Epoch, id: Id)
    requires Reached(s) && e in s.link.readers && s.link.readers[e].Finished?
    requires id in s.past.sentAt && s.past.sentAt[id] == e
    ensures id !in s.req.pending
  {
    ReachedHolds(s);
    assert SentOk(s, id);
  }

  /** The socket recorded for a request is the one its bytes went to. */
  lemma {:induction false} SentWhereRecorded(s: State, t: Tid)
    requires Reached(s) && At(s, t).pc.Writing?
    ensures var z := Step(s, CallerStep(t, SendEnd(true)));
            && At(z, t).pc == Waiting(At(s, t).pc.id) && At(s, t).pc.id in z.past.sentAt
            && OwnerOf(s.link.os, At(s, t).pc.to) == Session(z.past.sentAt[At(s, t).pc.id])
  {
    WriterHasSocket(s, t);
  }

  // ---- the connection ----

  predicate Live(s: State, e: Epoch) {
    e in s.link.readers && !s.link.readers[e].Finished?
  }

  /** At most one reader is live, and it reads a descriptor its session owns. */
  lemma {:induction false} OneReader(s: State, e: Epoch, f: Epoch)
    requires Reached(s) && Live(s, e) && Live(s, f)
    ensures e == f
    ensures HasOpen(s.link.readers[e]) ==> s.link.fd.Some? && OwnerOf(s.link.os, s.link.fd.value) == Session(e)
  {
    ReachedHolds(s);
    assert ReaderOk(s.link, e) && ReaderOk(s.link, f);
  }

  /** A thread between its check of `fd_` and the end of its write still has the session's own socket,
      whatever descriptors other code opens and closes meanwhile. */
  lemma {:induction false} WriterHasSocket(s: State, t: Tid)
    requires Reached(s) && At(s, t).pc.Writing?
    ensures OwnerOf(s.link.os, At(s, t).pc.to) == Session(s.link.epoch)
  {
    ReachedHolds(s);
    assert ThreadOk(s.link, t, At(s, t));
  }

  /** Hence no byte ever goes to a closed or recycled descriptor. */
  lemma {:induction false} WritesStayHome(s: State, w: Write)
    requires Reached(s) && w in s.past.wire
    ensures w.owner.Session?
  {
    ReachedHolds(s);
    assert WriteOk(s, w);
  }

  /** The session leaks no descriptor: it owns `fd_` and, during a reconnect, the one about to replace it. */
  lemma {:induction false} NoLeak(s: State, f: Fd)
    requires Reached(s) && OwnerOf(s.link.os, f).Session?
    ensures s.link.fd == Some(f) || exists t: Tid :: At(s, t).pc == Publishing(f) && s.link.reconnectMu == Some(t)
  {
    ReachedHolds(s);
    assert FdOk(s.link, f, Unpublished(s));
  }

  /** A thread that joins the old reader finds the socket closed and the reader past the section that
      closes it, */
  lemma {:induction false} JoinAfterClose(s: State, t: Tid)
    requires Reached(s) && At(s, t).pc.Joining?
    ensures s.link.fd.None?
    ensures s.link.handle.Some? ==>
              s.link.handle.value in s.link.readers && !HasOpen(s.link.readers[s.link.handle.value])
  {
    ReachedHolds(s);
    assert ThreadOk(s.link, t, At(s, t));
  }

  /** and such a reader ends by its own steps alone, so the join cannot deadlock. */
  lemma {:induction false} ReaderEnds(s: State, e: Epoch) returns (ls: seq<Label>)
    requires e in s.link.readers && !HasOpen(s.link.readers[e])
    ensures forall l :: l in ls ==> l.ReaderStep? && l.e == e
    ensures Feasible(s, ls) && e in After(s, ls).link.readers && After(s, ls).link.readers[e].Finished?
    decreases if s.link.readers[e].Marking? then |s.link.readers[e].taken| + 1
              else if s.link.readers[e].Closed? then |s.req.pending| + 2 else 0
  {
    match s.link.readers[e]
    case Finished => ls := [];
    case Closed =>
      var rest := ReaderEnds(Step(s, ReaderStep(e, TakeAll)), e);
      ls := [ReaderStep(e, TakeAll)] + rest;
    case Marking(taken) =>
      if taken == {} {
        ls := [ReaderStep(e, Exit)];
        assert ls[1..] == [];
      } else {
        var id :| id in taken;
        var rest := ReaderEnds(Step(s, ReaderStep(e, MarkOne(id))), e);
        ls := [ReaderStep(e, MarkOne(id))] + rest;
      }
  }

  // ---- the sticky state ----

  /** Every command the re-arm of the latest socket read is on the wire, with `Page.enable` and every script
      stored when it was published; so is everything stored now, short of what a setter is still sending. */
  ghost predicate Rearmed(s: State) {
    && PageEnable in s.past.due
    && (forall c: Command :: c in s.past.due ==> (s.link.epoch, c) in s.past.issued)
    && (forall x: string :: x in s.past.atPublish ==> Script(x) in s.past.due)
    && (forall c: Command :: Stored(s.sticky, c) ==>
          (s.link.epoch, c) in s.past.issued || exists t: Tid :: Setting(At(s, t), c))
  }

  /** `ensure_connected` lets a thread other than the arming one through at `e`. */
  predicate PassedAt(th: Thread, e: Epoch) {
    th.arm.None? && (th.pc.Admitted? || th.pc.Registered? || th.pc.Writing?) && th.admitted == e
  }

  lemma {:induction false} ArmedIsRearmed(s: State)
    requires Reached(s) && s.link.fd.Some? && s.link.armed && s.link.epoch !in s.past.shut
    ensures Rearmed(s)
  {
    ReachedHolds(s);
    forall c: Command | c in s.past.due ensures (s.link.epoch, c) in s.past.issued {
      assert DueOk(s, c);
    }
    forall x: string | x in s.past.atPublish ensures Script(x) in s.past.due {
      assert PublishedOk(s, x);
    }
    forall c: Command | Stored(s.sticky, c)
      ensures (s.link.epoch, c) in s.past.issued || exists t: Tid :: Setting(At(s, t), c)
    {
      assert StoredOk(s, c);
    }
  }

  /** A thread let through to the latest socket, unless that has been shut down since, finds it re-armed. */
  lemma {:induction false} AdmittedAfterRearm(s: State, t: Tid)
    requires Reached(s) && PassedAt(At(s, t), s.link.epoch)
    ensures s.link.epoch in s.past.shut || Rearmed(s)
  {
    ReachedHolds(s);
    assert AdmitOk(s, t);
    if s.link.epoch !in s.past.shut {
      ArmedIsRearmed(s);
    }
  }

  /** A request that reaches an unarmed socket, not shut down, was let through at an earlier one. */
  lemma {:induction false} EarlyWritesAreStale(s: State, w: Write)
    requires Reached(s) && w in s.past.wire && w.writer.Request? && !w.armed
    requires w.owner.Session? && w.owner.epoch !in s.past.shut
    ensures w.writer.admitted != w.owner.epoch
  {
    ReachedHolds(s);
    assert WriteOk(s, w);
  }
}
