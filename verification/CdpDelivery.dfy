/** What the debugger session does for its callers: replies are handed back, commands go out, pings are answered,
    and a request that fails takes the connection down with everything waiting on it. */
module CdpDelivery {
  import opened Options
  import opened CdpSession
  import opened CdpSafety
  import opened CdpReplies
  import opened CdpRuns

  lemma {:induction false} Prepend(s: State, l: Label, ls: seq<Label>)
    requires Enabled(s, l) && Feasible(Step(s, l), ls)
    ensures Feasible(s, [l] + ls) && After(s, [l] + ls) == After(Step(s, l), ls)
  {
    hide Enabled, Step;
    assert ([l] + ls)[1..] == ls;
  }

  lemma {:induction false} Nothing(s: State)
    ensures Feasible(s, []) && After(s, []) == s
  {
  }

  // ---- replies ----

  /** The call is over. */
  predicate Over(pc: Pc) {
    pc.Idle? || pc.Arming?
  }

  /** A reply found for a waiting request is delivered, and the request returns its body unless that reports an
      error; then it returns nothing. */
  lemma {:induction false} ReplyReturns(s: State, e: Epoch, t: Tid, id: Id, body: Body)
    requires Reached(s) && e in s.link.readers && s.link.readers[e] == Found(id, body) && At(s, t).pc == Waiting(id)
    ensures var ls := [ReaderStep(e, Deliver)] + ([CallerStep(t, Wake)] + ([CallerStep(t, Forget)] + []));
            && Feasible(s, ls) && Over(At(After(s, ls), t).pc) && id !in After(s, ls).req.pending
            && After(s, ls).req.returned == s.req.returned + (if body.failed then {} else {(id, body)})
  {
    ReachedHolds(s);
    assert BodyOk(s.req, At(s, t));
    hide Reached;
    var s1 := DoDeliver(s, e);
    WokenReturns(s1, t, id, body);
    Prepend(s, ReaderStep(e, Deliver), [CallerStep(t, Wake)] + ([CallerStep(t, Forget)] + []));
  }

  /** The whole way of an answer: read off the socket, delivered, returned. */
  lemma {:induction false} AnswerReturns(s: State, e: Epoch, t: Tid, id: Id, body: Body)
    requires Reached(s) && e in s.link.readers && s.link.readers[e].Polling?
    requires At(s, t).pc == Waiting(id) && id in s.req.pending
    ensures var ls := [ReaderStep(e, Receive(id, body))]
                      + ([ReaderStep(e, Deliver)] + ([CallerStep(t, Wake)] + ([CallerStep(t, Forget)] + [])));
            && Feasible(s, ls) && Over(At(After(s, ls), t).pc) && id !in After(s, ls).req.pending
            && After(s, ls).req.returned == s.req.returned + (if body.failed then {} else {(id, body)})
  {
    hide Reached, Feasible, After;
    var s1 := DoReceive(s, e, id, body);
    Take(s, ReaderStep(e, Receive(id, body)));
    ReplyReturns(s1, e, t, id, body);
    Prepend(s, ReaderStep(e, Receive(id, body)),
            [ReaderStep(e, Deliver)] + ([CallerStep(t, Wake)] + ([CallerStep(t, Forget)] + [])));
  }

  lemma {:induction false} WokenReturns(s: State, t: Tid, id: Id, body: Body)
    requires At(s, t).pc == Waiting(id) && id in s.req.slots && s.req.slots[id] == Slot(true, Some(body))
    ensures var ls := [CallerStep(t, Wake)] + ([CallerStep(t, Forget)] + []);
            && Feasible(s, ls) && Over(At(After(s, ls), t).pc) && id !in After(s, ls).req.pending
            && After(s, ls).req.returned == s.req.returned + (if body.failed then {} else {(id, body)})
  {
    var s1 := DoWake(s, t);
    var s2 := DoForget(s1, t);
    hide Feasible, After;
    Nothing(s2);
    Prepend(s1, CallerStep(t, Forget), []);
    Prepend(s, CallerStep(t, Wake), [CallerStep(t, Forget)] + []);
  }

  /** The body is in its slot, or in the hands of the thread that waited for it. */
  predicate Delivered(s: State, t: Tid, id: Id, body: Body) {
    || (At(s, t).pc == Waiting(id) && id in s.req.slots && s.req.slots[id] == Slot(true, Some(body)))
    || At(s, t).pc == Forgetting(id, false, Some(body))
  }

  /** A step that puts something else into the slot: a mark of failure, or another reply with the same id. */
  predicate Disturbs(s: State, l: Label, id: Id) {
    match l
    case CallerStep(_, a) => a == Mark(id)
    case ReaderStep(e, r) =>
      r == MarkOne(id) || (r.Deliver? && e in s.link.readers && s.link.readers[e].Found? && s.link.readers[e].id == id)
    case _ => false
  }

  predicate Undisturbed(s: State, ls: seq<Label>, id: Id)
    requires Feasible(s, ls)
    decreases |ls|
  {
    ls == [] || (!Disturbs(s, ls[0], id) && Undisturbed(Step(s, ls[0]), ls[1..], id))
  }

  predicate ReturnedOrDelivered(s: State, t: Tid, id: Id, body: Body) {
    Delivered(s, t, id, body) || (id, body) in s.req.returned
  }

  lemma {:induction false} ReturnedStays(s: State, l: Label, x: (Id, Body))
    requires Enabled(s, l) && x in s.req.returned
    ensures x in Step(s, l).req.returned
  {
    hide DoArmNext, DoEnter, DoCheckAgain, DoPublish;
    match l
    case CallerStep(t, a) =>
      if !a.Forget? {
        OnlyForgetReturns(s, t, a);
      }
    case _ =>
  }

  lemma {:induction false} OnlyForgetReturns(s: State, t: Tid, a: Action)
    requires CanCall(s, t, a) && !a.Forget?
    ensures Call(s, t, a).req.returned == s.req.returned
  {
  }

  lemma {:induction false} OthersLeaveSlot(s: State, t: Tid, a: Action, id: Id)
    requires CanCall(s, t, a) && a != Mark(id) && id in s.req.slots && id <= s.req.nextId
    ensures id in Call(s, t, a).req.slots && Call(s, t, a).req.slots[id] == s.req.slots[id]
  {
  }

  lemma {:induction false} OwnStepReturns(s: State, t: Tid, a: Action, id: Id, body: Body)
    requires CanCall(s, t, a) && Delivered(s, t, id, body) && !body.failed
    ensures ReturnedOrDelivered(Call(s, t, a), t, id, body)
  {
  }

  lemma {:induction false} StepReturns(s: State, l: Label, t: Tid, id: Id, body: Body)
    requires Replies(s) && Enabled(s, l) && !Disturbs(s, l, id) && !body.failed
    requires ReturnedOrDelivered(s, t, id, body)
    ensures ReturnedOrDelivered(Step(s, l), t, id, body)
  {
    assert BodyOk(s.req, At(s, t));
    hide Replies, Call;
    if (id, body) in s.req.returned {
      ReturnedStays(s, l, (id, body));
    } else {
      match l
      case CallerStep(u, a) =>
        if u == t {
          OwnStepReturns(s, t, a, id, body);
        } else {
          PendingGrows(s, u, a);
          OthersLeaveSlot(s, u, a, id);
        }
      case _ =>
    }
  }

  /** A delivered reply is not lost: over any run in which nothing else is put into its slot, the request is yet
      to return it or has returned it. */
  lemma {:induction false} DeliveredReturns(s: State, ls: seq<Label>, t: Tid, id: Id, body: Body)
    requires Replies(s) && Feasible(s, ls) && Undisturbed(s, ls, id) && !body.failed
    requires ReturnedOrDelivered(s, t, id, body)
    ensures ReturnedOrDelivered(After(s, ls), t, id, body)
    decreases |ls|
  {
    hide Replies, Step, Enabled, Disturbs, ReturnedOrDelivered;
    if ls != [] {
      StepReturns(s, ls[0], t, id, body);
      KeepsReplies(s, ls[0]);
      DeliveredReturns(Step(s, ls[0]), ls[1..], t, id, body);
    }
  }

  /** In particular, if by then the thread is past the request, it has returned the body. */
  lemma {:induction false} FoundReturns(s: State, e: Epoch, ls: seq<Label>, t: Tid, id: Id, body: Body)
    requires Reached(s) && e in s.link.readers && s.link.readers[e] == Found(id, body) && At(s, t).pc == Waiting(id)
    requires Feasible(DoDeliver(s, e), ls) && Undisturbed(DoDeliver(s, e), ls, id) && !body.failed
    ensures var z := After(DoDeliver(s, e), ls);
            || At(z, t).pc == Waiting(id) || At(z, t).pc == Forgetting(id, false, Some(body))
            || (id, body) in z.req.returned
  {
    ReachedHolds(s);
    assert BodyOk(s.req, At(s, t));
    KeepsReplies(s, ReaderStep(e, Deliver));
    hide Reached, Replies;
    DeliveredReturns(DoDeliver(s, e), ls, t, id, body);
  }

  // ---- failures ----

  /** Without a reply the request returns nothing, and its thread shuts the socket down and takes over every
      request in flight to fail it. */
  lemma {:induction false} TimeoutDrops(s: State, t: Tid, id: Id)
    requires Reached(s) && At(s, t).pc == Waiting(id) && !Done(s.req, id)
    ensures var ls := [CallerStep(t, Wake)] + ([CallerStep(t, Forget)]
                      + ([CallerStep(t, ShutDown)] + ([CallerStep(t, Swap)] + [])));
            && Feasible(s, ls)
            && var z := After(s, ls);
               && z.req.returned == s.req.returned && z.req.pending == {}
               && At(z, t).pc == Failing(s.req.pending - {id})
               && (s.link.fd.Some? ==> s.link.epoch in z.past.shut)
  {
    hide Reached, Feasible, After;
    WaiterHasSlot(s, t);
    var s1 := DoWake(s, t);
    var s2 := DoForget(s1, t);
    Drops(s2, t);
    Prepend(s1, CallerStep(t, Forget), [CallerStep(t, ShutDown)] + ([CallerStep(t, Swap)] + []));
    Prepend(s, CallerStep(t, Wake),
            [CallerStep(t, Forget)] + ([CallerStep(t, ShutDown)] + ([CallerStep(t, Swap)] + [])));
  }

  lemma {:induction false} WaiterHasSlot(s: State, t: Tid)
    requires Reached(s) && At(s, t).pc.Waiting?
    ensures At(s, t).pc.id in s.req.slots
  {
    ReachedHolds(s);
    assert BodyOk(s.req, At(s, t));
  }

  /** So does a request that could not be written. */
  lemma {:induction false} FailedWriteDrops(s: State, t: Tid, id: Id)
    requires At(s, t).pc.Writing? && At(s, t).pc.id == id
    ensures var ls := [CallerStep(t, SendEnd(false))] + ([CallerStep(t, Forget)]
                      + ([CallerStep(t, ShutDown)] + ([CallerStep(t, Swap)] + [])));
            && Feasible(s, ls)
            && var z := After(s, ls);
               && z.req.returned == s.req.returned && z.req.pending == {}
               && At(z, t).pc == Failing(s.req.pending - {id})
               && (s.link.fd.Some? ==> s.link.epoch in z.past.shut)
  {
    hide Feasible, After;
    var s1 := DoSendEnd(s, t, false);
    var s2 := DoForget(s1, t);
    Drops(s2, t);
    Prepend(s1, CallerStep(t, Forget), [CallerStep(t, ShutDown)] + ([CallerStep(t, Swap)] + []));
    Prepend(s, CallerStep(t, SendEnd(false)),
            [CallerStep(t, Forget)] + ([CallerStep(t, ShutDown)] + ([CallerStep(t, Swap)] + [])));
  }

  /** And one that finds no socket to write to. */
  lemma {:induction false} NoSocketDrops(s: State, t: Tid, id: Id)
    requires At(s, t).pc == Registered(id) && s.link.fd.None? && s.link.sendMu.None?
    ensures var ls := [CallerStep(t, SendStart)] + ([CallerStep(t, Forget)]
                      + ([CallerStep(t, ShutDown)] + ([CallerStep(t, Swap)] + [])));
            && Feasible(s, ls)
            && var z := After(s, ls);
               && z.req.returned == s.req.returned && z.req.pending == {}
               && At(z, t).pc == Failing(s.req.pending - {id})
  {
    hide Feasible, After;
    var s1 := DoSendStart(s, t);
    var s2 := DoForget(s1, t);
    Drops(s2, t);
    Prepend(s1, CallerStep(t, Forget), [CallerStep(t, ShutDown)] + ([CallerStep(t, Swap)] + []));
    Prepend(s, CallerStep(t, SendStart),
            [CallerStep(t, Forget)] + ([CallerStep(t, ShutDown)] + ([CallerStep(t, Swap)] + [])));
  }

  lemma {:induction false} Drops(s: State, t: Tid)
    requires At(s, t).pc.Dropping?
    ensures var ls := [CallerStep(t, ShutDown)] + ([CallerStep(t, Swap)] + []);
            && Feasible(s, ls)
            && var z := After(s, ls);
               && z.req == s.req.(pending := {}) && At(z, t).pc == Failing(s.req.pending)
               && (s.link.fd.Some? ==> s.link.epoch in z.past.shut)
  {
    hide Feasible, After;
    var s1 := Go(ShutLocked(s), t, Swapping);
    var s2 := Go(s1.(req := s1.req.(pending := {})), t, Failing(s1.req.pending));
    Nothing(s2);
    Prepend(s1, CallerStep(t, Swap), []);
    Prepend(s, CallerStep(t, ShutDown), [CallerStep(t, Swap)] + []);
  }

  // ---- commands ----

  /** The steps of a request on an open, armed socket, up to the end of its write. */
  function Sending(t: Tid): seq<Label> {
    [CallerStep(t, Enter)] + ([CallerStep(t, Register)] + ([CallerStep(t, SendStart)]
    + ([CallerStep(t, SendChunk)] + ([CallerStep(t, SendEnd(true))] + []))))
  }

  predicate Open(s: State, t: Tid) {
    !s.link.stopping && s.link.fd.Some? && s.link.armed && s.link.arming != Some(t) && s.link.sendMu.None?
  }

  /** A request on such a socket is written whole to that socket, and its thread waits for the reply. */
  lemma {:induction false} RequestSends(s: State, t: Tid)
    requires At(s, t).pc.Entering? && At(s, t).arm.None? && Open(s, t)
    ensures Feasible(s, Sending(t))
    ensures var z := After(s, Sending(t));
            && (s.link.epoch, At(s, t).job) in z.past.issued && z.sticky == s.sticky
            && Write(OwnerOf(s.link.os, s.link.fd.value), Request(s.link.epoch), true) in z.past.wire
            && At(z, t).pc == Waiting(s.req.nextId + 1) && s.req.nextId + 1 in z.req.pending
  {
    hide Feasible, After;
    var s1 := Admit(s, t);
    var s2 := DoRegister(s1, t);
    Writes(s2, t);
    Prepend(s1, CallerStep(t, Register), WriteOut(t));
    Prepend(s, CallerStep(t, Enter), [CallerStep(t, Register)] + WriteOut(t));
  }

  function WriteOut(t: Tid): seq<Label> {
    [CallerStep(t, SendStart)] + ([CallerStep(t, SendChunk)] + ([CallerStep(t, SendEnd(true))] + []))
  }

  lemma {:induction false} Writes(s: State, t: Tid)
    requires At(s, t).pc.Registered? && At(s, t).arm.None? && s.link.fd.Some? && s.link.sendMu.None?
    ensures Feasible(s, WriteOut(t))
    ensures var z := After(s, WriteOut(t));
            && (s.link.epoch, At(s, t).job) in z.past.issued && z.sticky == s.sticky && z.req == s.req
            && Write(OwnerOf(s.link.os, s.link.fd.value), Request(At(s, t).admitted), s.link.armed) in z.past.wire
            && At(z, t).pc == Waiting(At(s, t).pc.id)
  {
    hide Feasible, After;
    var s1 := DoSendStart(s, t);
    var s2 := DoSendChunk(s1, t);
    var s3 := DoSendEnd(s2, t, true);
    Nothing(s3);
    Prepend(s2, CallerStep(t, SendEnd(true)), []);
    Prepend(s1, CallerStep(t, SendChunk), [CallerStep(t, SendEnd(true))] + []);
    Prepend(s, CallerStep(t, SendStart), [CallerStep(t, SendChunk)] + ([CallerStep(t, SendEnd(true))] + []));
  }

  /** `eval` and the other plain requests send what they are given, */
  lemma {:induction false} CallSends(s: State, t: Tid, text: string)
    requires At(s, t).pc.Idle? && At(s, t).arm.None? && Open(s, t)
    ensures var ls := [CallerStep(t, CallRequest(text))] + Sending(t);
            Feasible(s, ls) && (s.link.epoch, Other(text)) in After(s, ls).past.issued
  {
    hide Feasible, After;
    RequestSends(Ask(s, t, Other(text)), t);
    Prepend(s, CallerStep(t, CallRequest(text)), Sending(t));
  }

  /** a user agent is stored and sent, unless it is empty, */
  lemma {:induction false} AgentSends(s: State, t: Tid, ua: string)
    requires At(s, t).pc.Idle? && At(s, t).arm.None? && Open(s, t) && ua != ""
    ensures var ls := [CallerStep(t, CallAgent(ua))] + ([CallerStep(t, ReadSticky)] + Sending(t));
            && Feasible(s, ls) && (s.link.epoch, Agent(ua)) in After(s, ls).past.issued
            && After(s, ls).sticky == s.sticky.(ua := ua)
  {
    hide Feasible, After;
    var s1 := Go(s.(sticky := s.sticky.(ua := ua)), t, ReadAgent);
    RequestSends(Ask(s1, t, Agent(ua)), t);
    Prepend(s1, CallerStep(t, ReadSticky), Sending(t));
    Prepend(s, CallerStep(t, CallAgent(ua)), [CallerStep(t, ReadSticky)] + Sending(t));
  }

  /** a script is stored at the end of the list unless it is there already, and sent either way, */
  lemma {:induction false} ScriptSends(s: State, t: Tid, source: string)
    requires At(s, t).pc.Idle? && At(s, t).arm.None? && Open(s, t)
    ensures var ls := [CallerStep(t, CallScript(source))] + Sending(t);
            && Feasible(s, ls) && (s.link.epoch, Script(source)) in After(s, ls).past.issued
            && After(s, ls).sticky.scripts
               == s.sticky.scripts + (if source in s.sticky.scripts then [] else [source])
  {
    hide Feasible, After;
    var s1 := DoCallScript(s, t, source);
    assert s1.sticky.scripts == s.sticky.scripts + (if source in s.sticky.scripts then [] else [source]);
    RequestSends(s1, t);
    Prepend(s, CallerStep(t, CallScript(source)), Sending(t));
  }

  /** and a permission is stored and sent, unless its origin is empty. */
  lemma {:induction false} GrantSends(s: State, t: Tid, origin: string, permission: string)
    requires At(s, t).pc.Idle? && At(s, t).arm.None? && Open(s, t) && origin != ""
    ensures var ls := [CallerStep(t, CallGrant(origin, permission))] + ([CallerStep(t, ReadSticky)] + Sending(t));
            && Feasible(s, ls) && (s.link.epoch, Grant(origin, permission)) in After(s, ls).past.issued
            && After(s, ls).sticky == s.sticky.(grant := (origin, permission))
  {
    hide Feasible, After;
    var s1 := Go(s.(sticky := s.sticky.(grant := (origin, permission))), t, ReadGrant);
    RequestSends(Ask(s1, t, Grant(origin, permission)), t);
    Prepend(s1, CallerStep(t, ReadSticky), Sending(t));
    Prepend(s, CallerStep(t, CallGrant(origin, permission)), [CallerStep(t, ReadSticky)] + Sending(t));
  }

  // ---- pings ----

  /** A ping is answered on the socket it came from, and the reader goes back to reading. */
  lemma {:induction false} PingIsAnswered(s: State, e: Epoch)
    requires Reached(s) && e in s.link.readers && s.link.readers[e].Polling? && s.link.sendMu.None?
    ensures var ls := [ReaderStep(e, PingStart)] + ([ReaderStep(e, PingChunk)] + ([ReaderStep(e, PingEnd)] + []));
            && Feasible(s, ls) && Write(Session(e), Pong, s.link.armed) in After(s, ls).past.wire
            && After(s, ls).link == s.link
  {
    OneReader(s, e, e);
    ReachedHolds(s);
    assert ReaderOk(s.link, e);
    hide Reached, Feasible, After;
    var s1 := DoPingStart(s, e);
    var s2 := DoPingChunk(s1, e);
    var s3 := Step(s2, ReaderStep(e, PingEnd));
    assert s3.link.readers == s.link.readers;
    Nothing(s3);
    Prepend(s2, ReaderStep(e, PingEnd), []);
    Prepend(s1, ReaderStep(e, PingChunk), [ReaderStep(e, PingEnd)] + []);
    Prepend(s, ReaderStep(e, PingStart), [ReaderStep(e, PingChunk)] + ([ReaderStep(e, PingEnd)] + []));
  }
}
