/** `CdpSession` of launcher/src/devtools.cpp: one debugger socket shared by many calling threads and
    one reader thread.

    The session is a transition system. Each action is one critical section of the source, or one
    system call made outside every lock, so a run is any interleaving of actions. `conn_mu_`,
    `pending_mu_`, `sticky_mu_` and a slot's mutex guard single actions; `send_mu_` and
    `reconnect_mu_` are held across several and appear as fields. The network chooses what a read
    returns and whether a connection or a write succeeds, and other code opens and closes file
    descriptors of its own. Every published socket is given a number, its epoch. */
module CdpSession {
  import opened Options

  type Tid = nat
  type Id = nat
  type Epoch = nat
  type Fd = nat

  datatype Command =
    | PageEnable
    | Agent(ua: string)
    | Script(source: string)
    | Grant(origin: string, permission: string)
    | Other(text: string)

  /** A reply body; `failed` when it carries `error` or `result.exceptionDetails`. */
  datatype Body = Body(text: string, failed: bool)

  datatype Slot = Slot(done: bool, body: Option<Body>)

  datatype Owner = Session(epoch: Epoch) | Foreign | Nobody

  datatype Holder = ByThread(t: Tid) | ByReader(e: Epoch)

  /** Where the re-arm of a fresh socket stands: what it sends or reads next. */
  datatype Stage = ArmPage | ArmAgent | ArmRead | ArmScripts(rest: seq<string>) | ArmGrant | ArmEnd

  datatype Pc =
    | Idle
    | ReadAgent | ReadGrant
    | Entering | AwaitTurn | CheckingAgain | Joining | Connecting | Publishing(conn: Fd) | Spawning | Arming
    | Admitted | Registered(id: Id) | Writing(id: Id, to: Fd) | Waiting(id: Id)
    | Forgetting(id: Id, drop: bool, body: Option<Body>)
    | Dropping | Swapping | Failing(taken: set<Id>)

  /** `job` is the command being sent, `own` the one the caller asked for, `arm` is set while the
      thread re-arms, `admitted` the epoch at which `ensure_connected` last let it through. */
  datatype Thread = Thread(pc: Pc, job: Command, own: Command, arm: Option<Stage>, admitted: Epoch)

  datatype Reader =
    | Polling | Found(id: Id, body: Body) | Ponging | Closing | Closed | Marking(taken: set<Id>) | Finished

  datatype Writer = Rearm | Request(admitted: Epoch) | Pong

  /** Bytes handed to `::send`: who owned the descriptor, who wrote them, and whether the session counted
      as armed then. */
  datatype Write = Write(owner: Owner, writer: Writer, armed: bool)

  /** The connection: `conn_mu_`, `send_mu_` and `reconnect_mu_` with what they guard, the reader threads by
      epoch, the process's descriptor table, and the number of sockets published so far. */
  datatype Link = Link(
    stopping: bool, fd: Option<Fd>, armed: bool, arming: Option<Tid>, handle: Option<Epoch>,
    sendMu: Option<Holder>, reconnectMu: Option<Tid>, readers: map<Epoch, Reader>, os: map<Fd, Owner>,
    epoch: Epoch)

  /** Requests in flight (`pending_mu_`), with every reply read off the wire and every body handed back. */
  datatype Requests = Requests(
    nextId: nat, pending: set<Id>, slots: map<Id, Slot>, received: set<(Id, Body)>, returned: set<(Id, Body)>)

  /** `sticky_mu_` */
  datatype Sticky = Sticky(ua: string, scripts: seq<string>, grant: (string, string))

  /** The sockets shut down so far, the commands fully sent on each, the socket each request was sent on, what
      the latest re-arm read out of the sticky state and what scripts were stored when its socket was
      published, and every write. */
  datatype History = History(
    shut: set<Epoch>, issued: set<(Epoch, Command)>, sentAt: map<Id, Epoch>, due: set<Command>,
    atPublish: seq<string>, wire: set<Write>)

  datatype State = State(link: Link, req: Requests, sticky: Sticky, threads: map<Tid, Thread>, past: History)

  const IDLE := Thread(Idle, PageEnable, PageEnable, None, 0)

  function Init(): State {
    State(Link(false, None, false, None, None, None, None, map[], map[], 0),
          Requests(0, {}, map[], {}, {}), Sticky("", [], ("", "")), map[], History({}, {}, map[], {}, [], {}))
  }

  function At(s: State, t: Tid): Thread {
    if t in s.threads then s.threads[t] else IDLE
  }

  function OwnerOf(os: map<Fd, Owner>, fd: Fd): Owner {
    if fd in os then os[fd] else Nobody
  }

  function Put(s: State, t: Tid, th: Thread): State {
    s.(threads := s.threads[t := th])
  }

  function Go(s: State, t: Tid, pc: Pc): State {
    Put(s, t, At(s, t).(pc := pc))
  }

  function WithLink(s: State, k: Link): State {
    s.(link := k)
  }

  function WithReader(s: State, e: Epoch, r: Reader): State {
    s.(link := s.link.(readers := s.link.readers[e := r]))
  }

  /** `request` is over for this thread: back to the re-arm it is part of, or to its caller. */
  function Finish(s: State, t: Tid): State {
    Go(s, t, if At(s, t).arm.Some? then Arming else Idle)
  }

  // ---- caller threads ----

  datatype Action =
    | CallRequest(text: string) | CallAgent(ua: string) | CallScript(source: string)
    | CallGrant(origin: string, permission: string) | ReadSticky
    | Enter | TakeTurn | CheckAgain | Join | ConnectFails | Connect(fd: Fd) | Publish | Spawn | ArmNext
    | Register | SendStart | SendChunk | SendEnd(ok: bool) | Wake | Forget
    | ShutDown | Swap | Mark(id: Id) | MarkEnd

  predicate CanCall(s: State, t: Tid, a: Action) {
    var pc := At(s, t).pc;
    match a
    case CallRequest(_) => pc.Idle?
    case CallAgent(_) => pc.Idle?
    case CallScript(_) => pc.Idle?
    case CallGrant(_, _) => pc.Idle?
    case ReadSticky => pc.ReadAgent? || pc.ReadGrant?
    case Enter => pc.Entering?
    case TakeTurn => pc.AwaitTurn? && s.link.reconnectMu.None?
    case CheckAgain => pc.CheckingAgain?
    case Join => pc.Joining? && Joinable(s.link)
    case ConnectFails => pc.Connecting?
    case Connect(fd) => pc.Connecting? && fd !in s.link.os
    case Publish => pc.Publishing? && s.link.sendMu.None?
    case Spawn => pc.Spawning?
    case ArmNext => pc.Arming? && At(s, t).arm.Some?
    case Register => pc.Admitted?
    case SendStart => pc.Registered? && s.link.sendMu.None?
    case SendChunk => pc.Writing?
    case SendEnd(_) => pc.Writing?
    case Wake => pc.Waiting? && pc.id in s.req.slots
    case Forget => pc.Forgetting?
    case ShutDown => pc.Dropping?
    case Swap => pc.Swapping?
    case Mark(id) => pc.Failing? && id in pc.taken
    case MarkEnd => pc.Failing? && pc.taken == {}
  }

  function Call(s: State, t: Tid, a: Action): State
    requires CanCall(s, t, a)
  {
    match a
    case CallRequest(text) => Ask(s, t, Other(text))
    case CallAgent(ua) => Go(s.(sticky := s.sticky.(ua := ua)), t, ReadAgent)
    case CallScript(source) => DoCallScript(s, t, source)
    case CallGrant(origin, permission) => Go(s.(sticky := s.sticky.(grant := (origin, permission))), t, ReadGrant)
    case ReadSticky => DoReadSticky(s, t)
    case Enter => DoEnter(s, t)
    case TakeTurn => Go(WithLink(s, s.link.(reconnectMu := Some(t))), t, CheckingAgain)
    case CheckAgain => DoCheckAgain(s, t)
    case Join => Go(WithLink(s, s.link.(handle := None)), t, Connecting)
    case ConnectFails => Go(WithLink(s, s.link.(reconnectMu := None)), t, Idle)
    case Connect(fd) => Go(WithLink(s, s.link.(os := s.link.os[fd := Session(s.link.epoch + 1)])), t, Publishing(fd))
    case Publish => DoPublish(s, t)
    case Spawn => DoSpawn(s, t)
    case ArmNext => DoArmNext(s, t)
    case Register => DoRegister(s, t)
    case SendStart => DoSendStart(s, t)
    case SendChunk => DoSendChunk(s, t)
    case SendEnd(ok) => DoSendEnd(s, t, ok)
    case Wake => DoWake(s, t)
    case Forget => DoForget(s, t)
    case ShutDown => Go(ShutLocked(s), t, Swapping)
    case Swap => Go(s.(req := s.req.(pending := {})), t, Failing(s.req.pending))
    case Mark(id) => Go(s.(req := FailSlot(s.req, id)), t, Failing(At(s, t).pc.taken - {id}))
    case MarkEnd => Finish(s, t)
  }

  /** The public call `t` makes sends `c`. */
  function Ask(s: State, t: Tid, c: Command): State {
    Put(s, t, At(s, t).(pc := Entering, job := c, own := c))
  }

  /** `add_sticky_script`: a script is stored once, and installed at each call. */
  function DoCallScript(s: State, t: Tid, source: string): State {
    if source in s.sticky.scripts then Ask(s, t, Script(source))
    else Ask(s.(sticky := s.sticky.(scripts := s.sticky.scripts + [source])), t, Script(source))
  }

  /** `apply_user_agent` and `apply_grant`: an empty value sends nothing. */
  function DoReadSticky(s: State, t: Tid): State {
    if At(s, t).pc.ReadAgent? then
      if s.sticky.ua == "" then Go(s, t, Idle) else Ask(s, t, Agent(s.sticky.ua))
    else
      if s.sticky.grant.0 == "" then Go(s, t, Idle) else Ask(s, t, Grant(s.sticky.grant.0, s.sticky.grant.1))
  }

  function Admit(s: State, t: Tid): State {
    Put(s, t, At(s, t).(pc := Admitted, admitted := s.link.epoch))
  }

  /** The fast path of `ensure_connected`. */
  function DoEnter(s: State, t: Tid): State {
    if s.link.stopping then Finish(s, t)
    else if s.link.arming == Some(t) then if s.link.fd.Some? then Admit(s, t) else Finish(s, t)
    else if s.link.fd.Some? && s.link.armed then Admit(s, t)
    else Go(s, t, AwaitTurn)
  }

  function DoCheckAgain(s: State, t: Tid): State {
    if s.link.stopping then Go(WithLink(s, s.link.(reconnectMu := None)), t, Idle)
    else if s.link.fd.Some? && s.link.armed then Admit(WithLink(s, s.link.(reconnectMu := None)), t)
    else Go(s, t, Joining)
  }

  function Published(k: Link, t: Tid, conn: Fd): Link {
    k.(fd := Some(conn), armed := false, arming := Some(t), epoch := k.epoch + 1)
  }

  function DoPublish(s: State, t: Tid): State
    requires At(s, t).pc.Publishing?
  {
    var conn := At(s, t).pc.conn;
    if s.link.stopping then Go(WithLink(s, s.link.(reconnectMu := None, os := s.link.os - {conn})), t, Idle)
    else
      Put(s, t, At(s, t).(pc := Spawning, arm := Some(ArmPage))).(
        link := Published(s.link, t, conn),
        past := s.past.(due := {PageEnable}, atPublish := s.sticky.scripts))
  }

  function DoSpawn(s: State, t: Tid): State {
    var e := s.link.epoch;
    Go(WithLink(s, s.link.(readers := s.link.readers[e := Polling], handle := Some(e))), t, Arming)
  }

  /** The re-arm sends `c`, then goes on with `next`. */
  function ArmAsk(s: State, t: Tid, c: Command, next: Stage): State {
    Put(s, t, At(s, t).(pc := Entering, job := c, arm := Some(next)))
  }

  function ArmSkip(s: State, t: Tid, next: Stage): State {
    Put(s, t, At(s, t).(arm := Some(next)))
  }

  function Due(s: State, cs: set<Command>): State {
    s.(past := s.past.(due := s.past.due + cs))
  }

  function ScriptsOf(xs: seq<string>): set<Command> {
    set x | x in xs :: Script(x)
  }

  function DoArmNext(s: State, t: Tid): State
    requires At(s, t).arm.Some?
  {
    match At(s, t).arm.value
    case ArmPage => ArmAsk(s, t, PageEnable, ArmAgent)
    case ArmAgent =>
      if s.sticky.ua == "" then ArmSkip(s, t, ArmRead)
      else ArmAsk(Due(s, {Agent(s.sticky.ua)}), t, Agent(s.sticky.ua), ArmRead)
    case ArmRead => ArmSkip(Due(s, ScriptsOf(s.sticky.scripts)), t, ArmScripts(s.sticky.scripts))
    case ArmScripts(rest) =>
      if rest == [] then ArmSkip(s, t, ArmGrant) else ArmAsk(s, t, Script(rest[0]), ArmScripts(rest[1..]))
    case ArmGrant =>
      var g := s.sticky.grant;
      if g.0 == "" then ArmSkip(s, t, ArmEnd) else ArmAsk(Due(s, {Grant(g.0, g.1)}), t, Grant(g.0, g.1), ArmEnd)
    case ArmEnd => DoArmEnd(s, t)
  }

  function DoArmEnd(s: State, t: Tid): State {
    var k := s.link.(arming := None, armed := true, reconnectMu := None);
    var pc := if s.link.fd.Some? then Admitted else Idle;
    Put(WithLink(s, k), t, Thread(pc, At(s, t).own, At(s, t).own, None, s.link.epoch))
  }

  function DoRegister(s: State, t: Tid): State {
    var id := s.req.nextId + 1;
    var req := s.req.(nextId := id, pending := s.req.pending + {id}, slots := s.req.slots[id := Slot(false, None)]);
    Go(s.(req := req), t, Registered(id))
  }

  function DoSendStart(s: State, t: Tid): State
    requires At(s, t).pc.Registered?
  {
    if s.link.fd.None? then Go(s, t, Forgetting(At(s, t).pc.id, true, None))
    else Go(WithLink(s, s.link.(sendMu := Some(ByThread(t)))), t, Writing(At(s, t).pc.id, s.link.fd.value))
  }

  /** One `::send`. */
  function DoSendChunk(s: State, t: Tid): State
    requires At(s, t).pc.Writing?
  {
    var writer := if At(s, t).arm.Some? then Rearm else Request(At(s, t).admitted);
    var w := Write(OwnerOf(s.link.os, At(s, t).pc.to), writer, s.link.armed);
    s.(past := s.past.(wire := s.past.wire + {w}))
  }

  function DoSendEnd(s: State, t: Tid, ok: bool): State
    requires At(s, t).pc.Writing?
  {
    var s1, id := WithLink(s, s.link.(sendMu := None)), At(s, t).pc.id;
    if ok then
      Go(s1.(past := s.past.(issued := s.past.issued + {(s.link.epoch, At(s, t).job)},
                             sentAt := s.past.sentAt[id := s.link.epoch])), t, Waiting(id))
    else
      Go(s1, t, Forgetting(id, true, None))
  }

  /** The slot is done, or the wait timed out. */
  function DoWake(s: State, t: Tid): State
    requires At(s, t).pc.Waiting? && At(s, t).pc.id in s.req.slots
  {
    var slot := s.req.slots[At(s, t).pc.id];
    Go(s, t, Forgetting(At(s, t).pc.id, !slot.done, if slot.done then slot.body else None))
  }

  function DoForget(s: State, t: Tid): State
    requires At(s, t).pc.Forgetting?
  {
    var pc := At(s, t).pc;
    var kept := s.req.(pending := s.req.pending - {pc.id});
    if pc.drop then Go(s.(req := kept), t, Dropping)
    else if pc.body.Some? && !pc.body.value.failed then
      Finish(s.(req := kept.(returned := kept.returned + {(pc.id, pc.body.value)})), t)
    else Finish(s.(req := kept), t)
  }

  function ShutLocked(s: State): State {
    if s.link.fd.Some? then s.(past := s.past.(shut := s.past.shut + {s.link.epoch})) else s
  }

  function FailSlot(r: Requests, id: Id): Requests {
    r.(slots := r.slots[id := Slot(true, None)])
  }

  // ---- the reader ----

  datatype ReaderAction =
    | Receive(id: Id, body: Body) | Deliver | PingStart | PingChunk | PingEnd | Quit | Close
    | TakeAll | MarkOne(id: Id) | Exit

  predicate CanRead(s: State, e: Epoch, a: ReaderAction) {
    && e in s.link.readers
    && var r := s.link.readers[e];
    match a
    case Receive(_, _) => r.Polling?
    case Deliver => r.Found?
    case PingStart => r.Polling? && s.link.sendMu.None?
    case PingChunk => r.Ponging?
    case PingEnd => r.Ponging?
    case Quit => r.Polling?
    case Close => r.Closing? && s.link.sendMu.None?
    case TakeAll => r.Closed?
    case MarkOne(id) => r.Marking? && id in r.taken
    case Exit => r.Marking? && r.taken == {}
  }

  function Read(s: State, e: Epoch, a: ReaderAction): State
    requires CanRead(s, e, a)
  {
    match a
    case Receive(id, body) => DoReceive(s, e, id, body)
    case Deliver => DoDeliver(s, e)
    case PingStart => DoPingStart(s, e)
    case PingChunk => DoPingChunk(s, e)
    case PingEnd => WithLink(s, s.link.(readers := s.link.readers[e := Polling], sendMu := None))
    case Quit => WithReader(s, e, Closing)
    case Close => DoClose(s, e)
    case TakeAll => WithReader(s, e, Marking(s.req.pending)).(req := s.req.(pending := {}))
    case MarkOne(id) => WithReader(s, e, Marking(s.link.readers[e].taken - {id})).(req := FailSlot(s.req, id))
    case Exit => WithReader(s, e, Finished)
  }

  function DoReceive(s: State, e: Epoch, id: Id, body: Body): State {
    var req := s.req.(received := s.req.received + {(id, body)});
    if id in s.req.pending then WithReader(s, e, Found(id, body)).(req := req) else s.(req := req)
  }

  function DoDeliver(s: State, e: Epoch): State
    requires e in s.link.readers && s.link.readers[e].Found?
  {
    var r := s.link.readers[e];
    WithReader(s, e, Polling).(req := s.req.(slots := s.req.slots[r.id := Slot(true, Some(r.body))]))
  }

  function DoPingStart(s: State, e: Epoch): State {
    if s.link.fd.None? then s
    else WithLink(s, s.link.(readers := s.link.readers[e := Ponging], sendMu := Some(ByReader(e))))
  }

  function DoPingChunk(s: State, e: Epoch): State {
    if s.link.fd.None? then s
    else
      var w := Write(OwnerOf(s.link.os, s.link.fd.value), Pong, s.link.armed);
      s.(past := s.past.(wire := s.past.wire + {w}))
  }

  function DoClose(s: State, e: Epoch): State {
    var k := s.link.(armed := false, readers := s.link.readers[e := Closed]);
    if s.link.fd.None? then WithLink(s, k)
    else WithLink(ShutLocked(s), k.(fd := None, os := k.os - {s.link.fd.value}))
  }

  // ---- runs ----

  /** `Stop` and `JoinLast` are the destructor; the last two are the rest of the process. */
  datatype Label =
    | CallerStep(t: Tid, a: Action)
    | ReaderStep(e: Epoch, r: ReaderAction)
    | Stop
    | JoinLast
    | ForeignOpen(fd: Fd)
    | ForeignClose(fd: Fd)

  predicate Joinable(k: Link) {
    k.handle.Some? ==> k.handle.value in k.readers && k.readers[k.handle.value].Finished?
  }

  predicate Enabled(s: State, l: Label) {
    match l
    case CallerStep(t, a) => CanCall(s, t, a)
    case ReaderStep(e, a) => CanRead(s, e, a)
    case Stop => true
    case JoinLast => s.link.stopping && s.link.reconnectMu.None? && Joinable(s.link)
    case ForeignOpen(fd) => fd !in s.link.os
    case ForeignClose(fd) => fd in s.link.os && s.link.os[fd].Foreign?
  }

  function Step(s: State, l: Label): State
    requires Enabled(s, l)
  {
    match l
    case CallerStep(t, a) => Call(s, t, a)
    case ReaderStep(e, a) => Read(s, e, a)
    case Stop => ShutLocked(WithLink(s, s.link.(stopping := true)))
    case JoinLast => WithLink(s, s.link.(handle := None))
    case ForeignOpen(fd) => WithLink(s, s.link.(os := s.link.os[fd := Foreign]))
    case ForeignClose(fd) => WithLink(s, s.link.(os := s.link.os - {fd}))
  }

  /** Every label of `ls`, taken in order from `s`, is enabled. */
  predicate Feasible(s: State, ls: seq<Label>)
    decreases |ls|
  {
    ls == [] || (Enabled(s, ls[0]) && Feasible(Step(s, ls[0]), ls[1..]))
  }

  function After(s: State, ls: seq<Label>): State
    requires Feasible(s, ls)
    decreases |ls|
  {
    if ls == [] then s else After(Step(s, ls[0]), ls[1..])
  }
}
