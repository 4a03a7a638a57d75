/** Self-update: `UpdatePromptController` of launcher/src/updateprompt.cpp and the portal loop of
    launcher/src/updater.cpp with the backoff of launcher/src/busloop.cpp.

    Three threads share the state: the input thread (ticks and button presses), the probe thread and the
    portal loop. Each action is one critical section or one atomic access of the source; a run interleaves
    them freely under a clock that only moves forward. The portal decides what its calls and signals say. */
module Updates {
  import opened Options

  // ---- busloop.cpp ----

  const RECONNECT_BASE_MS := 1000
  const RECONNECT_MAX_MS := 60000
  const RECONNECT_MAX_SHIFT := 6
  const RECONNECT_MAX_TRIES := 12
  const RECONNECT_STABLE_MS := 30000

  function ShiftLeft(n: nat, k: nat): nat {
    if k == 0 then n else 2 * ShiftLeft(n, k - 1)
  }

  function ReconnectDelay(attempt: nat): nat {
    var shift := if attempt < RECONNECT_MAX_SHIFT then attempt else RECONNECT_MAX_SHIFT;
    var d := ShiftLeft(RECONNECT_BASE_MS, shift);
    if d < RECONNECT_MAX_MS then d else RECONNECT_MAX_MS
  }

  predicate ShouldGiveUp(failures: nat) {
    failures >= RECONNECT_MAX_TRIES
  }

  // ---- state ----

  /** `auto` deploys on detection; `probing`: the published-ref probe is configured. */
  datatype Config = Config(auto: bool, probing: bool, timeout: nat, window: nat)

  datatype Phase = Idle | Checking | Requested | Done | Empty | Failed | Blocked

  datatype RefCheck = UpdateAvailable | UpToDate | Unknown

  datatype Probe = NoProbe | Probing | Published(result: RefCheck, commit: string)

  /** Where the input thread stands between two actions. `Asking` has recorded a request and has yet to
      signal the loop; `Requesting` has yet to record it. */
  datatype InputPc =
    | Free
    | Kicking
    | Polling
    | Consuming(result: RefCheck, commit: string, forUser: bool)
    | Settling(result: RefCheck, forUser: bool, announced: bool)
    | Requesting(fallback: bool)
    | Asking(inTick: bool)
    | Locking
    | Announcing(seen: Phase, news: bool)

  datatype Prompt = Prompt(
    phase: Phase, news: bool, requestedAt: nat, probe: Probe, launched: bool, forUser: bool,
    announced: string, refused: string, refusedAt: nat, lastCommit: string, pc: InputPc)

  datatype LoopPc =
    | Retrying | BackingOff(delay: nat) | Pumping | Turning | Deciding | Calling | Inert | Stopped

  datatype Loop = Loop(
    pc: LoopPc, inLoop: bool, running: bool, confirm: bool, want: bool, updating: bool, rebuild: bool,
    failures: nat, lastConnect: nat, monitor: Option<nat>)

  /** The portal: monitors handed out, deploys in flight on each, accepted calls whose reply never came. */
  datatype Portal = Portal(made: nat, inFlight: map<nat, nat>, lost: map<nat, nat>)

  /** What happened to the link since `loop` was entered; `delay` is the wait that followed. `Rebuilt` and
      `RebuildFailed` are the two outcomes after a restart of the portal. */
  datatype Event =
    | Connected(at: nat) | Dropped(at: nat, delay: nat) | Refused(delay: nat) | Rebuilt(at: nat) | RebuildFailed

  datatype History = History(presses: nat, updates: nat, events: seq<Event>)

  datatype State = State(now: nat, available: Option<string>, prompt: Prompt, loop: Loop, portal: Portal, past: History)

  function Init(): State {
    State(0, None,
          Prompt(Idle, false, 0, NoProbe, false, false, "", "", 0, "", Free),
          Loop(Retrying, false, true, false, false, false, false, 0, 0, None),
          Portal(0, map[], map[]), History(0, 0, []))
  }

  // ---- the controller ----

  datatype InputAction =
    | PressUpdate | PressCheck | Kick
    | TickStart | PollProbe | ReadAnnounced | Settle | Request | Ask | Lock | Announce

  predicate CanInput(p: Prompt, a: InputAction) {
    match a
    case PressUpdate => p.pc.Free?
    case PressCheck => p.pc.Free?
    case Kick => p.pc.Kicking?
    case TickStart => p.pc.Free?
    case PollProbe => p.pc.Polling?
    case ReadAnnounced => p.pc.Consuming?
    case Settle => p.pc.Settling?
    case Request => p.pc.Requesting?
    case Ask => p.pc.Asking?
    case Lock => p.pc.Locking?
    case Announce => p.pc.Announcing?
  }

  function WithPrompt(s: State, p: Prompt): State {
    s.(prompt := p)
  }

  function WithPc(s: State, pc: InputPc): State {
    s.(prompt := s.prompt.(pc := pc))
  }

  function Pressed(s: State): State {
    s.(past := s.past.(presses := s.past.presses + 1))
  }

  /** `kick_probe`: a probe already running, or unconsumed, is not started again. */
  function Kicked(p: Prompt): Prompt {
    if p.probe.NoProbe? then p.(probe := Probing) else p
  }

  predicate Refuses(p: Prompt, cfg: Config, now: nat, commit: string) {
    p.refused != "" && commit == p.refused && now < p.refusedAt + cfg.window
  }

  function DoInput(cfg: Config, s: State, a: InputAction): State
    requires CanInput(s.prompt, a)
  {
    match a
    case PressUpdate => WithPc(Pressed(s), Requesting(false))
    case PressCheck => DoPressCheck(cfg, Pressed(s))
    case Kick => WithPrompt(s, Kicked(s.prompt).(forUser := true, pc := Free))
    case TickStart => DoTickStart(cfg, s)
    case PollProbe => DoPollProbe(cfg, s)
    case ReadAnnounced => DoReadAnnounced(cfg, s)
    case Settle => DoSettle(s)
    case Request => DoRequest(s)
    case Ask => WithPc(s.(loop := s.loop.(confirm := true)), if s.prompt.pc.inTick then Locking else Free)
    case Lock => DoLock(cfg, s)
    case Announce => DoAnnounce(s)
  }

  function DoPressCheck(cfg: Config, s: State): State {
    if !cfg.probing then WithPc(s, Requesting(false))
    else if s.prompt.phase.Requested? || s.prompt.phase.Done? then s
    else WithPrompt(s, s.prompt.(phase := Checking, news := false, pc := Kicking))
  }

  /** One probe per launch. */
  function DoTickStart(cfg: Config, s: State): State {
    if !s.prompt.launched && cfg.probing then WithPrompt(s, Kicked(s.prompt).(launched := true, pc := Polling))
    else WithPc(s, Polling)
  }

  /** The first half of `consume_probe`: the probe only ever adds availability. */
  function DoPollProbe(cfg: Config, s: State): State {
    match s.prompt.probe
    case Published(found, commit) =>
      var p := s.prompt;
      var result := if found.UpdateAvailable? && Refuses(p, cfg, s.now, commit) then UpToDate else found;
      var pc := Consuming(result, commit, p.forUser);
      if result.UpdateAvailable? then
        s.(available := Some(commit),
           prompt := p.(probe := NoProbe, forUser := false, announced := commit, lastCommit := "", pc := pc))
      else WithPrompt(s, p.(probe := NoProbe, forUser := false, pc := pc))
    case _ => WithPc(s, Locking)
  }

  function DoReadAnnounced(cfg: Config, s: State): State
    requires s.prompt.pc.Consuming?
  {
    var announced := s.available.Some? && !Refuses(s.prompt, cfg, s.now, s.available.value);
    WithPc(s, Settling(s.prompt.pc.result, s.prompt.pc.forUser, announced))
  }

  /** The second half, under `deploy_mu_`. */
  function DoSettle(s: State): State
    requires s.prompt.pc.Settling?
  {
    var p, pc := s.prompt, s.prompt.pc;
    var checking := p.phase.Checking?;
    match pc.result
    case UpdateAvailable => WithPrompt(s, p.(phase := if checking then Idle else p.phase, pc := Locking))
    case UpToDate =>
      if checking || (p.phase.Idle? && !pc.forUser) then
        WithPrompt(s, p.(phase := if pc.announced then Idle else Empty, news := checking && !pc.announced,
                         pc := Locking))
      else WithPc(s, Locking)
    case Unknown => WithPc(s, if checking then Requesting(true) else Locking)
  }

  /** `request_deploy` under `deploy_mu_`. */
  function DoRequest(s: State): State
    requires s.prompt.pc.Requesting?
  {
    WithPrompt(s, s.prompt.(phase := Requested, news := false, requestedAt := s.now,
                            pc := Asking(s.prompt.pc.fallback)))
  }

  /** `tick` under `deploy_mu_`. */
  function DoLock(cfg: Config, s: State): State {
    var p := s.prompt;
    if p.phase.Requested? && s.now - p.requestedAt >= cfg.timeout then
      WithPrompt(s, p.(phase := Failed, news := true, pc := Announcing(Failed, p.news)))
    else WithPrompt(s, p.(news := false, pc := Announcing(p.phase, p.news)))
  }

  /** The rest of `tick`: a refusal is noted, and a newer commit makes an earlier verdict stale. */
  function DoAnnounce(s: State): State
    requires s.prompt.pc.Announcing?
  {
    var p, seen := s.prompt, s.prompt.pc.seen;
    var p1 :=
      if p.pc.news && seen.Empty? && p.announced != "" && s.available == Some(p.announced)
      then p.(refused := p.announced, refusedAt := s.now) else p;
    if s.available.Some? && s.available.value != "" && s.available.value != p.lastCommit then
      var stale := (seen.Empty? || seen.Failed? || seen.Blocked?) && p.phase == seen;
      WithPrompt(s, p1.(lastCommit := s.available.value, phase := if stale then Idle else p.phase, pc := Free))
    else WithPrompt(s, p1.(pc := Free))
  }

  // ---- the portal loop ----

  datatype Outcome = NotSent | Accepted | Rejected(blocked: bool) | ReplyLost

  datatype LoopAction =
    | Establish(ok: bool) | BackoffEnds | PumpFails | PumpOk
    | OnAvailable(commit: string) | OnRunning | OnTerminal(verdict: Phase) | OnOwnerChanged
    | Rebuild(ok: bool) | TakeConfirm | Decide | CallReturns(outcome: Outcome) | SeeStop

  predicate IsVerdict(v: Phase) {
    v.Done? || v.Empty? || v.Failed? || v.Blocked?
  }

  function Count(m: map<nat, nat>, k: nat): nat {
    if k in m then m[k] else 0
  }

  predicate CanLoop(s: State, a: LoopAction) {
    var k := s.loop;
    match a
    case Establish(_) => k.pc.Retrying? && k.running
    case BackoffEnds => k.pc.BackingOff?
    case PumpFails => k.pc.Pumping?
    case PumpOk => k.pc.Pumping?
    case OnAvailable(_) => k.pc.Pumping?
    case OnRunning => k.pc.Pumping?
    // the portal reports the end of a deploy it has accepted, once
    case OnTerminal(v) =>
      k.pc.Pumping? && IsVerdict(v) && k.monitor.Some? && Count(s.portal.inFlight, k.monitor.value) > 0
    case OnOwnerChanged => k.pc.Pumping?
    case Rebuild(_) => k.pc.Turning? && k.rebuild
    case TakeConfirm => k.pc.Turning? && !k.rebuild
    case Decide => k.pc.Deciding?
    case CallReturns(_) => k.pc.Calling? && k.monitor.Some?
    case SeeStop => !k.running
  }

  function WithLoop(s: State, k: Loop): State {
    s.(loop := k)
  }

  function Noted(past: History, k: Loop, e: Event): History {
    if k.inLoop then past.(events := past.events + [e]) else past
  }

  /** A new monitor, made by `establish_monitor`. */
  function Monitored(k: Loop, m: nat, now: nat): Loop {
    k.(pc := Pumping, monitor := Some(m), updating := false, lastConnect := now)
  }

  /** One more failure: back off, or give up. */
  function Failing(k: Loop): Loop {
    k.(failures := k.failures + 1, monitor := None, updating := false,
       pc := if ShouldGiveUp(k.failures + 1) then Inert else BackingOff(ReconnectDelay(k.failures)))
  }

  function DelayAfter(k: Loop): nat {
    if ShouldGiveUp(k.failures + 1) then 0 else ReconnectDelay(k.failures)
  }

  function DoLoop(cfg: Config, s: State, a: LoopAction): State
    requires CanLoop(s, a)
  {
    match a
    case Establish(ok) => DoEstablish(s, ok)
    case BackoffEnds => WithLoop(s, s.loop.(pc := if s.loop.running then Retrying else Stopped))
    case PumpFails => DoPumpFails(s)
    case PumpOk => WithLoop(s, s.loop.(pc := Turning))
    case OnAvailable(commit) =>
      if cfg.auto then WithLoop(s, s.loop.(want := s.loop.want || !s.loop.updating))
      else s.(available := Some(commit))
    case OnRunning => DoRunning(s)
    case OnTerminal(verdict) => DoTerminal(s, verdict)
    case OnOwnerChanged => WithLoop(s, s.loop.(rebuild := true))
    case Rebuild(ok) => DoRebuild(s, ok)
    case TakeConfirm =>
      WithLoop(s, s.loop.(confirm := false, want := s.loop.want || (s.loop.confirm && !s.loop.updating),
                          pc := Deciding))
    case Decide =>
      if s.loop.want && !s.loop.updating then WithLoop(s, s.loop.(want := false, updating := true, pc := Calling))
      else WithLoop(s, s.loop.(pc := Pumping))
    case CallReturns(outcome) => DoCall(s, outcome)
    case SeeStop => WithLoop(s, s.loop.(pc := Stopped))
  }

  /** One round of `establish_with_retry`; its first success enters `loop`. */
  function DoEstablish(s: State, ok: bool): State {
    if ok then
      var k := Monitored(s.loop, s.portal.made, s.now);
      var k1 := if k.inLoop then k else k.(inLoop := true, failures := 0);
      s.(loop := k1, portal := s.portal.(made := s.portal.made + 1), past := Noted(s.past, k1, Connected(s.now)))
    else
      s.(loop := Failing(s.loop), past := Noted(s.past, s.loop, Refused(DelayAfter(s.loop))))
  }

  /** The bus dropped. */
  function DoPumpFails(s: State): State {
    if s.now - s.loop.lastConnect >= RECONNECT_STABLE_MS then
      s.(loop := s.loop.(failures := 0, monitor := None, updating := false, pc := Retrying),
         past := Noted(s.past, s.loop, Dropped(s.now, 0)))
    else
      s.(loop := Failing(s.loop), past := Noted(s.past, s.loop, Dropped(s.now, DelayAfter(s.loop))))
  }

  /** flatpak-portal restarted: only the monitor is rebuilt, unless that fails. */
  function DoRebuild(s: State, ok: bool): State {
    if ok then
      s.(loop := Monitored(s.loop.(rebuild := false), s.portal.made, s.now),
         portal := s.portal.(made := s.portal.made + 1), past := Noted(s.past, s.loop, Rebuilt(s.now)))
    else
      s.(loop := s.loop.(rebuild := false, monitor := None, updating := false, pc := Retrying),
         past := Noted(s.past, s.loop, RebuildFailed))
  }

  /** `on_deploy_progress` */
  function DoRunning(s: State): State {
    if s.prompt.phase.Requested? then WithPrompt(s, s.prompt.(requestedAt := s.now)) else s
  }

  /** `on_deploy_result` */
  function Verdict(p: Prompt, v: Phase): Prompt {
    p.(phase := v, news := true)
  }

  function DoTerminal(s: State, v: Phase): State
    requires s.loop.monitor.Some?
  {
    var m := s.loop.monitor.value;
    var n := Count(s.portal.inFlight, m);
    s.(loop := s.loop.(updating := false), prompt := Verdict(s.prompt, v),
       portal := s.portal.(inFlight := s.portal.inFlight[m := if n > 0 then n - 1 else 0]))
  }

  /** `do_update`: a call that fails, whatever the portal made of it, is a terminal verdict. */
  function DoCall(s: State, outcome: Outcome): State
    requires s.loop.monitor.Some?
  {
    var m, portal := s.loop.monitor.value, s.portal;
    var called := s.past.(updates := s.past.updates + 1);
    var started := portal.inFlight[m := Count(portal.inFlight, m) + 1];
    match outcome
    case NotSent => WithLoop(s, s.loop.(updating := false, pc := Pumping))
    case Accepted => s.(loop := s.loop.(pc := Pumping), past := called, portal := portal.(inFlight := started))
    case Rejected(blocked) =>
      s.(loop := s.loop.(updating := false, pc := Pumping), past := called,
         prompt := Verdict(s.prompt, if blocked then Blocked else Failed))
    case ReplyLost =>
      s.(loop := s.loop.(updating := false, pc := Pumping), past := called, prompt := Verdict(s.prompt, Failed),
         portal := portal.(inFlight := started, lost := portal.lost[m := Count(portal.lost, m) + 1]))
  }

  // ---- runs ----

  datatype Label =
    | InputStep(i: InputAction)
    | LoopStep(k: LoopAction)
    | ProbeEnds(result: RefCheck, commit: string)
    | Wait(ms: nat)
    | Stop

  predicate Enabled(s: State, l: Label) {
    match l
    case InputStep(a) => CanInput(s.prompt, a)
    case LoopStep(a) => CanLoop(s, a)
    case ProbeEnds(_, _) => s.prompt.probe.Probing?
    case Wait(_) => true
    case Stop => true
  }

  function Step(cfg: Config, s: State, l: Label): State
    requires Enabled(s, l)
  {
    match l
    case InputStep(a) => DoInput(cfg, s, a)
    case LoopStep(a) => DoLoop(cfg, s, a)
    case ProbeEnds(result, commit) => WithPrompt(s, s.prompt.(probe := Published(result, commit)))
    case Wait(ms) => s.(now := s.now + ms)
    case Stop => WithLoop(s, s.loop.(running := false))
  }

  predicate Feasible(cfg: Config, s: State, ls: seq<Label>)
    decreases |ls|
  {
    ls == [] || (Enabled(s, ls[0]) && Feasible(cfg, Step(cfg, s, ls[0]), ls[1..]))
  }

  function After(cfg: Config, s: State, ls: seq<Label>): State
    requires Feasible(cfg, s, ls)
    decreases |ls|
  {
    if ls == [] then s else After(cfg, Step(cfg, s, ls[0]), ls[1..])
  }
}
