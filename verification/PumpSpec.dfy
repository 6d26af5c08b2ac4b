/** The pump, the machine and the session as one value: what each input does. */
module PumpSpec {
  import opened Prelude
  import opened Buffers
  import opened Acp
  import opened Machine
  import opened Events
  import opened SessionSpec
  import opened Messages
  import opened Codec

  datatype LogEntry =
    | LaunchFailed(fault: Fault)
    | WriteFailed
    | Stderr(data: Bytes)
    | Undelivered(effects: seq<Effect>)
    | Unsent(prompts: seq<string>)

  /** What the pump is given: JSON text, the working directory (`.` where none is
      configured), which writes to the child fail, and the wording of diagnostics. */
  datatype Config = Config(text: JsonText, cwd: string, fails: nat -> bool, wordLog: LogEntry -> string)

  /** How an exception would leave the pump. */
  datatype Crash = OutOfPhaseCall | BadDeliveryTarget | MalformedPayload

  /** The pump's fields, and its session. */
  datatype Pump = Pump(
    machine: Machine, decoder: Bytes, alive: bool, pending: seq<string>,
    transcript: Option<BufferId>, diagnostics: Option<BufferId>, backlog: seq<Effect>)

  /** What one child's life has seen: the envelopes handed to its channel (also those
      whose write then failed), the prompts submitted, the permission requests the
      machine had to take up, the effects produced, milestones included, and those that
      reached the transcript. */
  datatype Life = Life(
    wire: seq<Message>, submitted: seq<string>, accepted: seq<RequestId>,
    produced: seq<Effect>, delivered: seq<Effect>)

  datatype World = World(pump: Pump, session: Session, life: Life, writes: nat, ended: bool, crash: Option<Crash>)

  const NEW_LIFE := Life([], [], [], [], [])
  const IDLE := Pump(FRESH, [], false, [], None, None, [])
  const DIAGNOSTICS_BUFFER := "*agent-log*"

  function Crashed(w: World, c: Crash): World { w.(crash := Some(c)) }

  /** Effects that reach the transcript, read off the events. */
  function DeliveredBy(events: seq<Event>): seq<Effect>
    decreases |events|
  {
    if events == [] then []
    else (if events[0].AgentTranscriptUpdated? then events[0].effects else []) + DeliveredBy(events[1..])
  }

  /** `harness.apply`: one dispatch. */
  function Exec(w: World, c: Command): World {
    if w.crash.Some? then w
    else
      var r := Step(w.session, c, None);
      if r.raised then
        Crashed(w, if c.DeliverSessionEffects? && DeliveryTarget(w.session.ed, c.target)
                   then MalformedPayload else BadDeliveryTarget)
      else w.(session := r.session, life := w.life.(delivered := w.life.delivered + DeliveredBy(r.events)))
  }

  /** Append to the diagnostics buffer, minting it first if need be. */
  function Log(cfg: Config, w: World, entry: LogEntry): World {
    if w.crash.Some? then w
    else
      var ready :=
        if w.pump.diagnostics.Some? then w
        else
          var made := Exec(w, CreateGeneratedBuffer(DIAGNOSTICS_BUFFER));
          made.(pump := made.pump.(diagnostics := Lookup(made.session.ed.generated, DIAGNOSTICS_BUFFER)));
      if ready.pump.diagnostics.None? then Crashed(ready, BadDeliveryTarget)
      else Exec(ready, InsertAgentText(cfg.wordLog(entry), ready.pump.diagnostics.value))
  }

  /** Write one envelope; a failed write is logged. */
  function Send(cfg: Config, w: World, message: Message): World {
    if w.crash.Some? then w
    else
      var sent := w.(life := w.life.(wire := w.life.wire + [message]), writes := w.writes + 1);
      if cfg.fails(w.writes) then Log(cfg, sent, WriteFailed) else sent
  }

  function SendAll(cfg: Config, w: World, messages: seq<Message>): World
    decreases |messages|
  {
    if messages == [] then w else SendAll(cfg, Send(cfg, w, messages[0]), messages[1..])
  }

  /** Effects enter the account where they come into being: out of the machine, or out
      of the pump's own hands. */
  function Produced(w: World, effects: seq<Effect>): World {
    w.(life := w.life.(produced := w.life.produced + effects))
  }

  /** Hand effects to the transcript, or keep them until there is one. */
  function Forward(w: World, effects: seq<Effect>): World {
    if w.crash.Some? || effects == [] then w
    else match w.pump.transcript
      case None => w.(pump := w.pump.(backlog := w.pump.backlog + effects))
      case Some(id) => Exec(w, DeliverSessionEffects(effects, id))
  }

  /** A transition of ours that must be in phase, and its request. */
  function SendRequest(cfg: Config, w: World, s: Sent): World {
    if w.crash.Some? then w
    else match s
      case OutOfPhase => Crashed(w, OutOfPhaseCall)
      case Sent(machine, request) => Send(cfg, w.(pump := w.pump.(machine := machine)), request)
  }

  /** Send the oldest held prompt if the protocol can carry one now. */
  function SendPending(cfg: Config, w: World): World {
    if w.crash.Some? || w.pump.pending == [] || w.pump.machine.phase != SESSION_ACTIVE then w
    else
      SendRequest(cfg, w.(pump := w.pump.(pending := w.pump.pending[1..])),
                  Prompt(w.pump.machine, w.pump.pending[0]))
  }

  /** Give the session its transcript buffer, show it, and let go of what was held. */
  function Bind(cfg: Config, w: World, sid: string): World {
    var made := Exec(w, CreateAgentBuffer(sid));
    if made.crash.Some? then made
    else
      var id := Lookup(made.session.ed.agents, sid);
      if id.None? then Crashed(made, BadDeliveryTarget)
      else
        var shown := Exec(made.(pump := made.pump.(transcript := id)), DisplayBuffer(id.value));
        var held := shown.pump.backlog;
        SendPending(cfg, Forward(shown.(pump := shown.pump.(backlog := [])), held))
  }

  /** Handshake milestones are answered by the pump itself. */
  function Milestones(cfg: Config, w: World, effects: seq<Effect>): World
    decreases |effects|
  {
    if effects == [] then w
    else
      var next := match effects[0]
        case Initialized(_) => SendRequest(cfg, w, NewSession(w.pump.machine, cfg.cwd))
        case SessionEstablished(sid) => Bind(cfg, w, sid)
        case _ => w;
      Milestones(cfg, next, effects[1..])
  }

  function Deliverable(effects: seq<Effect>): seq<Effect>
    decreases |effects|
  {
    if effects == [] then []
    else (if Milestone(effects[0]) then [] else [effects[0]]) + Deliverable(effects[1..])
  }

  function PresentRequests(w: World, effects: seq<Effect>): World
    decreases |effects|
  {
    if effects == [] then w
    else
      PresentRequests(if effects[0].PermissionRequested? then Exec(w, PromptPermission(effects[0].request)) else w, effects[1..])
  }

  predicate Completes(effects: seq<Effect>) {
    exists i :: 0 <= i < |effects| && effects[i].PromptCompleted?
  }

  /** Act on a drain's effects. */
  function ApplyEffects(cfg: Config, w: World, effects: seq<Effect>): World {
    var told := PresentRequests(Forward(Milestones(cfg, w, effects), Deliverable(effects)), effects);
    if Completes(effects) then SendPending(cfg, told) else told
  }

  /** One decoded line: the world after it and the effects it produced. */
  function FoldResult(cfg: Config, w: World, result: DecodeResult): (World, seq<Effect>) {
    if w.crash.Some? then (w, [])
    else match result
      case DecodeFailure(line) => Reported(w, ProtocolError(InvalidJson(line)))
      case ReaderRaised(_) => (Crashed(w, MalformedPayload), [])
      case DecodedFrame(value) =>
        match ParseMessage(value)
        case None => Reported(w, ProtocolError(InvalidEnvelope(value)))
        case Some(message) =>
          match Handle(w.pump.machine, message)
          case Folded(machine, out, effects) => (Folded1(cfg, w, message, machine, out, effects), effects)
          case _ => (Crashed(w, MalformedPayload), [])
  }

  /** An effect of the pump's own making. */
  function Reported(w: World, e: Effect): (World, seq<Effect>) { (Produced(w, [e]), [e]) }

  /** A permission request that the machine must take up. */
  predicate Accepts(m: Machine, message: Message) {
    message.Request? && Admissible(m, message.id, message.methodName)
  }

  function Folded1(cfg: Config, w: World, message: Message, machine: Machine, out: seq<Message>, effects: seq<Effect>): World {
    var accepted := if Accepts(w.pump.machine, message) then [message.id] else [];
    SendAll(cfg, Produced(w.(pump := w.pump.(machine := machine), life := w.life.(accepted := w.life.accepted + accepted)), effects), out)
  }

  function FoldResults(cfg: Config, w: World, results: seq<DecodeResult>): (World, seq<Effect>)
    decreases |results|
  {
    if results == [] then (w, [])
    else
      var first := FoldResult(cfg, w, results[0]);
      var rest := FoldResults(cfg, first.0, results[1..]);
      (rest.0, first.1 + rest.1)
  }

  /** Wire bytes from the child; when reading a line raises, no line of the drain is folded. */
  function Receive(cfg: Config, w: World, data: Bytes): World {
    if w.crash.Some? || !w.pump.alive then w
    else
      var drained := Codec.Drain(cfg.text, w.pump.decoder + data);
      if Interrupted(drained.0) then
        Crashed(w.(pump := w.pump.(decoder := Behind(cfg.text, w.pump.decoder + data))), MalformedPayload)
      else
        var folded := FoldResults(cfg, w.(pump := w.pump.(decoder := drained.1)), drained.0);
        if folded.0.crash.Some? then folded.0 else ApplyEffects(cfg, folded.0, folded.1)
  }

  /** Let go of the child; what was never delivered or sent goes to the log. */
  function Leftovers(cfg: Config, w: World): World {
    var held, unsent := w.pump.backlog, w.pump.pending;
    var closed := w.(pump := w.pump.(alive := false, backlog := []));
    var told := if held == [] then closed else Log(cfg, closed, Undelivered(held));
    if unsent == [] then told else Log(cfg, told, Unsent(unsent))
  }

  /** Back to a fresh machine. */
  function Reset(cfg: Config, w: World): World {
    if w.crash.Some? then w
    else
      var dropped := Leftovers(cfg, w);
      if dropped.crash.Some? then dropped
      else dropped.(pump := dropped.pump.(pending := [], machine := FRESH, decoder := [], transcript := None), life := NEW_LIFE)
  }

  /** The child is gone. */
  function Exited(cfg: Config, w: World, status: Option<int>): World {
    var effects := [ProtocolError(AgentExit(status))];
    Reset(cfg, Exec(Forward(if w.crash.Some? then w else Produced(w, effects), effects), AbortPendingPermissions))
  }

  /** A prompt from the human, starting the child if there is none. */
  function Submit(cfg: Config, w: World, text: string, launch: Option<Fault>): World {
    if w.crash.Some? then w
    else if !w.pump.alive && launch.Some? then Log(cfg, w, LaunchFailed(launch.value))
    else
      var running :=
        if w.pump.alive then w
        else SendRequest(cfg, w.(pump := w.pump.(alive := true)), Start(w.pump.machine));
      if running.crash.Some? then running
      else
        SendPending(cfg, running.(pump := running.pump.(pending := running.pump.pending + [text]),
                                  life := running.life.(submitted := running.life.submitted + [text])))
  }

  /** The human's answer goes to the machine, its response to the wire. */
  function Decision1(cfg: Config, w: World, id: RequestId, d: Decision): World {
    if w.crash.Some? then w
    else match Resolve(w.pump.machine, id, d)
      case NotTracked => Forward(Produced(w, [ProtocolError(NotInFlight(id))]), [ProtocolError(NotInFlight(id))])
      case Unhashable => Crashed(w, MalformedPayload)
      case Folded(machine, out, effects) =>
        Forward(SendAll(cfg, Produced(w.(pump := w.pump.(machine := machine)), effects), out), effects)
  }

  /** `C-g` while a turn is in flight cancels it. */
  function Quit(cfg: Config, w: World): World {
    if w.crash.Some? || w.pump.machine.phase != PROMPT_IN_FLIGHT then w
    else match Cancel(w.pump.machine)
      case Folded(machine, out, effects) =>
        Exec(Forward(SendAll(cfg, Produced(w.(pump := w.pump.(machine := machine)), effects), out), effects), AbortPendingPermissions)
      case _ => Crashed(w, OutOfPhaseCall)
  }

  /** Act on what a user's command asked of the agent. */
  function AfterCommand(cfg: Config, w: World, events: seq<Event>, launch: Option<Fault>): World
    decreases |events|
  {
    if events == [] then w
    else
      var next := match events[0]
        case AgentPromptSubmitted(text) => Submit(cfg, w, text, launch)
        case PermissionDecided(id, d) => Decision1(cfg, w, id, d)
        case KeyboardQuitEvent => Quit(cfg, w)
        case _ => w;
      AfterCommand(cfg, next, events[1..], launch)
  }

  /** One input of the editor loop. */
  datatype Stimulus =
    | UserKey(command: Command, fault: Option<Fault>, launch: Option<Fault>)
    | WireBytes(data: Bytes)
    | ChildStderr(data: Bytes)
    | ChildExit(status: Option<int>)

  /** What a key or a resize can dispatch; everything else comes from the pump. */
  predicate FromUser(st: Stimulus) {
    st.UserKey? ==> UserIssued(st.command) || st.command.ResizeFrame?
  }

  function Key(cfg: Config, w: World, c: Command, fault: Option<Fault>, launch: Option<Fault>): World {
    var r := Step(w.session, c, fault);
    if r.raised then Crashed(w, MalformedPayload)
    else
      AfterCommand(cfg, w.(session := r.session, ended := EditorExited in r.events), r.events, launch)
  }

  /** The loop stops after an exit or an exception. */
  function Next(cfg: Config, w: World, st: Stimulus): World {
    if w.crash.Some? || w.ended then w
    else match st
      case UserKey(c, fault, launch) => Key(cfg, w, c, fault, launch)
      case WireBytes(data) => Receive(cfg, w, data)
      case ChildStderr(data) => Log(cfg, w, Stderr(data))
      case ChildExit(status) => Exited(cfg, w, status)
  }

  function RunWorld(cfg: Config, w: World, inputs: seq<Stimulus>): World
    decreases |inputs|
  {
    if inputs == [] then w else RunWorld(cfg, Next(cfg, w, inputs[0]), inputs[1..])
  }
}
