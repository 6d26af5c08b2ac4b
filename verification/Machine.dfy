/** The client side of an ACP session as a frozen value folded over envelopes. */
module Machine {
  import opened Prelude
  import opened Acp

  const INITIALIZE := "initialize"
  const SESSION_NEW := "session/new"
  const SESSION_PROMPT := "session/prompt"
  const SESSION_CANCEL := "session/cancel"
  const SESSION_UPDATE := "session/update"
  const REQUEST_PERMISSION := "session/request_permission"
  const FS_READ := "fs/read_text_file"
  const FS_WRITE := "fs/write_text_file"
  const METHOD_NOT_FOUND := -32601

  const STOP_REASONS: set<string> := {"end_turn", "max_tokens", "max_turn_requests", "refusal", "cancelled"}
  const TURN_UPDATE_KINDS: set<string> :=
    {"agent_message_chunk", "agent_thought_chunk", "tool_call", "tool_call_update", "plan"}

  datatype Phase = DISCONNECTED | INITIALIZING | READY | SESSION_ACTIVE | PROMPT_IN_FLIGHT

  /** The auto-approval key: the tool discriminator and the request without its per-call
      fields. The program concatenates the first with the canonical JSON text of the
      second; that text, and the concatenation, are taken as injective. */
  datatype Identity = Identity(discriminator: string, stripped: Json)

  /** `incoming` lists the in-flight permission requests in arrival order. */
  datatype Machine = Machine(
    phase: Phase, capabilities: Json, sessionId: Option<string>, nextId: nat,
    outgoing: map<RequestId, string>, incoming: seq<RequestId>, params: map<RequestId, Json>,
    approvals: seq<Identity>)

  const FRESH := Machine(DISCONNECTED, Null, None, 0, map[], [], map[], [])

  /** A transition, or the exception it ended in. */
  datatype Sent = Sent(machine: Machine, request: Message) | OutOfPhase
  datatype Folded =
    | Folded(machine: Machine, out: seq<Message>, effects: seq<Effect>)
    | NotTracked
    | Unhashable

  // ---- Requests the client makes ----

  function Ask(m: Machine, methodName: string, params: Json): Sent {
    Sent(m.(nextId := m.nextId + 1, outgoing := m.outgoing[IntId(m.nextId) := methodName]),
         Request(IntId(m.nextId), methodName, params))
  }

  function Start(m: Machine): Sent {
    if m.phase != DISCONNECTED then OutOfPhase
    else
      Ask(m.(phase := INITIALIZING), INITIALIZE,
          Obj(map["protocolVersion" := Int(1), "clientCapabilities" := Obj(map[]),
                  "clientInfo" := Obj(map["name" := Str("drei"), "version" := Str("0.0.0")])]))
  }

  function NewSession(m: Machine, cwd: string): Sent {
    if m.phase != READY then OutOfPhase
    else Ask(m.(approvals := []), SESSION_NEW, Obj(map["cwd" := Str(cwd), "mcpServers" := Arr([])]))
  }

  function SessionJson(m: Machine): Json {
    if m.sessionId.Some? then Str(m.sessionId.value) else Null
  }

  function Prompt(m: Machine, text: string): Sent {
    if m.phase != SESSION_ACTIVE then OutOfPhase
    else
      Ask(m.(phase := PROMPT_IN_FLIGHT), SESSION_PROMPT,
          Obj(map["sessionId" := SessionJson(m),
                  "prompt" := Arr([Obj(map["type" := Str("text"), "text" := Str(text)])])]))
  }

  // ---- Permission identity and options ----

  function Discriminator(call: map<string, Json>): string {
    var kind, title := Get(call, "kind"), Get(call, "title");
    if kind.Str? && kind.s != "" then "kind:" + kind.s
    else if title.Str? && title.s != "" then "title:" + title.s
    else ""
  }

  function IdentityOf(params: Json): Identity {
    if !params.Obj? then Identity("", params)
    else
      var fields := params.fields - {"sessionId"};
      var call := Get(fields, "toolCall");
      if call.Obj? then
        Identity(Discriminator(call.fields), Obj(fields["toolCall" := Obj(call.fields - {"toolCallId"})]))
      else Identity("", Obj(fields))
  }

  datatype Pick = Picked(id: string) | NoPick | BadKind

  /** The first option of one of `kinds` with a string id; testing a kind that is
      a list or an object raises. */
  function PickOf(options: seq<PermissionOption>, kinds: set<string>): Pick {
    if options == [] then NoPick
    else if !Hashable(options[0].kind) then BadKind
    else if OneOf(options[0].kind, kinds) && options[0].optionId.Str? then Picked(options[0].optionId.s)
    else PickOf(options[1..], kinds)
  }

  /** The broadest cached scope first; an empty id counts as none. */
  function SelectAuto(options: seq<PermissionOption>): Pick {
    match PickOf(options, CACHEABLE_KINDS)
    case BadKind => BadKind
    case Picked(id) => if id != "" then Picked(id) else PickOf(options, {"allow_once"})
    case NoPick => PickOf(options, {"allow_once"})
  }

  /** The kind of the last option with the chosen id. */
  function KindOf(options: seq<PermissionOption>, optionId: string): Json
    decreases |options|
  {
    if options == [] then Null
    else
      var last := options[|options| - 1];
      if last.optionId == Str(optionId) then last.kind
      else KindOf(options[..|options| - 1], optionId)
  }

  // ---- Answering permission requests ----

  function Remove(ids: seq<RequestId>, id: RequestId): seq<RequestId> {
    if ids == [] then []
    else if ids[0] == id then Remove(ids[1..], id)
    else [ids[0]] + Remove(ids[1..], id)
  }

  function DecisionJson(d: Decision): Json {
    match d
    case Selected(id) => Obj(map["outcome" := Obj(map["outcome" := Str("selected"), "optionId" := Str(id)])])
    case Cancelled => Obj(map["outcome" := Obj(map["outcome" := Str("cancelled")])])
  }

  function Remember(approvals: seq<Identity>, identity: Identity): seq<Identity> {
    if identity in approvals then approvals else approvals + [identity]
  }

  function Resolve(m: Machine, id: RequestId, d: Decision): Folded {
    if id !in m.incoming then NotTracked
    else
      var params := if id in m.params then m.params[id] else Null;
      var cleared := m.(incoming := Remove(m.incoming, id), params := m.params - {id});
      match d
      case Cancelled => Folded(cleared, [Response(id, DecisionJson(d))], [PermissionResolved(id, d, false)])
      case Selected(optionId) =>
        var kind := KindOf(Options(params), optionId);
        if !Hashable(kind) then Unhashable
        else
          var kept := if OneOf(kind, CACHEABLE_KINDS)
                      then cleared.(approvals := Remember(m.approvals, IdentityOf(params))) else cleared;
          Folded(kept, [Response(id, DecisionJson(d))], [PermissionResolved(id, d, OneOf(kind, ALLOW_KINDS))])
  }

  /** Answer each of `ids` with a cancel, in order. */
  function Sweep(m: Machine, ids: seq<RequestId>): (Machine, seq<Message>, seq<Effect>)
    decreases |ids|
  {
    if ids == [] then (m, [], [])
    else
      match Resolve(m, ids[0], Cancelled)
      case Folded(next, out, effects) =>
        var rest := Sweep(next, ids[1..]);
        (rest.0, out + rest.1, effects + rest.2)
      case _ => (m, [], [])
  }

  function Cancel(m: Machine): Folded {
    if m.phase != PROMPT_IN_FLIGHT then NotTracked
    else
      var swept := Sweep(m, m.incoming);
      Folded(swept.0, [Notification(SESSION_CANCEL, Obj(map["sessionId" := SessionJson(m)]))] + swept.1, swept.2)
  }

  // ---- The fold ----

  function Report(m: Machine, d: Detail): Folded { Folded(m, [], [ProtocolError(d)]) }

  function Recovery(methodName: string, phase: Phase): Phase {
    if methodName == INITIALIZE then DISCONNECTED
    else if methodName == SESSION_NEW then READY
    else if methodName == SESSION_PROMPT then SESSION_ACTIVE
    else phase
  }

  function HandleError(m: Machine, id: Option<RequestId>, code: int, text: string): Folded {
    if id.None? then Report(m, UnattributableError(code, text))
    else if id.value !in m.outgoing then Report(m, UnknownResponse(id.value))
    else
      var methodName := m.outgoing[id.value];
      Report(m.(outgoing := m.outgoing - {id.value}, phase := Recovery(methodName, m.phase)),
             MethodFailed(methodName, code, text))
  }

  function HandleResult(m: Machine, id: RequestId, result: Json): Folded {
    if id !in m.outgoing then Report(m, UnknownResponse(id))
    else
      var methodName := m.outgoing[id];
      var cleared := m.(outgoing := m.outgoing - {id});
      var fields := FieldsOf(result);
      if methodName == INITIALIZE then
        var caps := Get(fields, "agentCapabilities");
        Folded(cleared.(phase := READY, capabilities := caps), [], [Initialized(caps)])
      else if methodName == SESSION_NEW then
        var sid := Get(fields, "sessionId");
        if !sid.Str? || sid.s == "" then Report(cleared, MissingSessionId)
        else Folded(cleared.(phase := SESSION_ACTIVE, sessionId := Some(sid.s)), [], [SessionEstablished(sid.s)])
      else if methodName == SESSION_PROMPT then
        var stop := Get(fields, "stopReason");
        if !OneOf(stop, STOP_REASONS) then Report(cleared, BadStopReason(stop))
        else Folded(cleared.(phase := SESSION_ACTIVE), [], [PromptCompleted(stop.s)])
      else Folded(cleared, [], [])
  }

  function ChunkText(update: map<string, Json>): Json {
    var content := Get(update, "content");
    if content.Obj? && "text" in content.fields then content.fields["text"] else Str("")
  }

  function UpdateEffects(update: map<string, Json>): seq<Effect> {
    var kind := Get(update, "sessionUpdate");
    if kind == Str("agent_message_chunk") then [AgentTextChunk(ChunkText(update))]
    else if kind == Str("agent_thought_chunk") then [ThoughtChunk(ChunkText(update))]
    else if kind == Str("tool_call") then [ToolCallStarted(Obj(update))]
    else if kind == Str("tool_call_update") then [ToolCallUpdated(Obj(update))]
    else if kind == Str("plan") then [PlanUpdated(Obj(update))]
    else []
  }

  function HandleNotification(m: Machine, methodName: string, params: Json): Folded {
    if methodName != SESSION_UPDATE then Folded(m, [], [])
    else if m.sessionId.None? then Report(m, UpdateBeforeSession)
    else
      var fields := FieldsOf(params);
      if Get(fields, "sessionId") != Str(m.sessionId.value) then Report(m, UpdateForUnknownSession(Get(fields, "sessionId")))
      else if !Get(fields, "update").Obj? then Report(m, MissingUpdateObject)
      else
        var update := Get(fields, "update").fields;
        var kind := Get(update, "sessionUpdate");
        if !Hashable(kind) then Unhashable
        else if OneOf(kind, TURN_UPDATE_KINDS) && m.phase != PROMPT_IN_FLIGHT then Report(m, UpdateOutsideTurn(kind))
        else Folded(m, [], UpdateEffects(update))
  }

  function Track(m: Machine, id: RequestId, params: Json): Machine {
    m.(incoming := m.incoming + [id], params := m.params[id := params])
  }

  predicate Live(phase: Phase) { phase == SESSION_ACTIVE || phase == PROMPT_IN_FLIGHT }

  /** A permission request that can be taken up: in a session, under an id not in use. */
  predicate Admissible(m: Machine, id: RequestId, methodName: string) {
    methodName == REQUEST_PERMISSION && Live(m.phase) && id !in m.incoming
  }

  function HandleRequest(m: Machine, id: RequestId, methodName: string, params: Json): Folded {
    if methodName != REQUEST_PERMISSION then
      Folded(m, [ResponseError(Some(id), METHOD_NOT_FOUND,
                               if methodName == FS_READ || methodName == FS_WRITE || "terminal/" <= methodName
                               then methodName + " not supported by this client"
                               else "unknown method " + methodName, Null)], [])
    else if m.phase != SESSION_ACTIVE && m.phase != PROMPT_IN_FLIGHT then Report(m, PermissionOutOfPhase)
    else if id in m.incoming then Report(m, DuplicateInboundId(id))
    else
      var asked := Folded(Track(m, id, params), [], [PermissionRequested(Permission(id, params))]);
      if IdentityOf(params) in m.approvals then
        match SelectAuto(Options(params))
        case BadKind => Unhashable
        case Picked(option) => Resolve(Track(m, id, params), id, Selected(option))
        case NoPick => asked
      else asked
  }

  /** Fold one inbound envelope: the machine, the replies and what was observed. */
  function Handle(m: Machine, message: Message): Folded {
    match message
    case Response(id, result) => HandleResult(m, id, result)
    case ResponseError(id, code, text, _) => HandleError(m, id, code, text)
    case Notification(methodName, params) => HandleNotification(m, methodName, params)
    case Request(id, methodName, params) => HandleRequest(m, id, methodName, params)
  }

  /** The sweep as the program runs it: one request after the other. */
  method CancelTurn(m: Machine) returns (r: Folded)
    ensures r == Cancel(m)
  {
    if m.phase != PROMPT_IN_FLIGHT {
      return NotTracked;
    }
    var out := [Notification(SESSION_CANCEL, Obj(map["sessionId" := SessionJson(m)]))];
    var effects: seq<Effect> := [];
    var machine, i := m, 0;
    while i < |m.incoming|
      invariant 0 <= i <= |m.incoming|
      invariant out + Sweep(machine, m.incoming[i..]).1 == Cancel(m).out
      invariant effects + Sweep(machine, m.incoming[i..]).2 == Cancel(m).effects
      invariant Sweep(machine, m.incoming[i..]).0 == Cancel(m).machine
    {
      assert m.incoming[i..][1..] == m.incoming[i + 1..];
      var answered := Resolve(machine, m.incoming[i], Cancelled);
      if !answered.Folded? {
        // A repeated id; `MachineInvariants.HandleKeepsOk` shows there is none.
        return Folded(machine, out, effects);
      }
      machine, out, effects := answered.machine, out + answered.out, effects + answered.effects;
      i := i + 1;
    }
    return Folded(machine, out, effects);
  }
}
