/** JSON values, JSON-RPC envelopes and the effects of the ACP client machine. */
module Acp {
  import opened Prelude

  /** A float is known by its numeral. */
  datatype Json =
    | Null
    | Bool(b: bool)
    | Int(i: int)
    | Float(numeral: string)
    | Str(s: string)
    | Arr(items: seq<Json>)
    | Obj(fields: map<string, Json>)

  /** `payload.get(key)` on an object, `Null` for a missing key. */
  function Get(fields: map<string, Json>, key: string): Json {
    if key in fields then fields[key] else Null
  }

  /** `params if isinstance(params, dict) else {}` */
  function FieldsOf(j: Json): map<string, Json> {
    if j.Obj? then j.fields else map[]
  }

  /** Membership in a set of strings raises for a list or an object. */
  predicate Hashable(j: Json) {
    !j.Arr? && !j.Obj?
  }

  predicate OneOf(j: Json, words: set<string>) {
    j.Str? && j.s in words
  }

  datatype RequestId = IntId(n: int) | StrId(s: string)

  function IdJson(id: RequestId): Json {
    match id
    case IntId(n) => Int(n)
    case StrId(s) => Str(s)
  }

  datatype Message =
    | Request(id: RequestId, methodName: string, params: Json)
    | Notification(methodName: string, params: Json)
    | Response(id: RequestId, result: Json)
    | ResponseError(errorId: Option<RequestId>, code: int, message: string, data: Json)

  datatype Decision = Selected(optionId: string) | Cancelled

  /** A permission request as the machine surfaces it. */
  datatype Permission = Permission(id: RequestId, params: Json)

  /** What a protocol error reports; its wording is presentation. */
  datatype Detail =
    | UnattributableError(code: int, text: string)
    | UnknownResponse(id: RequestId)
    | MethodFailed(methodName: string, code: int, text: string)
    | MissingSessionId
    | BadStopReason(stop: Json)
    | UpdateBeforeSession
    | UpdateForUnknownSession(sid: Json)
    | MissingUpdateObject
    | UpdateOutsideTurn(kind: Json)
    | PermissionOutOfPhase
    | DuplicateInboundId(id: RequestId)
    | InvalidJson(line: seq<int>)
    | InvalidEnvelope(payload: Json)
    | NotInFlight(id: RequestId)
    | AgentExit(status: Option<int>)

  datatype Effect =
    | Initialized(capabilities: Json)
    | SessionEstablished(sessionId: string)
    | AgentTextChunk(text: Json)
    | ThoughtChunk(text: Json)
    | ToolCallStarted(update: Json)
    | ToolCallUpdated(update: Json)
    | PlanUpdated(update: Json)
    | PromptCompleted(stopReason: string)
    | PermissionRequested(request: Permission)
    | PermissionResolved(id: RequestId, decision: Decision, granted: bool)
    | ProtocolError(detail: Detail)

  /** Chunk text is concatenated as it stands, so a chunk that is not a string
      raises when it is rendered. */
  predicate Renderable(e: Effect) {
    (e.AgentTextChunk? || e.ThoughtChunk?) ==> e.text.Str?
  }

  predicate Milestone(e: Effect) {
    e.Initialized? || e.SessionEstablished?
  }

  // ---- The options of a permission request ----

  datatype PermissionOption = PermissionOption(kind: Json, optionId: Json, name: Json)

  /** The request's option list: its object members, in order. */
  function Options(params: Json): seq<PermissionOption> {
    if params.Obj? && "options" in params.fields && params.fields["options"].Arr?
    then ObjectOptions(params.fields["options"].items)
    else []
  }

  function ObjectOptions(items: seq<Json>): seq<PermissionOption> {
    if items == [] then []
    else
      (if items[0].Obj?
       then [PermissionOption(Get(items[0].fields, "kind"), Get(items[0].fields, "optionId"),
                              Get(items[0].fields, "name"))]
       else [])
      + ObjectOptions(items[1..])
  }

  const ALLOW_KINDS: set<string> := {"allow_once", "allow_session", "allow_always"}
  const REJECT_KINDS: set<string> := {"reject_once", "reject_always"}
  const CACHEABLE_KINDS: set<string> := {"allow_session", "allow_always"}

  /** The first option of one of `kinds` that carries a string id. */
  function FirstOption(options: seq<PermissionOption>, kinds: set<string>): Option<string> {
    if options == [] then None
    else if OneOf(options[0].kind, kinds) && options[0].optionId.Str? then Some(options[0].optionId.s)
    else FirstOption(options[1..], kinds)
  }
}

/** The text side of the agent transcript: a fold over session effects. */
module Transcript {
  import opened Prelude
  import opened Acp

  /** Presentation text, one function per structured payload. */
  datatype Wording = Wording(
    toolStarted: Json -> string, toolUpdated: Json -> string,
    plan: Json -> string, endTurn: string -> string, requested: RequestId -> string,
    granted: string -> string, error: Detail -> string)

  datatype TranscriptFold = TranscriptFold(turnOpen: bool, thoughtOpen: bool, turns: nat)

  const FRESH_FOLD := TranscriptFold(false, false, 0)

  const TURN_HEADER := "\n── agent ──\n"
  const THOUGHT_HEADER := "\n  ┆ thought ┆\n"
  const DENIED := "\n── permission denied ──\n"

  function ChunkText(text: Json): string {
    if text.Str? then text.s else ""
  }

  /** One effect becomes the fold after it and the text it appends. */
  function Advance(w: Wording, fold: TranscriptFold, e: Effect): (TranscriptFold, string) {
    var closed := fold.(thoughtOpen := false);
    var header := if fold.turnOpen then "" else TURN_HEADER;
    match e
    case AgentTextChunk(text) => (closed.(turnOpen := true), header + ChunkText(text))
    case ThoughtChunk(text) =>
      (fold.(turnOpen := true, thoughtOpen := true),
       header + (if fold.thoughtOpen then "" else THOUGHT_HEADER) + ChunkText(text))
    case ToolCallStarted(update) => (closed, w.toolStarted(update))
    case ToolCallUpdated(update) => (closed, w.toolUpdated(update))
    case PlanUpdated(update) => (closed, w.plan(update))
    case PromptCompleted(reason) =>
      (TranscriptFold(false, false, fold.turns + 1), w.endTurn(reason))
    case PermissionRequested(request) => (closed, w.requested(request.id))
    case PermissionResolved(_, decision, granted) =>
      (closed, if granted && decision.Selected? then w.granted(decision.optionId) else DENIED)
    case ProtocolError(detail) => (closed, w.error(detail))
    case Initialized(_) => (fold, "")
    case SessionEstablished(_) => (fold, "")
  }

  function FoldAfter(w: Wording, fold: TranscriptFold, effects: seq<Effect>): TranscriptFold
    decreases |effects|
  {
    if effects == [] then fold
    else FoldAfter(w, Advance(w, fold, effects[0]).0, effects[1..])
  }

  function Rendered(w: Wording, fold: TranscriptFold, effects: seq<Effect>): string
    decreases |effects|
  {
    if effects == [] then ""
    else
      var step := Advance(w, fold, effects[0]);
      step.1 + Rendered(w, step.0, effects[1..])
  }

  /** Rendering is a pure concatenation: how effects are batched never shows. */
  lemma {:induction false} RenderingConcatenates(w: Wording, fold: TranscriptFold, a: seq<Effect>, b: seq<Effect>)
    ensures FoldAfter(w, fold, a + b) == FoldAfter(w, FoldAfter(w, fold, a), b)
    ensures Rendered(w, fold, a + b) == Rendered(w, fold, a) + Rendered(w, FoldAfter(w, fold, a), b)
    decreases |a|
  {
    if a == [] {
      assert a + b == b;
    } else {
      assert (a + b)[0] == a[0] && (a + b)[1..] == a[1..] + b;
      RenderingConcatenates(w, Advance(w, fold, a[0]).0, a[1..], b);
    }
  }

  /** The turns closed by a delivery are exactly its prompt completions, and
      the header opens a turn only where none is open. */
  lemma {:induction false} TurnsCountCompletions(w: Wording, fold: TranscriptFold, effects: seq<Effect>)
    ensures FoldAfter(w, fold, effects).turns == fold.turns + Completions(effects)
    ensures fold.turnOpen || !fold.thoughtOpen ==>
              var f := FoldAfter(w, fold, effects); f.turnOpen || !f.thoughtOpen
    decreases |effects|
  {
    if effects != [] {
      TurnsCountCompletions(w, Advance(w, fold, effects[0]).0, effects[1..]);
    }
  }

  function Completions(effects: seq<Effect>): nat {
    if effects == [] then 0
    else (if effects[0].PromptCompleted? then 1 else 0) + Completions(effects[1..])
  }
}
