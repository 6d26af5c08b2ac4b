/** The session as a value: what one dispatched command makes of it. */
module SessionSpec {
  import opened Prelude
  import opened LineEndings
  import opened Buffers
  import opened Acp
  import opened Transcript
  import opened Events
  import opened Editing

  datatype PromptKind = FindFileKind | SwitchKind | AgentKind | SaveKind | ExitAnywayKind

  /** Buffers, windows and everything else an edit can reach. `disk` is what the
      file port reads and writes. */
  datatype Editor = Editor(
    order: seq<BufferId>, bufs: map<BufferId, Buf>, current: BufferId, ring: seq<string>,
    windows: seq<WindowValue>, focused: nat, frame: Option<(nat, nat)>, mru: seq<BufferId>,
    folds: map<BufferId, TranscriptFold>, agents: map<string, BufferId>, generated: map<string, BufferId>,
    wording: Wording, disk: map<string, string>)

  /** The minibuffer, the permission queue and the exit sequence. */
  datatype Prompts = Prompts(
    input: Option<string>, prompt: Label, kind: Option<PromptKind>, choice: Option<Permission>,
    exitPending: seq<(BufferId, string)>, queue: seq<Permission>)

  datatype Session = Session(ed: Editor, pr: Prompts)

  /** What a dispatch leaves behind; `raised` when it ended in an exception. */
  datatype Outcome = Outcome(session: Session, events: seq<Event>, raised: bool)

  const NO_PROMPT := Prompts(None, NoLabel, None, None, [], [])

  // ---- Buffers ----

  const BLANK := Buf(BufferValue("", 0, None, false, None), FreshState(Some(""), LF, Ordinary))

  function BufOf(ed: Editor, id: BufferId): Buf {
    if id in ed.bufs then ed.bufs[id] else BLANK
  }

  function Current(ed: Editor): Buf { BufOf(ed, ed.current) }

  function Put(ed: Editor, id: BufferId, b: Buf): Editor { ed.(bufs := ed.bufs[id := b]) }

  function BreakChains(st: BufferState): BufferState {
    st.(lastWasKill := false, yankActive := false, descending := false)
  }

  /** The focused window takes over the current buffer's point and mark. */
  function SyncFocused(ed: Editor): Editor {
    if ed.focused < |ed.windows| then
      var v := Current(ed).value;
      ed.(windows := ed.windows[ed.focused :=
            WindowValue(ed.windows[ed.focused].buffer, v.point, v.mark)])
    else ed
  }

  /** The end of every dispatch but an edit: a user's command that recorded more
      than messages breaks the chains of the buffer it ended on. */
  function Settle(ed: Editor, c: Command, events: seq<Event>): Editor {
    var b := Current(ed);
    SyncFocused(if UserIssued(c) && Acts(events) then Put(ed, ed.current, b.(st := BreakChains(b.st))) else ed)
  }

  /** A delivery ends on its target: the focused window is touched only when it
      shows that buffer, and nothing intervenes. */
  function SettleOn(ed: Editor, id: BufferId): Editor {
    if id == ed.current then SyncFocused(ed) else ed
  }

  function ToFront(mru: seq<BufferId>, id: BufferId): seq<BufferId> { [id] + Without(mru, id) }

  /** `list.remove`: the first occurrence goes. */
  function Without(mru: seq<BufferId>, id: BufferId): seq<BufferId> {
    if mru == [] then []
    else if mru[0] == id then mru[1..]
    else [mru[0]] + Without(mru[1..], id)
  }

  function Leave(ed: Editor): Editor {
    var b := Current(ed);
    Put(ed, ed.current, b.(st := BreakChains(b.st)))
  }

  /** Make `id` the current buffer; the focused window follows. */
  function Select(ed: Editor, id: BufferId): (Editor, seq<Event>) {
    if id == ed.current then (ed, [])
    else
      var left := Leave(ed).(current := id, mru := ToFront(ed.mru, id));
      var v := BufOf(left, id).value;
      (if left.focused < |left.windows|
       then left.(windows := left.windows[left.focused := WindowValue(id, v.point, v.mark)])
       else left,
       [BufferSelected(id)])
  }

  // ---- Fresh names ----

  function Digit(d: nat): char requires d < 10 { "0123456789"[d] }

  function Decimal(n: nat): string {
    if n < 10 then [Digit(n)] else Decimal(n / 10) + [Digit(n % 10)]
  }

  function Suffixed(name: string, k: nat): string { name + "<" + Decimal(k) + ">" }

  /** The first of `name<k>`, `name<k+1>`, … that is not taken. */
  function FirstFree(name: string, k: nat, taken: set<BufferId>): BufferId
    decreases |taken|
  {
    if Suffixed(name, k) in taken then FirstFree(name, k + 1, taken - {Suffixed(name, k)})
    else Suffixed(name, k)
  }

  function FreshName(name: string, taken: set<BufferId>): BufferId {
    if name in taken then FirstFree(name, 2, taken) else name
  }

  function Create(ed: Editor, name: string, b: Buf): (Editor, BufferId, seq<Event>) {
    var id := FreshName(name, ed.bufs.Keys);
    (Put(ed, id, b).(order := ed.order + [id]), id, [BufferCreated(id, b.value.filePath)])
  }

  // ---- Files ----

  /** The text after the last `/` or `\`. */
  function Basename(path: string): string {
    if exists i :: 0 <= i < |path| && (path[i] == '/' || path[i] == '\\') then Basename(path[1..])
    else path
  }

  datatype Visit = VisitOpened(text: string, eol: LineEnding) | VisitRejected(error: OpenError)

  function ResolveVisit(disk: map<string, string>, path: string, fault: Option<Fault>): Visit {
    if Basename(path) == "" then VisitRejected(EmptyBasename)
    else if fault.Some? && fault.value != NotFound then VisitRejected(ReadFault(fault.value))
    else if fault.Some? || path !in disk then VisitOpened("", LF)
    else VisitOpened(ToBufferText(disk[path], Detect(disk[path])), Detect(disk[path]))
  }

  function VisitedBuf(path: string, v: Visit): Buf
    requires v.VisitOpened?
  {
    Buf(BufferValue(v.text, 0, Some(path), false, None), FreshState(Some(v.text), v.eol, Ordinary))
  }

  /** The first buffer, in creation order, that visits `path`. */
  function Visiting(ed: Editor, order: seq<BufferId>, path: string): Option<BufferId> {
    if order == [] then None
    else if BufOf(ed, order[0]).value.filePath == Some(path) then Some(order[0])
    else Visiting(ed, order[1..], path)
  }

  function OpenFile(ed: Editor, path: string, fault: Option<Fault>): (Editor, seq<Event>) {
    match Visiting(ed, ed.order, path)
    case Some(id) => Select(ed, id)
    case None =>
      match ResolveVisit(ed.disk, path, fault)
      case VisitRejected(error) => (ed, [OpenFailed(path, error)])
      case VisitOpened(text, eol) =>
        var made := Create(ed, Basename(path), VisitedBuf(path, VisitOpened(text, eol)));
        var chosen := Select(made.0, made.1);
        (chosen.0, made.2 + [BufferOpened(path, |text|)] + chosen.1)
  }

  function SwitchTo(ed: Editor, name: string): (Editor, seq<Event>) {
    if name == "" then (ed, [])
    else if name in ed.bufs then Select(ed, name)
    else
      var made := Create(ed, name, BLANK);
      var chosen := Select(made.0, made.1);
      (chosen.0, made.2 + chosen.1)
  }

  /** Write one buffer through the port; a failed write changes nothing. */
  function Save(ed: Editor, id: BufferId, fault: Option<Fault>): (Editor, seq<Event>) {
    var b := BufOf(ed, id);
    match b.value.filePath
    case None => (ed, [SaveFailed(id, NoFile)])
    case Some(path) =>
      match fault
      case Some(f) => (ed, [SaveFailed(path, PortFault(f))])
      case None =>
        (Put(ed, id, Buf(b.value.(modified := false), b.st.(savedText := Some(b.value.text))))
         .(disk := ed.disk[path := ToFileText(b.value.text, b.st.eol)]),
         [BufferSaved(path)])
  }

  // ---- Windows ----

  const MIN_WINDOW_ROWS := 3

  function Split(ed: Editor, speak: bool): (Editor, seq<Event>) {
    if ed.frame.Some? && ed.frame.value.1 < (|ed.windows| + 1) * MIN_WINDOW_ROWS + 1 then
      (ed, if speak then [Message(TooSmallToSplit)] else [])
    else if ed.focused < |ed.windows| then
      var twin := ed.windows[ed.focused];
      (ed.(windows := ed.windows[..ed.focused + 1] + [twin] + ed.windows[ed.focused + 1..]),
       [WindowSplit(|ed.windows| + 1)])
    else (ed, [])
  }

  function Clamp(p: int, n: nat): int { if p < 0 then 0 else if p > n then n else p }

  /** The current buffer takes the arriving window's point and mark, clamped. */
  function Arrive(ed: Editor, w: WindowValue): Editor {
    var b := Current(ed);
    var n := |b.value.text|;
    Put(ed, ed.current, b.(value := b.value.(
          point := Clamp(w.point, n),
          mark := if w.mark.None? then None else Some(Clamp(w.mark.value, n)))))
  }

  function Other(ed: Editor): (Editor, seq<Event>) {
    if |ed.windows| < 2 then (ed, [])
    else
      var next := (ed.focused + 1) % |ed.windows|;
      var w := ed.windows[next];
      var moved := ed.(focused := next);
      var arrived := if w.buffer != ed.current
                     then Leave(moved).(current := w.buffer, mru := ToFront(ed.mru, w.buffer))
                     else moved;
      (Arrive(arrived, w), [WindowFocusChanged(next, w.buffer)])
  }

  function DeleteOthers(ed: Editor): (Editor, seq<Event>) {
    if |ed.windows| < 2 || ed.focused >= |ed.windows| then (ed, [])
    else (ed.(windows := [ed.windows[ed.focused]], focused := 0), [WindowsCollapsed])
  }

  /** Show a buffer beside the focused window, splitting once if need be. */
  function Display(ed: Editor, id: BufferId): (Editor, seq<Event>) {
    var split := if |ed.windows| == 1 then Split(ed, false) else (ed, []);
    if |split.0.windows| < 2 then (ed, [])
    else
      var at := (ed.focused + 1) % |split.0.windows|;
      (split.0.(windows := split.0.windows[at := WindowValue(id, 0, None)]),
       split.1 + [BufferDisplayed(id, at)])
  }

  // ---- Agent output ----

  /** Windows whose point sat at the end of the stream follow it; the focused
      one is left to the end of the dispatch. */
  function TailFollow(windows: seq<WindowValue>, focused: nat, id: BufferId, before: int, after: int): seq<WindowValue> {
    seq(|windows|, i requires 0 <= i < |windows| =>
      if i != focused && windows[i].buffer == id && windows[i].point == before
      then windows[i].(point := after) else windows[i])
  }

  function Appended(v: BufferValue, text: string): BufferValue {
    var before := |v.text|;
    v.(text := v.text + text,
       point := if v.point == before then before + |text| else v.point,
       mark := AdjustInsert(v.mark, before, |text|))
  }

  function Append(ed: Editor, id: BufferId, text: string): (Editor, seq<Event>) {
    if text == "" then (ed, [])
    else
      var b := BufOf(ed, id);
      var before := |b.value.text|;
      (Put(ed, id, b.(value := Appended(b.value, text)))
       .(windows := TailFollow(ed.windows, ed.focused, id, before, before + |text|)),
       [AgentTextInserted(text, before, before + |text|, id)])
  }

  function FoldOf(ed: Editor, id: BufferId): TranscriptFold {
    if id in ed.folds then ed.folds[id] else FRESH_FOLD
  }

  function AllRenderable(effects: seq<Effect>): bool {
    forall i :: 0 <= i < |effects| ==> Renderable(effects[i])
  }

  /** A delivery names a generated buffer; anything else raises. */
  predicate DeliveryTarget(ed: Editor, id: BufferId) {
    id in ed.bufs && ed.bufs[id].st.kind == Generated
  }

  const GENERATED_BLANK := Buf(BLANK.value, FreshState(Some(""), LF, Generated))

  // ---- Prompts ----

  function OpenText(pr: Prompts, kind: PromptKind, prompt: Label): (Prompts, seq<Event>) {
    (pr.(input := Some(""), prompt := prompt, kind := Some(kind)), [MinibufferOpened(prompt)])
  }

  function ClosePrompt(pr: Prompts): Prompts {
    pr.(input := None, prompt := NoLabel, kind := None)
  }

  function OpenChoice(pr: Prompts, request: Permission): (Prompts, seq<Event>) {
    (pr.(choice := Some(request), input := Some(""), prompt := PermissionLabel(request)),
     [MinibufferOpened(PermissionLabel(request))])
  }

  /** Present the request that has waited longest, if any. */
  function Drain(pr: Prompts): (Prompts, seq<Event>) {
    if pr.queue == [] then (pr, [])
    else OpenChoice(pr.(queue := pr.queue[1..]), pr.queue[0])
  }

  function CloseChoice(pr: Prompts): (Prompts, seq<Event>) {
    Drain(pr.(choice := None, input := None, prompt := NoLabel))
  }

  datatype KeyAnswer = NoAnswer | Answer(decision: Decision) | BadKind

  /** The first reject option with a string id, or a cancel; a kind that is not
      hashable raises. */
  function RejectAnswer(options: seq<PermissionOption>): KeyAnswer {
    if options == [] then Answer(Cancelled)
    else if !Hashable(options[0].kind) then BadKind
    else if OneOf(options[0].kind, REJECT_KINDS) && options[0].optionId.Str?
    then Answer(Selected(options[0].optionId.s))
    else RejectAnswer(options[1..])
  }

  function KindAnswer(options: seq<PermissionOption>, kind: string): KeyAnswer {
    match FirstOption(options, {kind})
    case Some(id) => Answer(Selected(id))
    case None => NoAnswer
  }

  function KeyDecision(request: Permission, key: string): KeyAnswer {
    var options := Options(request.params);
    if key == "y" then KindAnswer(options, "allow_once")
    else if key == "s" then KindAnswer(options, "allow_session")
    else if key == "a" then KindAnswer(options, "allow_always")
    else if key == "n" then RejectAnswer(options)
    else NoAnswer
  }

  /** RET grants one call at most; without an `allow_once` option it denies. */
  function AcceptDecision(request: Permission): Decision {
    match FirstOption(Options(request.params), {"allow_once"})
    case Some(id) => Selected(id)
    case None => Cancelled
  }

  function Decide(pr: Prompts, request: Permission, d: Decision): (Prompts, seq<Event>) {
    var closed := CloseChoice(pr);
    (closed.0, [PermissionDecided(request.id, d)] + closed.1)
  }

  // ---- The exit sequence ----

  /** Modified buffers that visit a file, in creation order. */
  function AtRisk(ed: Editor, order: seq<BufferId>): seq<(BufferId, string)> {
    if order == [] then []
    else
      var v := BufOf(ed, order[0]).value;
      (if v.modified && v.filePath.Some? then [(order[0], v.filePath.value)] else [])
      + AtRisk(ed, order[1..])
  }

  predicate AnyModified(ed: Editor) {
    exists id :: id in ed.bufs && ed.bufs[id].value.modified
  }

  function AdvanceExit(ed: Editor, pr: Prompts): (Prompts, seq<Event>) {
    if pr.exitPending != [] then OpenText(pr, SaveKind, SaveOffer(pr.exitPending[0].1))
    else if AnyModified(ed) then OpenText(pr, ExitAnywayKind, ExitGate)
    else (pr, [EditorExited])
  }

  /** One key at an exit prompt. */
  function ExitKey(s: Session, key: string, fault: Option<Fault>): (Session, seq<Event>) {
    if key != "y" && key != "n" then (s, [Message(AnswerYesOrNo)])
    else if s.pr.kind == Some(ExitAnywayKind) then
      var closed := ClosePrompt(s.pr);
      if key == "y" then (s.(pr := closed), [EditorExited])
      else
        var drained := Drain(closed);
        (s.(pr := drained.0), [ExitRefused] + drained.1)
    else if s.pr.exitPending == [] then (s, [])
    else
      var id := s.pr.exitPending[0].0;
      var saved := if key == "y" then Save(s.ed, id, fault) else (s.ed, [SaveDeclined(id)]);
      var next := AdvanceExit(saved.0, ClosePrompt(s.pr.(exitPending := s.pr.exitPending[1..])));
      (Session(saved.0, next.0), saved.1 + next.1)
  }

  predicate ExitPrompt(pr: Prompts) {
    pr.kind == Some(SaveKind) || pr.kind == Some(ExitAnywayKind)
  }

  // ---- Minibuffer commands ----

  function InputKey(s: Session, key: string, fault: Option<Fault>): Outcome {
    var pr := s.pr;
    if pr.choice.Some? then
      match KeyDecision(pr.choice.value, key)
      case NoAnswer => Outcome(s, [], false)
      case BadKind => Outcome(s, [], true)
      case Answer(d) =>
        var decided := Decide(pr, pr.choice.value, d);
        Outcome(s.(pr := decided.0), decided.1, false)
    else if ExitPrompt(pr) then
      var r := ExitKey(s, key, fault);
      Outcome(r.0, r.1, false)
    else if pr.input.Some? then Outcome(s.(pr := pr.(input := Some(pr.input.value + key))), [], false)
    else Outcome(s, [], false)
  }

  function Backspace(s: Session): (Session, seq<Event>) {
    var pr := s.pr;
    if pr.choice.Some? then (s, [])
    else if ExitPrompt(pr) then (s, [Message(AnswerYesOrNo)])
    else if pr.input.Some? && pr.input.value != "" then
      (s.(pr := pr.(input := Some(Front(pr.input.value)))), [])
    else (s, [])
  }

  function Abort(s: Session): (Session, seq<Event>) {
    var pr := s.pr;
    if pr.choice.Some? then
      var decided := Decide(pr, pr.choice.value, Cancelled);
      (s.(pr := decided.0), decided.1)
    else if ExitPrompt(pr) || pr.input.Some? then
      var drained := Drain(ClosePrompt(if ExitPrompt(pr) then pr.(exitPending := []) else pr));
      (s.(pr := drained.0), [MinibufferAborted] + drained.1)
    else (s, [])
  }

  /** What the accepted text of a text prompt does to the editor. */
  function Accepted(ed: Editor, kind: Option<PromptKind>, text: string, fault: Option<Fault>): (Editor, seq<Event>) {
    if kind == Some(AgentKind) then (ed, if text != "" then [AgentPromptSubmitted(text)] else [])
    else if kind == Some(SwitchKind) then
      SwitchTo(ed, if text != "" then text else if |ed.mru| > 1 then ed.mru[1] else "")
    else if text != "" then OpenFile(ed, text, fault)
    else (ed, [])
  }

  function Accept(s: Session, fault: Option<Fault>): (Session, seq<Event>) {
    var pr := s.pr;
    if pr.choice.Some? then
      var decided := Decide(pr, pr.choice.value, AcceptDecision(pr.choice.value));
      (s.(pr := decided.0), decided.1)
    else if ExitPrompt(pr) then (s, [Message(AnswerYesOrNo)])
    else if pr.input.Some? then
      var done := Accepted(s.ed, pr.kind, pr.input.value, fault);
      var drained := Drain(ClosePrompt(pr));
      (Session(done.0, drained.0), done.1 + drained.1)
    else (s, [])
  }

  // ---- Dispatch ----

  function EditCurrent(ed: Editor, e: EditCommand): (Editor, seq<Event>) {
    var b := Current(ed);
    var r := EditStep(Local(b.value, b.st, ed.ring), e);
    (SyncFocused(Put(ed, ed.current, Buf(r.local.value, r.local.st)).(ring := r.local.ring)), r.events)
  }

  function Settled(s: Session, c: Command, events: seq<Event>): Outcome {
    Outcome(s.(ed := Settle(s.ed, c, events)), events, false)
  }

  /** A delivery before the bookkeeping: the fold advances and its text is appended. */
  function Delivered(ed: Editor, c: Command): (Editor, seq<Event>)
    requires c.DeliverSessionEffects? || c.InsertAgentText?
  {
    if c.InsertAgentText? then Append(ed, c.target, c.agentText)
    else
      var fold := FoldOf(ed, c.target);
      var text := Rendered(ed.wording, fold, c.effects);
      var r := Append(ed.(folds := ed.folds[c.target := FoldAfter(ed.wording, fold, c.effects)]), c.target, text);
      (r.0, [AgentTranscriptUpdated(c.effects, text, c.target)] + r.1)
  }

  /** Deliveries and creations edit a buffer nobody need be looking at. */
  function Deliver(s: Session, c: Command): Outcome
    requires c.DeliverSessionEffects? || c.InsertAgentText?
  {
    if !DeliveryTarget(s.ed, c.target) || (c.DeliverSessionEffects? && !AllRenderable(c.effects)) then Outcome(s, [], true)
    else var r := Delivered(s.ed, c); Outcome(s.(ed := SettleOn(r.0, c.target)), r.1, false)
  }

  function Lookup<K, V>(m: map<K, V>, k: K): Option<V> { if k in m then Some(m[k]) else None }

  const AGENT_NAME := "*agent*"

  /** A creation: the buffer known under that name, or a new one bound to it. */
  function Minted(ed: Editor, c: Command): (Editor, BufferId, seq<Event>)
    requires c.CreateAgentBuffer? || c.CreateGeneratedBuffer?
  {
    var known := if c.CreateAgentBuffer? then Lookup(ed.agents, c.acpSession) else Lookup(ed.generated, c.name);
    if known.Some? then (ed, known.value, [])
    else
      var made := Create(ed, if c.CreateAgentBuffer? then AGENT_NAME else c.name, GENERATED_BLANK);
      (if c.CreateAgentBuffer? then made.0.(agents := ed.agents[c.acpSession := made.1])
       else made.0.(generated := ed.generated[c.name := made.1]),
       made.1, made.2)
  }

  /** A buffer without a name is refused by the evidence it would need. */
  predicate Nameless(ed: Editor, c: Command) {
    c.CreateGeneratedBuffer? && c.name == "" && c.name !in ed.generated
  }

  function Mint(s: Session, c: Command): Outcome
    requires c.CreateAgentBuffer? || c.CreateGeneratedBuffer?
  {
    if Nameless(s.ed, c) then Outcome(s, [], true)
    else var m := Minted(s.ed, c); Outcome(s.(ed := SettleOn(m.0, m.1)), m.2, false)
  }

  /** The commands that change only windows or the frame. */
  function Layout(ed: Editor, c: Command): (Editor, seq<Event>) {
    match c
    case SplitWindow => Split(ed, true)
    case OtherWindow => Other(ed)
    case DeleteOtherWindows => DeleteOthers(ed)
    case ResizeFrame(w, h) => (ed.(frame := Some((w, h))), [FrameResized(w, h)])
    case DisplayBuffer(id) => Display(ed, id)
    case _ => (ed, [])
  }

  /** A request is presented, or waits behind the open prompt. */
  function Arrived(pr: Prompts, request: Permission): (Prompts, seq<Event>) {
    if pr.input.Some? then (pr.(queue := pr.queue + [request]), []) else OpenChoice(pr, request)
  }

  /** Requests that were answered elsewhere leave the screen and the queue. */
  function Cleared(pr: Prompts): (Prompts, seq<Event>) {
    if pr.choice.Some? then
      (pr.(queue := [], choice := None, input := None, prompt := NoLabel), [MinibufferAborted])
    else (pr.(queue := []), [])
  }

  /** The commands that change only the prompt state. */
  function Prompting(ed: Editor, pr: Prompts, c: Command): (Prompts, seq<Event>) {
    match c
    case FindFile => OpenText(pr, FindFileKind, FindFileLabel)
    case PromptAgent => OpenText(pr, AgentKind, AgentLabel)
    case SwitchBuffer => OpenText(pr, SwitchKind, SwitchLabel)
    case ExitEditor => AdvanceExit(ed, pr.(exitPending := AtRisk(ed, ed.order)))
    case PromptPermission(request) => Arrived(pr, request)
    case AbortPendingPermissions => Cleared(pr)
    case _ => (pr, [])
  }

  /** Commands that neither edit the current buffer nor name or mint another. */
  predicate Plain(c: Command) {
    !c.Edit? && !c.DeliverSessionEffects? && !c.InsertAgentText? && !c.CreateAgentBuffer? && !c.CreateGeneratedBuffer?
  }

  /** A plain command up to the bookkeeping that ends its dispatch. */
  function Arm(s: Session, c: Command, fault: Option<Fault>): Outcome
    requires Plain(c)
  {
    match c
    case SaveBuffer => var r := Save(s.ed, s.ed.current, fault); Outcome(s.(ed := r.0), r.1, false)
    case DeliverProcessOutput => Outcome(s, [ProcessOutputRecorded], false)
    case MinibufferInput(key) => InputKey(s, key, fault)
    case MinibufferBackspace => var r := Backspace(s); Outcome(r.0, r.1, false)
    case MinibufferAccept => var r := Accept(s, fault); Outcome(r.0, r.1, false)
    case MinibufferAbort => var r := Abort(s); Outcome(r.0, r.1, false)
    case DisplayBuffer(id) =>
      if id !in s.ed.bufs then Outcome(s, [], true) else var r := Layout(s.ed, c); Outcome(s.(ed := r.0), r.1, false)
    case SplitWindow => var r := Layout(s.ed, c); Outcome(s.(ed := r.0), r.1, false)
    case OtherWindow => var r := Layout(s.ed, c); Outcome(s.(ed := r.0), r.1, false)
    case DeleteOtherWindows => var r := Layout(s.ed, c); Outcome(s.(ed := r.0), r.1, false)
    case ResizeFrame(_, _) => var r := Layout(s.ed, c); Outcome(s.(ed := r.0), r.1, false)
    case _ => var r := Prompting(s.ed, s.pr, c); Outcome(s.(pr := r.0), r.1, false)
  }

  /** Dispatch `c`; `fault` is what the file port answers if it is asked. */
  function Step(s: Session, c: Command, fault: Option<Fault>): Outcome {
    if s.pr.input.Some? && !PassesGate(c) then Outcome(s, [], false)
    else match c
      case Edit(e) => var r := EditCurrent(s.ed, e); Outcome(s.(ed := r.0), r.1, false)
      case DeliverSessionEffects(_, _) => Deliver(s, c)
      case InsertAgentText(_, _) => Deliver(s, c)
      case CreateAgentBuffer(_) => Mint(s, c)
      case CreateGeneratedBuffer(_) => Mint(s, c)
      case _ => var r := Arm(s, c, fault); if r.raised then r else Settled(r.session, c, r.events)
  }

  lemma ArmSettles(s: Session, c: Command, fault: Option<Fault>)
    requires Plain(c) && !(s.pr.input.Some? && !PassesGate(c))
    ensures var r := Arm(s, c, fault);
      Step(s, c, fault) == if r.raised then Outcome(s, [], true) else Settled(r.session, c, r.events)
  {
    hide Backspace, Abort, Accept, Save, Layout, Prompting, Settle, KeyDecision, Decide, ExitKey;
  }

  // ---- What the helpers touch ----

  /** The bookkeeping: the chains of the current buffer and the focused window. */
  lemma SettleFrame(ed: Editor, c: Command, events: seq<Event>)
    ensures var r := Settle(ed, c, events); var b := Current(ed);
      && r == ed.(bufs := r.bufs, windows := r.windows) && |r.windows| == |ed.windows|
      && r.bufs == if UserIssued(c) && Acts(events) then ed.bufs[ed.current := b.(st := BreakChains(b.st))] else ed.bufs
  {
    hide Acts, UserIssued, BreakChains;
  }

  lemma SelectFrame(ed: Editor, id: BufferId)
    ensures var r := Select(ed, id); var b := Current(ed);
      && (id == ed.current ==> r == (ed, []))
      && (id != ed.current ==>
            && r.0 == ed.(bufs := r.0.bufs, current := id, mru := r.0.mru, windows := r.0.windows)
            && r.0.bufs == ed.bufs[ed.current := b.(st := BreakChains(b.st))]
            && r.1 == [BufferSelected(id)])
      && |r.0.windows| == |ed.windows|
  {
    hide ToFront, BreakChains;
  }

  lemma AppendFrame(ed: Editor, id: BufferId, text: string)
    ensures var r := Append(ed, id, text); var b := BufOf(ed, id); var before := |b.value.text|;
      && (text == "" ==> r == (ed, []))
      && (text != "" ==>
            && r.0 == ed.(bufs := ed.bufs[id := b.(value := Appended(b.value, text))], windows := r.0.windows)
            && |r.0.windows| == |ed.windows|
            && r.1 == [AgentTextInserted(text, before, before + |text|, id)])
  {
    hide Appended;
  }

  lemma SettleOnFrame(ed: Editor, id: BufferId)
    ensures var r := SettleOn(ed, id); r == ed.(windows := r.windows) && |r.windows| == |ed.windows|
  {
  }

  /** Only point and mark of one buffer, and chains, may differ. */
  ghost predicate SameButPlaces(bufs: map<BufferId, Buf>, bufs': map<BufferId, Buf>) {
    && bufs'.Keys == bufs.Keys
    && forall id :: id in bufs ==>
         && bufs'[id].value == bufs[id].value.(point := bufs'[id].value.point, mark := bufs'[id].value.mark)
         && (bufs'[id].st == bufs[id].st || bufs'[id].st == BreakChains(bufs[id].st))
  }

  lemma ArriveFrame(ed: Editor, w: WindowValue)
    requires ed.current in ed.bufs
    ensures var r := Arrive(ed, w);
      && r == ed.(bufs := r.bufs) && r.bufs.Keys == ed.bufs.Keys
      && forall id :: id in ed.bufs ==>
           && r.bufs[id].st == ed.bufs[id].st
           && r.bufs[id].value == ed.bufs[id].value.(point := r.bufs[id].value.point, mark := r.bufs[id].value.mark)
  {
    hide Clamp;
  }

  lemma LeaveFrame(ed: Editor)
    requires ed.current in ed.bufs
    ensures var r := Leave(ed);
      && r == ed.(bufs := r.bufs) && r.bufs.Keys == ed.bufs.Keys
      && forall id :: id in ed.bufs ==>
           && r.bufs[id].value == ed.bufs[id].value
           && (r.bufs[id].st == ed.bufs[id].st || r.bufs[id].st == BreakChains(ed.bufs[id].st))
  {
    hide BreakChains;
  }

  /** `C-x o` moves point and mark within the arriving buffer and breaks chains. */
  lemma OtherFrame(ed: Editor)
    requires ed.current in ed.bufs && forall i :: 0 <= i < |ed.windows| ==> ed.windows[i].buffer in ed.bufs
    ensures var r := Other(ed);
      && (|ed.windows| < 2 ==> r == (ed, []))
      && (|ed.windows| >= 2 ==>
            && var next := (ed.focused + 1) % |ed.windows|; var w := ed.windows[next];
               && r.0 == ed.(bufs := r.0.bufs, current := w.buffer, focused := next, mru := r.0.mru)
               && r.1 == [WindowFocusChanged(next, w.buffer)])
      && SameButPlaces(ed.bufs, r.0.bufs)
  {
    hide ToFront, Arrive, Leave, BreakChains;
    if |ed.windows| >= 2 {
      var next := (ed.focused + 1) % |ed.windows|;
      var w := ed.windows[next];
      var moved := ed.(focused := next);
      var arrived := if w.buffer != ed.current then Leave(moved).(current := w.buffer, mru := ToFront(ed.mru, w.buffer)) else moved;
      LeaveFrame(moved);
      ArriveFrame(arrived, w);
    }
  }

  // ---- Runs ----

  /** One dispatch of a run: the command and the port's answer. */
  datatype Input = Input(command: Command, fault: Option<Fault>)

  function StepInput(s: Session, i: Input): Outcome { Step(s, i.command, i.fault) }

  function Run(s: Session, inputs: seq<Input>): Session
    decreases |inputs|
  {
    if inputs == [] then s else Run(StepInput(s, inputs[0]).session, inputs[1..])
  }

  /** The events a run records, in order. */
  function Recorded(s: Session, inputs: seq<Input>): seq<Event>
    decreases |inputs|
  {
    if inputs == [] then []
    else StepInput(s, inputs[0]).events + Recorded(StepInput(s, inputs[0]).session, inputs[1..])
  }
}
