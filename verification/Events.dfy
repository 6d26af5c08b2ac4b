/** The commands a session accepts and the events it records. */
module Events {
  import opened Prelude
  import opened Buffers
  import opened Acp

  /** Commands that read and write only the current buffer and the kill ring. */
  datatype EditCommand =
    | InsertText(text: string)
    | ForwardChar
    | BackwardChar
    | KillLine
    | Yank
    | YankPop
    | SetMark
    | KillRegion
    | CopyRegionAsKill
    | ExchangePointAndMark
    | Undo
    | KeyboardQuit

  datatype Command =
    | Edit(edit: EditCommand)
    | SaveBuffer
    | SplitWindow
    | OtherWindow
    | DeleteOtherWindows
    | ResizeFrame(width: nat, height: nat)
    | ExitEditor
    | FindFile
    | SwitchBuffer
    | PromptAgent
    | MinibufferInput(key: string)
    | MinibufferBackspace
    | MinibufferAccept
    | MinibufferAbort
    | DeliverProcessOutput
    | DeliverSessionEffects(effects: seq<Effect>, target: BufferId)
    | InsertAgentText(agentText: string, target: BufferId)
    | CreateAgentBuffer(acpSession: string)
    | CreateGeneratedBuffer(name: string)
    | DisplayBuffer(target: BufferId)
    | PromptPermission(request: Permission)
    | AbortPendingPermissions

  /** Only a user's command intervenes in the last-command bookkeeping. The program counts
      `CreateGeneratedBuffer` in; its dispatch commits to the buffer it mints, which
      has no chain to break, or records nothing, so nothing tells the difference. */
  predicate UserIssued(c: Command) {
    match c
    case ResizeFrame(_, _) => false
    case DeliverProcessOutput => false
    case DeliverSessionEffects(_, _) => false
    case InsertAgentText(_, _) => false
    case CreateAgentBuffer(_) => false
    case CreateGeneratedBuffer(_) => false
    case DisplayBuffer(_) => false
    case PromptPermission(_) => false
    case AbortPendingPermissions => false
    case _ => true
  }

  /** Commands that act while a prompt is open. */
  predicate PassesGate(c: Command) {
    || c.MinibufferInput? || c.MinibufferBackspace? || c.MinibufferAccept? || c.MinibufferAbort?
    || !UserIssued(c)
  }

  /** A command by which the agent delivers output into the session. */
  predicate Delivery(c: Command) {
    c.DeliverSessionEffects? || c.InsertAgentText? || c.DeliverProcessOutput?
  }

  /** The prompt of an open minibuffer; its wording is presentation. */
  datatype Label =
    | NoLabel
    | FindFileLabel
    | AgentLabel
    | SwitchLabel
    | SaveOffer(path: string)
    | ExitGate
    | PermissionLabel(request: Permission)

  datatype Token =
    | EndOfBuffer | MarkNotSet | NoFurtherUndo | NotAYank | AnswerYesOrNo | TooSmallToSplit

  datatype Fault = NotFound | PermissionDenied | IoError

  datatype SaveError = NoFile | PortFault(fault: Fault)
  datatype OpenError = EmptyBasename | ReadFault(fault: Fault)

  datatype Event =
    | TextInserted(text: string, before: int, after: int)
    | PointMoved(requested: int, actual: int)
    | TextKilled(text: string, before: int, after: int)
    | TextYanked(text: string, before: int, after: int)
    | TextYankPopped(oldText: string, newText: string, before: int, after: int)
    | MarkSet(position: int)
    | RegionKilled(text: string, before: int, after: int)
    | RegionCopied(text: string)
    | MarkExchanged(pointBefore: int, markBefore: int)
    | TextUndone(start: int, removed: string, inserted: string)
    | TextRedone(start: int, removed: string, inserted: string)
    | KeyboardQuitEvent
    | BufferSaved(path: string)
    | SaveFailed(subject: string, saveError: SaveError)
    | EditorExited
    | ProcessOutputRecorded
    | MinibufferOpened(prompt: Label)
    | MinibufferAborted
    | PermissionDecided(id: RequestId, decision: Decision)
    | BufferOpened(path: string, length: nat)
    | BufferCreated(buffer: BufferId, filePath: Option<string>)
    | BufferSelected(buffer: BufferId)
    | WindowSplit(count: nat)
    | WindowFocusChanged(index: nat, buffer: BufferId)
    | WindowsCollapsed
    | FrameResized(width: nat, height: nat)
    | OpenFailed(path: string, openError: OpenError)
    | Message(token: Token)
    | SaveDeclined(buffer: BufferId)
    | ExitRefused
    | AgentPromptSubmitted(text: string)
    | BufferDisplayed(buffer: BufferId, window: nat)
    | AgentTranscriptUpdated(effects: seq<Effect>, rendered: string, buffer: BufferId)
    | AgentTextInserted(text: string, before: int, after: int, buffer: BufferId)

  /** A message describes; every other event acts. */
  predicate Acts(events: seq<Event>) {
    exists i :: 0 <= i < |events| && !events[i].Message?
  }
}
