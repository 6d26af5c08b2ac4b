# Drei, modelled

Drei is a small Emacs-like editor with an agent beside it. The editor is a session object that
executes one command at a time; the agent is a child process that talks JSON-RPC over lines of
text. This project models the two and everything between them, and proves what the program relies
on: that raw offsets stay meaningful over whole histories, that the agent cannot disturb the human,
that no request is lost, duplicated or answered by accident, and that the transcript tells the whole
story.

## How the model is built

Each stateful part exists twice: as a value with a step function, about which theorems are proved,
and as a class with the program's own fields and loops, whose methods are proved to do exactly what
the step function says.

| files | part |
|---|---|
| `Buffers`, `Events`, `Editing`, `EditingInvariants`, `EditingTheorems` | one buffer: edit commands, kill ring, yank-pop, undo groups, last-command bookkeeping |
| `SessionSpec`, `SessionInvariants`, `SessionRuns` | the whole session as a value, `Step` for one dispatch, `Run` for many, the invariant of every run |
| `EventSourcing`, `DeliveryErasure`, `UndoRuns`, `KillChain`, `SavedFiles`, `WindowTheorems`, `ExitSequence`, `PermissionQueue` | theorems over session runs |
| `EditorSession` | the class `EditorSession`: the session updated in place, refined to `Step` |
| `LineEndings`, `Genesis` | line-ending policy and the evidence a session starts from |
| `Acp` (with `Transcript`), `Machine`, `MachineInvariants`, `Approvals` | JSON values, effects, transcript text; the protocol machine and its auto-approval cache |
| `Messages`, `Codec`, `FaithfulText` | envelopes and newline framing, with the class `JsonRpcDecoder`; a JSON text that meets what framing relies on |
| `PumpSpec`, `PumpFrames`, `PumpInvariants`, `PumpRuns` | pump, machine and session as one world; its invariant and conservation laws |
| `Malformed`, `StreamChunks`, `Drains`, `Cuts`, `HeldPrompts`, `StrandedTurns`, `Entitlement`, `DeadChild` | theorems over that world: which inputs raise, what a drain makes the pump ask, when the cut of a stream shows, when a held prompt waits for no reason, children that are never asked again, who entitled an approval, and what a dead child leaves |
| `AgentPump` | the class `AgentPump` beside an `EditorSession`, one method per input of the loop, refined to that world |
| `Render` (with `SessionFrames`) | frame layout and its relation to the session |
| `StateValues`, `Adapters` | the architecture spike: values against persistent, mutable and hybrid owners, with rollback and branching history |
| `Prelude` | options and Python's slicing |

Python clips slices that are out of range. The specification keeps that behaviour (`Prelude.Splice`),
the invariants show it never happens, and the class methods use slices that must be in bounds.

The outside world enters as parameters: what the file port answers to one dispatch, which writes to
the child fail, how JSON is printed and read, and the wording of prompts, transcript entries and
diagnostics.

## Where the code and its documentation differ

The model follows the code.

- `src/drei/acp/machine.py:667-675` calls a cache hit without an option impossible. It happens for
  requests whose first cacheable option has the empty id and that offer no `allow_once`
  (`Approvals.CachedIsAskedExactly`, with such a request in `Approvals.HitCanFindNothing`).
- `src/drei/session.py:1331-1337` says `RET` grants one call only. When an agent repeats an option id,
  the last option with that id decides, and it may be a session or permanent one
  (`Approvals.ReturnCachesExactly`, with such a request in `Approvals.ReturnCanCacheDuplicates`).
- `src/drei/acp/transcript.py:5-7` calls formatting total. A text chunk that is not a string raises
  when it is appended (`PumpFrames.PeerRaises`). Likewise a kind that is a list or an object raises
  where it is looked up in a set. And `src/drei/acp/codec.py:64-70` catches decode errors only: a line
  with an integer of too many digits, or nested too deep, raises out of the reader. The model's reader
  may raise on any line it likes, and `Malformed.NextRaisesExactly` says of every reachable state which
  inputs then raise.
- `src/drei/pump.py:350-356` answers the blocked agent before clearing the screen. Under the pump there
  is nothing to answer: with a permission prompt open `C-g` closes that prompt, so a quit that reaches
  the pump finds no tracked request (`PumpRuns.CancelSweepsNothing`). The machine's own sweep is
  modelled and proved all the same.
- `src/drei/acp/machine.py:494-496` restores the phase after an error so that the machine is not stuck, and
  calls a failed `initialize` restartable. An unknown stop reason is reported without restoring the phase
  (`MachineInvariants.BadStopReasonStrandsTheTurn`), and the pump starts the handshake only together with a
  child. After either, and after a failed `session/new`, no prompt is sent until the child exits
  (`StrandedTurns.StrandedPromptsNeverGo`).

Three more properties one might expect are false, each with its exact condition.

- A prompt does wait at an idle session: after the prompt before it was answered by an error, and only
  then (`HeldPrompts.OverdueExactly`, with such an answer in `HeldPrompts.ErrorLeavesThemHeld`). So the
  law for prompts is first in, first out.
- A queued request can be left without a prompt in front of it: by an exit, and only then
  (`ExitSequence.ExitStrandsExactly`, with `y` at the final gate in `ExitSequence.GateStrandsTheQueue`).
- The cut of the agent's stream can show: the pump asks only after a whole drain, so while a request is
  unanswered and a prompt is held, and only then, two answers in one chunk do not do what they do in two
  (`Cuts.CutsShowExactly`, with such answers in `Cuts.CutTellsApart`). That is the whole handshake, and a
  turn in which another prompt was submitted.

## Model

| member | source | states |
|---|---|---|
| EditingInvariants.GroupExplainsEdit | src/drei/session.py:188-254 | every text-changing command leaves a group whose two texts, offset, points and marks account for the change in both directions; a command that leaves no group leaves the text alone |
| EditingInvariants.UndoThenRedoText | src/drei/session.py:1767-1831 | undoing a group that finds its text at its offset, then redoing it, gives the text back |
| EditingInvariants.RedoThenUndoText | src/drei/session.py:1767-1831 | redoing a group that finds its text at its offset, then undoing it, gives the text back |
| EditingInvariants.AppendKeepsUndoChain | src/drei/session.py:1416-1446 | agent text appended to a buffer leaves its whole undo history applicable, offset for offset |
| EditingInvariants.AppendKeepsRedoChain | src/drei/session.py:1416-1446 | agent text appended to a buffer leaves everything undone redoable at its offset |
| EditingInvariants.ForgettingKeepsUndoChain | src/drei/session.py:1078-1087 | dropping the oldest groups beyond the capacity keeps the rest applicable |
| EditingInvariants.EditKeepsLocalOk | src/drei/session.py:1022-1105 | every edit command keeps undo and redo chains, yank bounds, a bounded ring without empty entries, and positions in bounds |
| EditingInvariants.EditKeepsCleanIsSaved | src/drei/session.py:1748-1765 | a buffer reported unmodified holds its saved text after any edit, undo past a save included |
| EditingTheorems.UndoIsInverse | src/drei/session.py:1767-1831 | undo right after a text-changing command restores text, point and mark, and reports modified exactly when that text is not the saved one |
| UndoRuns.NextUndoRedoes | src/drei/session.py:1022-1091 | after a text-changing command, an undo, and any dispatches of the user or the peers that leave this buffer's text alone and end with it current, the next undo redoes what the command had produced if and only if one of them was a user's and acted; otherwise it goes on back as if they had not been |
| UndoRuns.StepPasses | src/drei/session.py:1022-1105 | any dispatch whose events report no change of a buffer's text leaves that text and both sides of its undo history, and turns its undo round exactly if it is a user's and acts |
| UndoRuns.RunPasses | src/drei/session.py:1022-1105 | so does any run: peers and messages never turn an undo round, a user's acting command always does, in whichever buffer |
| EditingTheorems.UndoComesToRest | src/drei/session.py:1767-1831 | from any state, at most `history + 2` undos reach the oldest text; further ones only say so and change nothing, and every group is kept for redo |
| EditingTheorems.YankInserts | src/drei/session.py:1937-1954 | a yank puts the newest entry at point and opens the replaceable span around it |
| EditingTheorems.PopReplacesInsertion | src/drei/session.py:1956-1985 | while a yank is active one pop replaces exactly the previous insertion by the next ring entry, and says both texts |
| EditingTheorems.PopsWalkTheRing | src/drei/session.py:1956-1985 | any number of pops walks the ring in order and keeps the surrounding text |
| EditingTheorems.PopsComeAround | src/drei/session.py:1937-1985 | as many pops as the ring has entries give back the text and the point the yank left |
| EditingTheorems.KillRegionThenYank | src/drei/session.py:1895-1954 | kill-region then yank gives the text back, point behind it, the region the newest entry |
| EditingTheorems.OneYankRestoresAllKills | src/drei/session.py:1865-1954 | however many lines are killed in a row, one yank brings all of them back |
| EditingTheorems.MarkSurvivesInsertion | src/drei/session.py:257-267 | an insertion leaves all the text on one side of a mark, the side the marker rule names |
| EditingTheorems.MarkSurvivesDeletion | src/drei/session.py:270-289 | a deletion leaves a mark behind the same text or before the same text; a mark inside the span ends where the span was |
| KillChain.RingFollowsTheRecord | src/drei/session.py:1039-1053 | over every run: while a kill chain is open the newest entry is the concatenation of exactly the recorded kills since it opened, peer commands and messages included; the ring is bounded, has no empty entry, and only the current buffer has chain state |
| KillChain.RunHoldsChain | src/drei/session.py:1039-1053 | from any state whose newest ring entry is the open chain, any run keeps it so, as the recorded events extend or close it |
| KillChain.StepKeepsChain | src/drei/session.py:1022-1053 | no command but an edit touches ring or chain, except that an intervening user command closes it |
| SessionRuns.StepKeepsSessionOk | src/drei/session.py:696-1110 | every dispatch, of the user or a peer, keeps the whole session invariant (names, windows, undo chains, yank bounds, chain flags, visited paths, prompts) and drops no buffer |
| SessionRuns.RunKeepsSessionOk | src/drei/session.py:696-1110 | every run of any length keeps the whole session invariant |
| Genesis.GenesisStartsOk | src/drei/session.py:447-490 | every valid piece of genesis evidence starts a session in which the session invariant holds |
| Genesis.EveryBufferCanBeUndone | src/drei/session.py:1767-1831 | in every reachable state every buffer can be undone to the end and redone, each group at its recorded offset with valid positions, at most a hundred groups; an active yank has its entry between its bounds |
| SessionInvariants.FreshNameIsFresh | src/drei/session.py:1597-1640 | the `<N>` rule finds a name no buffer has |
| SessionInvariants.OpenFileKeepsCore | src/drei/session.py:1642-1685 | opening never makes a second buffer visit the same path |
| EventSourcing.StepExplained | src/drei/commands.py:653-693 | the events of one dispatch account for its whole effect on texts, buffer set, current buffer, windows and focus |
| EventSourcing.TranscriptReproducesRun | src/drei/session.py:696-1110 | folding the transcript of any run, given the contents of the files it opened, gives every text, the buffer set, the current buffer, the window count and the focused index |
| EventSourcing.FoldConcatenates | src/drei/session.py:1107-1110 | the fold of a record is the fold of its parts |
| DeliveryErasure.DeliveryIsErased | src/drei/session.py:1391-1446 | one delivery changes nothing outside generated buffers and the windows that show them |
| DeliveryErasure.StepAlike | src/drei/session.py:696-1110 | two sessions that differ only in generated text record the same events and stay alike under any other command |
| DeliveryErasure.DeliveriesDoNotInterfere | src/drei/session.py:637-694 | deleting every delivery from a run that keeps generated buffers out of focus leaves every ordinary buffer with its undo stacks and flags, the ring, the files, the prompts and every other event the same |
| SavedFiles.StepKeepsDisk | src/drei/session.py:1833-1863 | a saved text and its file agree after every dispatch with honest reads, whatever fails |
| SavedFiles.RunKeepsDisk | src/drei/session.py:1833-1863 | so they do after every run with honest reads |
| SavedFiles.CleanMeansSaved | src/drei/session.py:1642-1863 | in every reachable state an unmodified ordinary buffer holds its saved text, its file, if present, holds that text in its own line ending, and no other buffer visits it |
| SavedFiles.OpenedIsBacked | src/drei/genesis.py:201-216 | a startup visit meets the premise of `SavedFiles.CleanMeansSaved`: its file holds the saved text in its line ending |
| WindowTheorems.HopArrives | src/drei/session.py:1510-1558 | `C-x o` shows the next window's buffer where that window left it, or at the end of a text that has shrunk, and moves no other window and no text |
| WindowTheorems.HopsComeAround | src/drei/session.py:1510-1558 | as many hops as there are windows come back to the same focus, buffer, point and mark, every window where it was, drawn back into its text if that had shrunk |
| WindowTheorems.DisplayKeepsFocus | src/drei/session.py:1479-1508 | showing a buffer never moves focus, the current buffer or the focused window |
| WindowTheorems.OutputDragsNobody | src/drei/session.py:1391-1446 | agent output leaves a reader in another window behind the same text, unless the window stood at the end |
| WindowTheorems.RunKeepsMru | src/drei/session.py:1569-1595 | over every run the most-recently-used list starts with the current buffer and lists none twice |
| WindowTheorems.SwitchingTwiceComesBack | src/drei/session.py:957-976 | in every reachable state `C-x b RET` twice comes back |
| ExitSequence.ExitIsSafe | src/drei/session.py:1116-1242 | the run ends only when no buffer is modified or `y` answered the final gate |
| ExitSequence.AnswersDecrease | src/drei/session.py:1178-1213 | every `y` or `n` leaves fewer questions |
| ExitSequence.OtherKeysDoNothing | src/drei/session.py:881-946 | every other key, `RET` and `DEL` says so and changes nothing |
| ExitSequence.AnswersEndTheExit | src/drei/session.py:1132-1213 | answering `y` or `n` often enough always ends the questions |
| ExitSequence.StepOffers | src/drei/session.py:1132-1213 | while an exit is under way each dispatch offers the head of what remains or nothing, peers included |
| ExitSequence.OffersFollowRisk | src/drei/session.py:1116-1213 | from `C-x C-c` on, offers made and still to come are the at-risk paths in creation order, unless the exit is aborted |
| ExitSequence.AtRiskIsExact | src/drei/session.py:1116-1130 | at risk are exactly the modified buffers that visit a file |
| ExitSequence.OfferedOnce | src/drei/session.py:1116-1130 | the at-risk paths are pairwise different, so none is offered twice |
| ExitSequence.ExitStrandsExactly | src/drei/session.py:1215-1225 | a dispatch leaves a permission request queued with no prompt in front of it if and only if it exits while requests are queued |
| ExitSequence.GateStrandsTheQueue | src/drei/session.py:1178-1213 | `y` at the final gate with requests queued is such an exit: it closes the prompt and presents none of them |
| PermissionQueue.StepAccounts | src/drei/session.py:1215-1260 | decisions, then the request on screen, then the queue are what was there followed by what arrived; a waiting request has an open prompt until the editor exits |
| PermissionQueue.RequestsAreFifo | src/drei/session.py:994-1013 | over any run without a cancelled turn or an exit, requests are decided first in, first out, once each |
| Approvals.KeyChoosesItsScope | src/drei/session.py:1292-1323 | a key chooses an option of its own scope, and answers exactly when the request offers one; `n` always answers |
| Approvals.KeyMeansItsScope | src/drei/session.py:1292-1323 | with distinct ids `y` grants one call, `s` and `a` grant and remember the identity, `n` grants nothing |
| Approvals.ReturnGrantsOneCall | src/drei/session.py:1326-1342 | with distinct ids `RET` never caches an approval and grants exactly when the request offers `allow_once` |
| Approvals.ReturnCachesExactly | src/drei/session.py:1326-1342 | for any options with hashable kinds, `RET` caches an approval if and only if the last option with the chosen id is a session or permanent one |
| Approvals.ReturnCanCacheDuplicates | src/drei/session.py:1326-1342 | from any live machine: a request that offers one call and every call under the same id reaches the human, `RET` picks that id, the identity is cached, and the same request is granted without asking from then on |
| LiveSession.EditorSession.constructor | src/drei/session.py:414-490 | a new session object is the initial session of its genesis, with an empty transcript |
| LiveSession.EditorSession.Dispatch | src/drei/session.py:696-1110 | the object after a dispatch is the specified session, the transcript grows by exactly the specified events, and an exception leaves both as they were |
| LiveSession.TranscriptTellsAll | src/drei/session.py:1107-1110 | every valid session object is the run of its own dispatches, so its transcript, folded from its start, gives its texts, buffers, current buffer, window count and focus |
| LiveSession.EditorSession.Act | src/drei/session.py:750-1015 | resolving the target and running the arm leaves the session one commit away from the specified one |
| LiveSession.EditorSession.Commit | src/drei/session.py:1016-1105 | the shared end of a dispatch: last-command state, undo stack, value and focused window |
| LiveSession.EditorSession.LastCommand | src/drei/session.py:1039-1091 | the bookkeeping as the program branches on command and events is the specified one |
| LiveSession.EditorSession.PinnedTarget | src/drei/session.py:637-694 | deliveries and creations pin their buffer, and raise for anything but a generated one |
| LiveSession.EditorSession.EditArm | src/drei/session.py:757-811 | the editing arms, every slice within bounds |
| LiveSession.EditorSession.Undo | src/drei/session.py:1767-1831 | undo and redo with plain in-bounds slices |
| LiveSession.EditorSession.KillLine | src/drei/session.py:1865-1893 | kill-line with plain in-bounds slices, ring updated in place |
| LiveSession.EditorSession.KillRegion | src/drei/session.py:1895-1918 | kill-region as specified, with plain in-bounds slices and the ring updated in place |
| LiveSession.EditorSession.CopyRegion | src/drei/session.py:1920-1935 | copy-region as specified, the ring updated in place |
| LiveSession.EditorSession.Yank | src/drei/session.py:1937-1954 | yank as specified, with its bounds recorded in the buffer state |
| LiveSession.EditorSession.YankPop | src/drei/session.py:1956-1985 | yank-pop as specified, cursor and bounds moved in place |
| LiveSession.EditorSession.CreateBuffer | src/drei/session.py:1597-1640 | the naming loop ends, on the first free name, and adds the buffer last |
| LiveSession.EditorSession.SelectBuffer | src/drei/session.py:1569-1595 | selection breaks the departing chains and takes the focused window along |
| LiveSession.EditorSession.OpenFile | src/drei/session.py:1642-1685 | the scan over open buffers and the visit do what find-file is specified to do |
| LiveSession.EditorSession.SaveValue | src/drei/session.py:1833-1863 | one write through the port: on success the file and the saved text, on failure nothing |
| LiveSession.EditorSession.SplitWindow | src/drei/session.py:1448-1477 | split, or a refusal that speaks only to the user |
| LiveSession.EditorSession.DisplayBuffer | src/drei/session.py:1479-1508 | show a buffer beside the focused window |
| LiveSession.EditorSession.OtherWindow | src/drei/session.py:1510-1558 | cycle focus; the arriving buffer takes the clamped point |
| LiveSession.EditorSession.DeleteOtherWindows | src/drei/session.py:1560-1567 | collapse to the focused window |
| LiveSession.EditorSession.AppendAgentText | src/drei/session.py:1391-1446 | append with tail-follow of point and unfocused windows |
| LiveSession.EditorSession.RenderEffects | src/drei/session.py:1687-1702 | the rendering loop stores the fold, or leaves it on a chunk that is not text |
| LiveSession.EditorSession.BeginExit | src/drei/session.py:1116-1130 | collect what is at risk, then ask or exit |
| LiveSession.EditorSession.AdvanceExit | src/drei/session.py:1132-1159 | the next offer, the final gate, or the end of the run, as specified |
| LiveSession.EditorSession.ExitPromptKey | src/drei/session.py:1178-1213 | one key at an exit prompt, saves included, as specified |
| LiveSession.EditorSession.DrainQueue | src/drei/session.py:1215-1225 | presents the longest-waiting request, or nothing |
| LiveSession.EditorSession.DecideChoice | src/drei/session.py:1254-1260 | record a decision, close its prompt, present the next |
| LiveSession.EditorSession.MinibufferKey | src/drei/session.py:881-905 | a key in each of the three minibuffer modes does what is specified, or raises and changes nothing |
| LiveSession.EditorSession.MinibufferReturn | src/drei/session.py:944-993 | `RET` in each of the three minibuffer modes does what is specified |
| LiveSession.EditorSession.MinibufferQuit | src/drei/session.py:912-943 | `C-g` in each of the three minibuffer modes does what is specified |
| LineEndings.DetectsExactlyPairedText | src/drei/files.py:103-115 | CRLF is detected for exactly the texts that have a pair and in which every CR and every LF belongs to one |
| LineEndings.FileRoundTrip | src/drei/files.py:103-129 | reading any file and saving it unedited writes the same characters, and the buffer text is canonical |
| LineEndings.ShiftTakesPrefixes | src/drei/genesis.py:219-220 | index translation stays in bounds; it commutes with taking prefixes if and only if the index is not inside a pair |
| LineEndings.ShiftIsMonotone | src/drei/genesis.py:219-220 | translation never reverses two indices and merges them only across a pair |
| Genesis.ProvidedIsValid | src/drei/genesis.py:228-252 | every buffer a caller can hand over becomes valid evidence that saves back to the same text, with its point behind the same characters |
| Genesis.OpenedIsValid | src/drei/genesis.py:201-216 | every startup visit becomes valid evidence |
| MachineInvariants.ResolveKeepsOk | src/drei/acp/machine.py:393-445 | answering a tracked request clears it, writes one response with its id and touches nothing else; an untracked id raises |
| MachineInvariants.CancelAnswersAll | src/drei/acp/machine.py:285-316 | a cancelled turn answers every pending request in order with a refusal and stops tracking |
| MachineInvariants.NewSessionTwice | src/drei/acp/machine.py:244-261 | two `session/new` in a row leave two requests unanswered: one at a time is the pump's doing, not the machine's |
| Machine.CancelTurn | src/drei/acp/machine.py:285-316 | the cancelling loop answers the tracked requests one by one, as the specified sweep |
| MachineInvariants.HandleKeepsOk | src/drei/acp/machine.py:448-460 | folding any envelope keeps one unanswered request told by the phase and distinct tracked requests with their parameters, or raises on exactly the payloads named |
| MachineInvariants.RequestFoldsCleanly | src/drei/acp/machine.py:623-728 | folding a request keeps the machine well formed, tracks it, answers it or refuses it, and raises on exactly the payloads named |
| MachineInvariants.BadStopReasonStrandsTheTurn | src/drei/acp/machine.py:537-549 | the result of a prompt in flight ends the turn if and only if its stop reason is known; otherwise nothing is unanswered and the phase still says in flight |
| StrandedTurns.VerdictEndsTheTurn | src/drei/pump.py:266-296 | the answer to a prompt, read off the wire, ends the turn and sends the oldest held prompt if and only if its stop reason is known |
| StrandedTurns.StrandedPromptsNeverGo | src/drei/pump.py:447-462 | while a child is up with no session idle and no request unanswered, no run without the child's exit sends a prompt: the phase stays, and held and later prompts are held in order |
| StrandedTurns.BadVerdictIsTheLast | src/drei/acp/machine.py:537-549 | so it is after an answer with an unknown stop reason: the turn stays in flight |
| StrandedTurns.FailedHandshakeIsTheLast | src/drei/acp/machine.py:493-512 | and after an error in the handshake: the prompt that started the child is never sent to it, nor is any other |
| Approvals.AutoApprovalIsEntitled | src/drei/acp/machine.py:657-691 | over any run, a request answered unasked has had a session or permanent option of the same stripped identity chosen by the human since the session was opened |
| Entitlement.UnaskedIsEntitled | src/drei/pump.py:316-347 | in every reachable state of pump, machine and session, and wherever in a drain it stands, a request answered without asking has had a session or permanent option of the same identity chosen by a key in this child's life |
| Entitlement.RunIsJustified | src/drei/pump.py:259-364 | every cached approval was chosen by a key in this child's life, over every run of the loop |
| Approvals.SameIdentitySameOptions | src/drei/acp/machine.py:324-359 | requests of one identity offer the same options |
| Approvals.HitFindsOptionExactly | src/drei/acp/machine.py:362-381 | a cache hit finds no option if and only if the first cacheable option has the empty id and there is no `allow_once` |
| Approvals.CachedIsAskedExactly | src/drei/acp/machine.py:657-691 | for hashable kinds, a request with a cached identity is put to the human all the same if and only if its first cacheable option has the empty id and it offers no `allow_once`; else it is answered at once |
| Approvals.HitCanFindNothing | src/drei/acp/machine.py:667-675 | from any live machine: a request with one permanent option of the empty id is put to the human, the key `a` grants and caches it, and the same request is put to the human again |
| Approvals.HitIsGranted | src/drei/acp/machine.py:657-691 | with distinct non-empty ids a cache hit is answered with a grant and not tracked |
| Messages.ParseUndoesToJson | src/drei/acp/messages.py:88-177 | every envelope parses back to itself |
| Messages.ParsesExactlyTheShapes | src/drei/acp/messages.py:113-186 | a value is accepted if and only if it has the version and one of the four shapes of JSON-RPC 2.0 (sections 4, 4.1, 5, 5.1), which decides what it becomes |
| Codec.JsonRpcDecoder.Feed | src/drei/acp/codec.py:56-57 | bytes are kept behind those left over |
| Codec.JsonRpcDecoder.Messages | src/drei/acp/codec.py:59-71 | the framing loop yields every complete line in order and keeps the incomplete one, or leaves with the reader's exception at the first line that raises, which is out of the buffer by then |
| Codec.DrainSplits | src/drei/acp/codec.py:56-71 | draining in between two chunks gives the same results and leftover as one drain |
| Codec.ChunksAreInvisible | src/drei/acp/codec.py:44-71 | any split of a stream gives the results and leftover of the whole |
| Codec.MessagesSurviveTheWire | src/drei/acp/codec.py:35-71 | messages that print as one line and read back, written to the wire and cut anywhere, decode and parse back to themselves in order |
| FaithfulText.TextIsFaithful | src/drei/acp/codec.py:35-41 | a JSON text in which every value prints as one line and reads back exists |
| FaithfulText.PrintReads | src/drei/acp/codec.py:35-41 | of two values written one after another the first is read back whole, with the rest left over |
| Transcript.RenderingConcatenates | src/drei/acp/transcript.py:56-121 | how effects are batched never shows in the text or the fold |
| Transcript.TurnsCountCompletions | src/drei/acp/transcript.py:56-121 | a delivery closes exactly as many turns as it completes, and no thought stays open outside a turn |
| PumpRuns.NextKeeps | src/drei/pump.py:259-364 | every input of the editor loop keeps the composite invariant or ends in an exception that `Malformed.NextRaisesExactly` foretells; no call is ever out of phase and no delivery misses its target |
| Malformed.NextRaisesExactly | src/drei/pump.py:259-364 | an input raises if and only if it is a decision key that meets an option kind which is a list or an object, or bytes with a line on which the JSON reader raises, a line that names such a kind where one is looked up, or a chunk of the running turn whose text is not a string |
| Malformed.RunRaisesExactly | src/drei/pump.py:259-364 | a run ends in an exception if and only if such an input arrives while the loop runs |
| MachineInvariants.SearchesRaise | src/drei/acp/machine.py:362-381 | the search for an option of given kinds raises if and only if a kind that is a list or an object stands before the first such option, and else picks that option |
| MachineInvariants.AutoSearch | src/drei/acp/machine.py:362-381 | the search for an automatic answer raises, or picks an id, exactly as the order, the kinds and the ids of the options say |
| Malformed.RejectSearchRaises | src/drei/session.py:1292-1323 | the search of `n` for a reject option raises if and only if a kind that is a list or an object stands before the first reject option |
| Malformed.LinesAreBad | src/drei/pump.py:266-296 | the lines of a drain are read, fold and render if and only if none of them is bad for the machine the lines before it lead to |
| PumpRuns.RunKeepsWorldOk | src/drei/pump.py:211-516 | every run of the editor loop keeps the composite invariant |
| PumpRuns.PermissionsAreCoupled | src/drei/pump.py:316-433 | at every event boundary the ids on screen and queued are those the machine awaits, in arrival order, distinct, with their parameters, and a queued one has an open prompt unless the run ended |
| PumpRuns.PhasesAreDisciplined | src/drei/pump.py:259-462 | at most one request of ours is unanswered, its method told by the phase; ids count up and are never reused in a child's life; a child is up without a session only while a prompt is held; no transition is called out of phase |
| PumpRuns.NothingIsLost | src/drei/pump.py:298-516 | in one child's life prompts submitted are prompts sent then prompts held; of the effects that came out of the machine or the pump each one but the milestones was delivered once, in the order they came, or waits in the backlog; every permission request that arrives in a session under a free id is answered once or outstanding |
| PumpRuns.DecisionsAreNeverStale | src/drei/pump.py:332-343 | in every reachable state a key decides at most one request, the one the machine has awaited longest, and resolving it never finds it stale |
| PumpRuns.CancelSweepsNothing | src/drei/pump.py:348-362 | when `C-g` reaches the pump nothing is tracked, so one notification goes out and no answer |
| PumpRuns.ExitedKeeps | src/drei/pump.py:298-310 | a dead child leaves a fresh machine and an accounted world |
| DeadChild.EarlyDeathIsTold | src/drei/pump.py:298-310 | a child that dies before its session is bound leaves everything that came out of the machine in its life but the milestones, its exit, and every unsent prompt in the diagnostics, in order |
| DeadChild.LogShows | src/drei/pump.py:485-490 | one log entry is appended to the diagnostics buffer, wherever the naming rule has put it |
| PumpInvariants.ReceiveKeeps | src/drei/pump.py:266-296 | a drain of any bytes keeps the composite invariant, and raises if and only if reading or folding one of its lines does or a chunk it reports is not text |
| PumpInvariants.BindKeeps | src/drei/pump.py:435-445 | binding mints and shows the transcript and lets go of the backlog in order |
| PumpFrames.TargetsAccept | src/drei/pump.py:464-490 | transcript and diagnostics are two different buffers, and both accept deliveries |
| StreamChunks.ReceiveShows | src/drei/pump.py:266-296 | while none of the pump's requests is unanswered, or no prompt is held, what a drain does to machine, wire, prompts, backlog and transcript is a pure function of the bytes and of what is seen, independent of diagnostics and windows |
| StreamChunks.ChunksLeaveNoTrace | src/drei/pump.py:266-296 | in such a state any split of a stream leaves the same machine, wire, prompts, backlog and transcript as one piece, and raises exactly when it does |
| StreamChunks.QuietProtocol | src/drei/acp/machine.py:448-460 | while none of our requests is unanswered, no lines of the agent reach a milestone, complete a turn or change the phase |
| Cuts.CutsShowExactly | src/drei/pump.py:266-296 | from every live state with no part of a line left over, some stream tells where it was cut if and only if a request of the pump's is unanswered and a prompt is held |
| Cuts.CutTellsApart | src/drei/pump.py:278-296 | then, in the handshake or in a turn, a good answer followed by a good answer to the request it makes due leaves that request unanswered in one chunk and answered in two; in the handshake one chunk leaves no session |
| Drains.ReceiveMakes | src/drei/pump.py:399-462 | after a drain the pump makes at most one request, told by the phase, the prompts held and the milestones and completions among the effects: `session/new`, the oldest held prompt, or none |
| FaithfulText.HandshakeIsReached | src/drei/pump.py:259-264 | three keys bring the pump beside any session without a prompt into the handshake with that prompt held |
| FaithfulText.HandshakeShowsCuts | src/drei/pump.py:278-296 | there, with a concrete JSON text, the cut of some stream shows |
| HeldPrompts.OverdueExactly | src/drei/pump.py:447-462 | where no prompt waits at an idle session, one input makes one wait if and only if it is a drain in which the prompt in flight is answered by an error while others are held |
| HeldPrompts.TurnFailsExactly | src/drei/acp/machine.py:493-512 | a drain ends a turn uncompleted if and only if one of its lines is an error for the prompt then in flight |
| HeldPrompts.ErrorLeavesThemHeld | src/drei/acp/machine.py:493-512 | such an error, read off the wire, leaves the session idle and every held prompt held |
| LivePump.PumpKeepsAccount | src/drei/pump.py:211-516 | every valid pair of pump and session objects, whatever they have been through: screen and queue are what the machine awaits, prompts and effects are accounted for in order, ids never reused |
| LivePump.AgentPump.Turn | src/drei/terminal.py:397-443 | one input of the editor loop leaves the two objects the run of everything the loop has heard |
| LivePump.AgentPump.Key | src/drei/terminal.py:423-434 | a key is dispatched and its events acted on as specified |
| LivePump.AgentPump.Receive | src/drei/pump.py:266-296 | the pump object after wire bytes is the specified one |
| LivePump.AgentPump.ApplyEffects | src/drei/pump.py:399-433 | the pump object after acting on a drain's effects is the specified one |
| LivePump.AgentPump.Submit | src/drei/pump.py:259-264 | the pump object after a submitted prompt is the specified one |
| LivePump.AgentPump.AfterCommand | src/drei/pump.py:316-364 | the pump object after a user command is the specified one |
| LivePump.AgentPump.Decide | src/drei/pump.py:332-347 | the pump object after a human's decision is the specified one |
| LivePump.AgentPump.QuitTurn | src/drei/pump.py:348-362 | the pump object after `C-g` is the specified one |
| LivePump.AgentPump.Exited | src/drei/pump.py:298-310 | the pump object after the child's exit is the specified one |
| LivePump.AgentPump.Reset | src/drei/pump.py:492-516 | the pump object after a reset is the specified one, with a fresh decoder |
| LivePump.AgentPump.Bind | src/drei/pump.py:435-445 | the pump object after binding a session is the specified one |
| LivePump.AgentPump.SendPending | src/drei/pump.py:447-462 | the pump object after trying the oldest held prompt is the specified one |
| LivePump.AgentPump.Write | src/drei/pump.py:472-483 | the pump object after a write that may fail is the specified one |
| LivePump.AgentPump.Log | src/drei/pump.py:485-490 | the pump object after a diagnostic is the specified one, the buffer minted on first use |
| LivePump.AgentPump.Pass | src/drei/pump.py:464-470 | the pump object after handing effects to the transcript or the backlog is the specified one |
| Render.SanitizedIsPrintable | src/drei/render.py:210-229 | no control character reaches the terminal |
| Render.SanitizeText | src/drei/render.py:210-229 | the sanitizing loop computes exactly the sanitized text |
| Render.LinesJoin | src/drei/render.py:232-240 | splitting into lines loses nothing |
| Render.RenderBody | src/drei/render.py:232-240 | the body loop draws exactly one clipped row per line, blank rows below |
| Render.CursorPosition | src/drei/render.py:243-267 | the cursor is as many rows down as there are line breaks before point and as far right as the sanitized text since the last one, both clipped to the pane; the loop always finds its line |
| Render.CursorFollowsText | src/drei/render.py:243-267 | unclipped, the cursor's row shows exactly the sanitized line before point up to its column |
| Render.HeightsFill | src/drei/render.py:175-182 | pane heights sum to all but the echo row; beside others no pane is under two rows |
| Render.WindowHeights | src/drei/render.py:175-182 | the heights the program builds are even with the remainder at the bottom |
| Render.SliceHoldsFocus | src/drei/render.py:185-195 | the visible panes are a contiguous slice that contains focus |
| Render.FrameGeometry | src/drei/render.py:60-134 | each visible window's pane stands whole at its place in the frame, in order |
| Render.CursorInFocus | src/drei/render.py:60-134 | with no prompt open the cursor stands in the focused pane |
| Render.CursorShowsPoint | src/drei/render.py:60-134 | unclipped, the frame's row under the cursor shows up to its column exactly the sanitized text before point |
| Render.SessionFrameIsFramed | src/drei/render.py:60-134 | at every size a frame is `height` rows of `width` printable characters with its cursor inside |
| Render.BufferFrameIsFramed | src/drei/render.py:16-57 | at every size a single buffer's frame is `height` rows of `width` printable characters with its cursor inside |
| Render.SingleWindowIsBuffer | src/drei/render.py:60-134 | one window draws exactly what the buffer alone would |
| Render.RenderSession | src/drei/render.py:60-134 | the drawing loop produces exactly the specified frame |
| Render.RenderBuffer | src/drei/render.py:16-57 | the single-buffer drawing produces exactly the specified frame |
| SessionFrames.EveryStateIsDrawable | src/drei/session.py:1099-1105 | in every reachable state the focused window shows the current buffer at its live point and mark, so every frame of it is well formed |
| StateValues.OperationKeepsIdentity | spikes/001-editor-state-architecture/experiment2.py:281-302 | operations keep ids distinct and neither add nor drop an overlay |
| StateValues.BoundaryKeepsItsText | spikes/001-editor-state-architecture/experiment2.py:203-233 | an insertion leaves an overlay boundary with all its text on one side, its affinity deciding a tie |
| StateValues.UndoThenRedo | spikes/001-editor-state-architecture/experiment2.py:139-172 | undo takes back exactly a transaction, redo along the newest branch restores it, and older branches keep their values |
| StateValues.UndoClimbs | spikes/001-editor-state-architecture/experiment2.py:160-165 | every undo steps to an older node, so undoing ends at the initial state |
| StateValues.RunKeepsModelOk | spikes/001-editor-state-architecture/experiment2.py:720-751 | over every action sequence the adapter holds the current node's value, the history is a tree and ids stay distinct |
| Adapters.ControlledMutableAdapter.Apply | spikes/001-editor-state-architecture/experiment2.py:478-505 | an operation in place is the operation on values; the overlay objects stay the same |
| Adapters.ControlledMutableAdapter.Insert | spikes/001-editor-state-architecture/experiment2.py:507-521 | the overlay loop shifts every boundary once |
| Adapters.ControlledMutableAdapter.Restore | spikes/001-editor-state-architecture/experiment2.py:553-598 | restoring a snapshot gives exactly it, in the same overlay objects and the same known message objects |
| Adapters.PersistentAdapter.Apply | spikes/001-editor-state-architecture/experiment2.py:374-377 | an operation on the persistent root is the operation on values, with the handle registry current |
| Adapters.HybridAdapter.Apply | spikes/001-editor-state-architecture/experiment2.py:662-671 | an operation on the two shells is the operation on values |
| Adapters.BranchingHistory.Commit | spikes/001-editor-state-architecture/experiment2.py:151-158 | the history object after a commit is the specified one |
| Adapters.BranchingHistory.Undo | spikes/001-editor-state-architecture/experiment2.py:160-165 | the history object after an undo is the specified one |
| Adapters.BranchingHistory.Redo | spikes/001-editor-state-architecture/experiment2.py:167-172 | the history object after a redo is the specified one |
| Adapters.Session.Dispatch | spikes/001-editor-state-architecture/experiment2.py:720-751 | a session over any of the three adapters does what the values predict and keeps the overlay objects, also when a transaction rolls back |
| Adapters.Session.Transact | spikes/001-editor-state-architecture/experiment2.py:721-731 | all operations of a transaction are applied, or none and the snapshot is back in the same overlay objects |
| Adapters.Session.DispatchAll | spikes/001-editor-state-architecture/experiment2.py:803-806 | over any action sequence a session over any adapter does what the values predict |
| Adapters.AdaptersAgree | spikes/001-editor-state-architecture/experiment2.py:921-926 | the three adapters end any scenario in the same state |
| PumpFrames.PeerRaises | src/drei/session.py:637-694 | a peer command raises if and only if its target is no generated buffer, the displayed buffer does not exist, a chunk is not text, or it would create a buffer without a name |
| PumpFrames.RenderingIsNotTotal | src/drei/acp/transcript.py:1-15 | a chunk whose text is a number raises on delivery |

## Left out

- Threads and the operating system: reader and writer threads, the event queue, terminals, processes and the real file system. The port is a map with failing reads and writes; the channel is the list of envelopes written.
- JSON text and UTF-8: reading and printing are functions; where a value must survive the wire, `Codec.Legible` says that it prints as one non-blank line that reads back.
- The key of the approval cache concatenates the discriminator and the canonical text of the stripped request (`src/drei/acp/machine.py:324-359`). The model keeps the two apart, which takes the concatenation as injective, and compares numbers by their numerals, where the program gives `1.0` and `1.00` the same key.
- Exceptions of the interpreter itself outside the reader: no memory, or recursion too deep while a value already read is printed or compared.
- Wording of prompts, transcript entries, echo messages and diagnostics: labels, tokens and functions stand for it.
- Keys, key sequences, echo notes and the command line: small and mostly one branch each.
- The process log and the payload of process deliveries: recording only; the event and its place in the transcript are modelled.
- Fields of events that no theorem reads: the direction of a kill, the points and marks of undo events.
- The observation a dispatch returns, beyond what frames need.
- Identity shells: a buffer's shell object and its state object are one entry of a map, so sharing of shells between a caller and the session is not captured. Runtime type checks of genesis records have no counterpart in a typed model.
- Mutation of shared JSON payloads by a consumer, which the program forbids by convention only.
- `AgentPump.close` is the end of a run; nothing is claimed after it.
- The loop around the editor is `PumpSpec.Next` and `LivePump.AgentPump.Turn`, one input each: it stops after an exit or an exception.
- The peer's liveness: nothing forces an agent to answer.
- Codec bytes are integers; the decoder splits on 10 and treats ASCII white space as blank.
- SavedFiles.CleanMeansSaved: reads never report an existing file as missing, and nobody else writes the files. Files are known by their path strings: a save under another spelling of a path counts as somebody else's write.
- DeliveryErasure.DeliveriesDoNotInterfere: for runs in which no generated buffer becomes current, since typing into a transcript reads it.
- StreamChunks.ChunksLeaveNoTrace: speaks of machine, wire, prompts, backlog, transcript and accounting; not of the diagnostics buffer or of window points.
- Cuts.CutsShowExactly: with no part of a line left over and good answers to the ids in use printable; a leftover can only be completed, not taken back.
- Approvals.AutoApprovalIsEntitled: about machine runs in which a session is opened only with nothing unanswered; `Entitlement.UnaskedIsEntitled` speaks of the pump's own runs without that premise.
- Approvals.KeyMeansItsScope: for distinct option ids; `Approvals.ReturnCachesExactly` shows what repeated ids do.
- Approvals.HitIsGranted: for distinct, non-empty option ids; `Approvals.CachedIsAskedExactly` covers the rest.
- PumpRuns.NothingIsLost: within one child's life, a reset starting a new account after logging what was held; what is handed to the channel counts as sent, also when that write fails, since the program does not send it again.
- StrandedTurns.BadVerdictIsTheLast: for an answer that arrives with no part of a line left over from before; bytes in front of it are ordinary input.
- UndoRuns.NextUndoRedoes: for one undo back; `UndoRuns.RunPasses` says what any number of dispatches leaves of an undo under way.
- JSON numbers that are not integers are known by their numerals only: nothing here computes with them.
- Of the spike, the counters, event digests, timings and the reports on object identity of values; the mail dictionary is a sequence in insertion order. The first and third experiments are measurement harnesses.
