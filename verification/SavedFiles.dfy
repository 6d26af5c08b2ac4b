/** Clean means saved: buffers, their saved texts and the files behind them. */
module SavedFiles {
  import opened Prelude
  import opened LineEndings
  import opened Buffers
  import opened Transcript
  import opened Events
  import opened Editing
  import opened EditingInvariants
  import opened SessionSpec
  import opened SessionInvariants
  import opened SessionRuns
  import opened Genesis

  /** A visited file, where it exists, holds the saved text in its line ending. */
  ghost predicate Backed(b: Buf, disk: map<string, string>) {
    (b.value.filePath.Some? && b.value.filePath.value in disk && b.st.savedText.Some?) ==>
      disk[b.value.filePath.value] == ToFileText(b.st.savedText.value, b.st.eol)
  }

  ghost predicate DiskOk(ed: Editor) {
    forall id :: id in ed.bufs ==> Backed(ed.bufs[id], ed.disk)
  }

  /** The port never answers that an existing file is missing. */
  predicate Honest(c: Command, fault: Option<Fault>) {
    c.MinibufferAccept? ==> fault != Some(NotFound)
  }

  /** The step read and wrote no file: old buffers keep their file facts, new
      ones visit none. */
  ghost predicate FilesUntouched(ed: Editor, ed': Editor) {
    && ed'.disk == ed.disk
    && forall id :: id in ed'.bufs ==>
         || ed'.bufs[id].value.filePath.None?
         || (id in ed.bufs && SameIdentity(ed.bufs[id], ed'.bufs[id])
             && ed'.bufs[id].st.savedText == ed.bufs[id].st.savedText)
  }

  lemma UntouchedKeepsDisk(ed: Editor, ed': Editor)
    requires DiskOk(ed) && FilesUntouched(ed, ed')
    ensures DiskOk(ed')
  {
    hide ToFileText;
  }

  lemma SettleUntouched(ed: Editor, c: Command, events: seq<Event>)
    requires ed.current in ed.bufs
    ensures FilesUntouched(ed, Settle(ed, c, events))
  {
    hide Settle;
    SettleFrame(ed, c, events);
  }

  lemma SettleKeepsDisk(ed: Editor, c: Command, events: seq<Event>)
    requires DiskOk(ed) && Core(ed)
    ensures DiskOk(Settle(ed, c, events))
  {
    hide DiskOk, FilesUntouched, Settle;
    SettleUntouched(ed, c, events);
    UntouchedKeepsDisk(ed, Settle(ed, c, events));
  }

  lemma SelectUntouched(ed: Editor, id: BufferId)
    requires ed.current in ed.bufs
    ensures FilesUntouched(ed, Select(ed, id).0)
  {
    hide Select;
    SelectFrame(ed, id);
  }

  /** A new buffer that the disk backs keeps the disk invariant. */
  lemma CreateKeepsDisk(ed: Editor, name: string, b: Buf)
    requires DiskOk(ed) && Backed(b, ed.disk)
    ensures DiskOk(Create(ed, name, b).0)
  {
    hide ToFileText, FreshName;
  }

  lemma VisitIsBacked(disk: map<string, string>, path: string, fault: Option<Fault>)
    requires fault != Some(NotFound)
    ensures var v := ResolveVisit(disk, path, fault); v.VisitOpened? ==> Backed(VisitedBuf(path, v), disk)
  {
    hide Basename;
    if path in disk { FileRoundTrip(disk[path]); }
  }

  lemma OpenKeepsDisk(ed: Editor, path: string, fault: Option<Fault>)
    requires DiskOk(ed) && Core(ed) && fault != Some(NotFound)
    ensures DiskOk(OpenFile(ed, path, fault).0)
  {
    hide Core, DiskOk, Select, Create, Basename, Visiting, FilesUntouched, Backed, ResolveVisit;
    CoreHasCurrent(ed);
    VisitIsBacked(ed.disk, path, fault);
    match Visiting(ed, ed.order, path)
    case Some(id) =>
      SelectUntouched(ed, id);
      UntouchedKeepsDisk(ed, Select(ed, id).0);
    case None =>
      var v := ResolveVisit(ed.disk, path, fault);
      if v.VisitOpened? {
        var b := VisitedBuf(path, v);
        CreateKeepsDisk(ed, Basename(path), b);
        CreateKeepsCurrent(ed, Basename(path), b);
        GrowsCreate(ed, Basename(path), b);
        var made := Create(ed, Basename(path), b);
        SelectUntouched(made.0, made.1);
        UntouchedKeepsDisk(made.0, Select(made.0, made.1).0);
      }
  }

  lemma SwitchUntouched(ed: Editor, name: string)
    requires ed.current in ed.bufs
    ensures FilesUntouched(ed, SwitchTo(ed, name).0)
  {
    hide Select, Create, FilesUntouched;
    SelectUntouched(ed, name);
    UntouchedRefl(ed);
    CreateBlankUntouched(ed, name);
    CreateKeepsCurrent(ed, name, BLANK);
    GrowsCreate(ed, name, BLANK);
    var made := Create(ed, name, BLANK);
    SelectUntouched(made.0, made.1);
    UntouchedTrans(ed, made.0, Select(made.0, made.1).0);
  }

  lemma CreateBlankUntouched(ed: Editor, name: string)
    ensures FilesUntouched(ed, Create(ed, name, BLANK).0)
  {
    hide FreshName;
  }

  lemma UntouchedRefl(ed: Editor)
    ensures FilesUntouched(ed, ed)
  {
  }

  lemma UntouchedTrans(a: Editor, b: Editor, c: Editor)
    requires FilesUntouched(a, b) && FilesUntouched(b, c)
    ensures FilesUntouched(a, c)
  {
  }

  lemma SaveKeepsDisk(ed: Editor, id: BufferId, fault: Option<Fault>)
    requires Core(ed) && DiskOk(ed) && id in ed.bufs
    ensures DiskOk(Save(ed, id, fault).0)
  {
    hide ToFileText, BufsOk, ChainsOk, WindowsOk, NamesOk;
  }

  lemma EditUntouched(ed: Editor, e: EditCommand)
    requires EditorOk(ed)
    ensures FilesUntouched(ed, EditCurrent(ed, e).0)
  {
    hide EditStep, UndoChain, RedoChain, PathsOk, WindowsOk, NoDuplicates;
    var b := Current(ed);
    assert BufOk(b);
    EditFacts(Local(b.value, b.st, ed.ring), e);
  }

  lemma OtherUntouched(ed: Editor)
    requires ed.current in ed.bufs && forall i :: 0 <= i < |ed.windows| ==> ed.windows[i].buffer in ed.bufs
    ensures FilesUntouched(ed, Other(ed).0)
  {
    hide Other;
    OtherFrame(ed);
  }

  lemma SameFilesUntouched(ed: Editor, ed': Editor)
    ensures ed'.bufs == ed.bufs && ed'.disk == ed.disk ==> FilesUntouched(ed, ed')
  {
  }

  /** Only the current buffer's chains and position are written. */
  lemma LayoutUntouched(ed: Editor, c: Command)
    requires ed.current in ed.bufs
    requires forall i :: 0 <= i < |ed.windows| ==> ed.windows[i].buffer in ed.bufs
    ensures FilesUntouched(ed, Layout(ed, c).0)
  {
    hide Split, Display, Other, DeleteOthers, FilesUntouched;
    SplitUntouched(ed, true);
    OtherUntouched(ed);
    if c.DisplayBuffer? { DisplayUntouched(ed, c.target); }
    DeleteUntouched(ed);
    SameFilesUntouched(ed, Layout(ed, c).0);
  }

  lemma DeleteUntouched(ed: Editor)
    ensures DeleteOthers(ed).0.bufs == ed.bufs && DeleteOthers(ed).0.disk == ed.disk
  {
  }

  lemma SplitUntouched(ed: Editor, speak: bool)
    ensures Split(ed, speak).0.bufs == ed.bufs && Split(ed, speak).0.disk == ed.disk
  {
  }

  lemma DisplayUntouched(ed: Editor, id: BufferId)
    ensures Display(ed, id).0.bufs == ed.bufs && Display(ed, id).0.disk == ed.disk
  {
    hide Split;
    SplitUntouched(ed, false);
  }

  lemma AppendUntouched(ed: Editor, id: BufferId, text: string)
    requires ed.current in ed.bufs && id in ed.bufs
    ensures FilesUntouched(ed, SettleOn(Append(ed, id, text).0, id))
  {
    hide SettleOn, TailFollow;
    SettleOnKeeps(Append(ed, id, text).0, id);
  }

  lemma SettleOnKeeps(ed: Editor, id: BufferId)
    ensures SettleOn(ed, id).bufs == ed.bufs && SettleOn(ed, id).disk == ed.disk
  {
  }

  lemma DeliverUntouched(s: Session, c: Command)
    requires s.ed.current in s.ed.bufs && (c.DeliverSessionEffects? || c.InsertAgentText?)
    ensures FilesUntouched(s.ed, Deliver(s, c).session.ed)
  {
    hide Rendered, FoldAfter, AllRenderable, Append, SettleOn;
    var ed := s.ed;
    if DeliveryTarget(ed, c.target) {
      if c.InsertAgentText? {
        AppendUntouched(ed, c.target, c.agentText);
      } else {
        AppendUntouched(ed.(folds := ed.folds[c.target := FoldAfter(ed.wording, FoldOf(ed, c.target), c.effects)]),
                        c.target, Rendered(ed.wording, FoldOf(ed, c.target), c.effects));
      }
    }
  }

  lemma MintUntouched(s: Session, c: Command)
    requires s.ed.current in s.ed.bufs && (c.CreateAgentBuffer? || c.CreateGeneratedBuffer?)
    ensures FilesUntouched(s.ed, Mint(s, c).session.ed)
  {
    hide FreshName, SettleOn;
    var m := Minted(s.ed, c);
    SettleOnFrame(m.0, m.1);
  }

  /** The prompts that reach files: accepting a path, answering an exit offer. */
  lemma MinibufferKeepsDisk(s: Session, c: Command, fault: Option<Fault>)
    requires SessionOk(s) && DiskOk(s.ed) && Honest(c, fault)
    requires c.MinibufferInput? || c.MinibufferBackspace? || c.MinibufferAccept? || c.MinibufferAbort?
    ensures DiskOk(Step(s, c, fault).session.ed)
  {
    hide Core, DiskOk, OpenFile, SwitchTo, Save, Settle, KeyDecision, AcceptDecision, Drain, Synced, Decide,
         AdvanceExit, FilesUntouched, Step;
    ArmSettles(s, c, fault);
    var pr, r := s.pr, Arm(s, c, fault);
    SettleKeepsDisk(s.ed, c, r.events);
    if c.MinibufferInput? && pr.choice.None? && ExitPrompt(pr) {
      ExitKeyEditor(s, c.key, fault);
      if pr.exitPending != [] { SaveKeepsDisk(s.ed, pr.exitPending[0].0, fault); }
      SettleKeepsDisk(ExitKey(s, c.key, fault).0.ed, c, ExitKey(s, c.key, fault).1);
    } else if c.MinibufferAccept? && pr.choice.None? && !ExitPrompt(pr) && pr.input.Some? {
      AcceptedKeepsDisk(s.ed, pr.kind, pr.input.value, fault);
      AcceptedEditor(s.ed, pr.kind, pr.input.value, fault);
      SettleKeepsDisk(Accepted(s.ed, pr.kind, pr.input.value, fault).0, c, Accept(s, fault).1);
    }
  }

  lemma AcceptedKeepsDisk(ed: Editor, kind: Option<PromptKind>, text: string, fault: Option<Fault>)
    requires EditorOk(ed) && DiskOk(ed) && fault != Some(NotFound)
    ensures DiskOk(Accepted(ed, kind, text, fault).0)
  {
    hide Core, DiskOk, OpenFile, SwitchTo, FilesUntouched, Synced;
    OpenKeepsDisk(ed, text, fault);
    var name := if text != "" then text else if |ed.mru| > 1 then ed.mru[1] else "";
    CoreHasCurrent(ed);
    SwitchUntouched(ed, name);
    UntouchedKeepsDisk(ed, SwitchTo(ed, name).0);
  }

  lemma StepKeepsDisk(s: Session, c: Command, fault: Option<Fault>)
    requires SessionOk(s) && DiskOk(s.ed) && Honest(c, fault)
    ensures DiskOk(Step(s, c, fault).session.ed)
  {
    hide Core, EditCurrent, Save, Deliver, Mint, InputKey, Backspace, Accept, Abort, Layout, Prompting, Settle,
         Synced, DiskOk, FilesUntouched;
    CoreHasCurrent(s.ed);
    var ed' := Step(s, c, fault).session.ed;
    if !(s.pr.input.Some? && !PassesGate(c)) {
      match c {
        case Edit(e) => EditUntouched(s.ed, e); UntouchedKeepsDisk(s.ed, ed');
        case SaveBuffer =>
          SaveKeepsDisk(s.ed, s.ed.current, fault);
          SaveKeepsCore(s.ed, s.ed.current, fault);
          SettleKeepsDisk(Save(s.ed, s.ed.current, fault).0, c, Save(s.ed, s.ed.current, fault).1);
        case DeliverSessionEffects(_, _) => DeliverUntouched(s, c); UntouchedKeepsDisk(s.ed, ed');
        case InsertAgentText(_, _) => DeliverUntouched(s, c); UntouchedKeepsDisk(s.ed, ed');
        case CreateAgentBuffer(_) => MintUntouched(s, c); UntouchedKeepsDisk(s.ed, ed');
        case CreateGeneratedBuffer(_) => MintUntouched(s, c); UntouchedKeepsDisk(s.ed, ed');
        case MinibufferInput(_) => MinibufferKeepsDisk(s, c, fault);
        case MinibufferBackspace => MinibufferKeepsDisk(s, c, fault);
        case MinibufferAccept => MinibufferKeepsDisk(s, c, fault);
        case MinibufferAbort => MinibufferKeepsDisk(s, c, fault);
        case DeliverProcessOutput => SettleKeepsDisk(s.ed, c, [ProcessOutputRecorded]);
        case DisplayBuffer(_) => LayoutKeepsDisk(s, c, fault);
        case SplitWindow => LayoutKeepsDisk(s, c, fault);
        case OtherWindow => LayoutKeepsDisk(s, c, fault);
        case DeleteOtherWindows => LayoutKeepsDisk(s, c, fault);
        case ResizeFrame(_, _) => LayoutKeepsDisk(s, c, fault);
        case _ => SettleKeepsDisk(s.ed, c, Prompting(s.ed, s.pr, c).1);
      }
    }
  }

  lemma LayoutKeepsDisk(s: Session, c: Command, fault: Option<Fault>)
    requires SessionOk(s) && DiskOk(s.ed)
    requires c.DisplayBuffer? || c.SplitWindow? || c.OtherWindow? || c.DeleteOtherWindows? || c.ResizeFrame?
    ensures DiskOk(Step(s, c, fault).session.ed)
  {
    hide Core, Layout, Settle, Synced, DiskOk, FilesUntouched;
    if !(c.DisplayBuffer? && c.target !in s.ed.bufs) {
      CoreHasCurrent(s.ed);
      CoreHasWindows(s.ed);
      LayoutUntouched(s.ed, c);
      UntouchedKeepsDisk(s.ed, Layout(s.ed, c).0);
      LayoutKeepsCore(s.ed, c);
      SettleKeepsDisk(Layout(s.ed, c).0, c, Layout(s.ed, c).1);
    }
  }

  lemma {:induction false} RunKeepsDisk(s: Session, inputs: seq<Input>)
    requires SessionOk(s) && DiskOk(s.ed)
    requires forall i :: 0 <= i < |inputs| ==> Honest(inputs[i].command, inputs[i].fault)
    ensures SessionOk(Run(s, inputs)) && DiskOk(Run(s, inputs).ed)
    decreases |inputs|
  {
    hide Step, SessionOk, DiskOk;
    if inputs != [] {
      StepKeepsSessionOk(s, inputs[0].command, inputs[0].fault);
      StepKeepsDisk(s, inputs[0].command, inputs[0].fault);
      RunKeepsDisk(StepInput(s, inputs[0]).session, inputs[1..]);
    }
  }

  /** Start from a file or from nothing, run any commands with any failing reads
      and writes: an unmodified ordinary buffer holds its saved text, its file if
      present holds that text in its own line ending, and no file has two buffers. */
  lemma {:induction false} CleanMeansSaved(g: InitialBuffer, frame: Option<(nat, nat)>, w: Wording, disk: map<string, string>,
                        inputs: seq<Input>, id: BufferId)
    requires ValidGenesis(g)
    requires (g.filePath.Some? && g.filePath.value in disk && g.savedText.Some?) ==>
               disk[g.filePath.value] == ToFileText(g.savedText.value, g.eol)
    requires forall i :: 0 <= i < |inputs| ==> Honest(inputs[i].command, inputs[i].fault)
    requires var ed := Run(InitialSession(g, frame, w, disk), inputs).ed;
      id in ed.bufs && ed.bufs[id].st.kind == Ordinary && !ed.bufs[id].value.modified
    ensures var ed := Run(InitialSession(g, frame, w, disk), inputs).ed; var b := ed.bufs[id];
      && b.st.savedText == Some(b.value.text)
      && (b.value.filePath.Some? && b.value.filePath.value in ed.disk ==>
            ed.disk[b.value.filePath.value] == ToFileText(b.value.text, b.st.eol))
      && (b.value.filePath.Some? ==>
            forall other :: other in ed.bufs && other != id ==>
              ed.bufs[other].value.filePath != b.value.filePath)
  {
    hide Run, ToFileText, UndoChain, RedoChain, NoDuplicates, Canonical;
    GenesisStartsOk(g, frame, w, disk);
    RunKeepsDisk(InitialSession(g, frame, w, disk), inputs);
    var ed := Run(InitialSession(g, frame, w, disk), inputs).ed;
    assert BufOk(ed.bufs[id]) && Backed(ed.bufs[id], ed.disk);
  }

  /** A startup visit meets the premise of `CleanMeansSaved`. */
  lemma OpenedIsBacked(disk: map<string, string>, path: string)
    requires ResolveVisit(disk, path, None).VisitOpened?
    ensures var g := OpenedGenesis(path, ResolveVisit(disk, path, None), path in disk);
      path in disk ==> disk[path] == ToFileText(g.savedText.value, g.eol)
  {
    VisitIsBacked(disk, path, None);
  }
}
