/** Every reachable session satisfies the invariant. */
module SessionRuns {
  import opened Prelude
  import opened LineEndings
  import opened Buffers
  import opened Transcript
  import opened Events
  import opened Editing
  import opened EditingInvariants
  import opened SessionSpec
  import opened SessionInvariants

  // ---- Buffers are never lost, and keep their path, kind and line ending ----

  ghost predicate SameIdentity(a: Buf, b: Buf) {
    a.value.filePath == b.value.filePath && a.st.kind == b.st.kind && a.st.eol == b.st.eol
  }

  ghost predicate Grows(ed: Editor, ed': Editor) {
    && ed.order <= ed'.order
    && ed.agents.Values <= ed'.agents.Values && ed.generated.Values <= ed'.generated.Values
    && forall id :: id in ed.bufs ==> id in ed'.bufs && SameIdentity(ed.bufs[id], ed'.bufs[id])
  }

  lemma GrowsSettle(ed: Editor, c: Command, events: seq<Event>)
    requires ed.current in ed.bufs
    ensures Grows(ed, Settle(ed, c, events))
  {
    hide Settle;
    SettleFrame(ed, c, events);
  }

  lemma SettleAfter(ed: Editor, mid: Editor, c: Command, events: seq<Event>)
    requires Grows(ed, mid) && Core(mid)
    ensures Grows(ed, Settle(mid, c, events)) && EditorOk(Settle(mid, c, events))
  {
    hide Core, EditorOk, Settle;
    CoreHasCurrent(mid);
    GrowsSettle(mid, c, events);
    SettleKeeps(mid, c, events);
  }

  lemma CoreHasCurrent(ed: Editor)
    requires Core(ed)
    ensures ed.current in ed.bufs
  {
  }

  lemma GrowsSelect(ed: Editor, id: BufferId)
    requires ed.current in ed.bufs
    ensures Grows(ed, Select(ed, id).0)
  {
    hide Select;
    SelectFrame(ed, id);
  }

  lemma GrowsCreate(ed: Editor, name: string, b: Buf)
    ensures Grows(ed, Create(ed, name, b).0)
  {
    hide FreshName;
    FreshNameIsFresh(name, ed.bufs.Keys);
  }

  lemma GrowsOpen(ed: Editor, path: string, fault: Option<Fault>)
    requires ed.current in ed.bufs
    ensures Grows(ed, OpenFile(ed, path, fault).0)
  {
    hide Select, Create, Basename, Visiting, ToBufferText, Detect;
    match Visiting(ed, ed.order, path)
    case Some(id) => GrowsSelect(ed, id);
    case None =>
      var v := ResolveVisit(ed.disk, path, fault);
      if v.VisitOpened? {
        var made := Create(ed, Basename(path), VisitedBuf(path, v));
        GrowsCreate(ed, Basename(path), VisitedBuf(path, v));
        CreateKeepsCurrent(ed, Basename(path), VisitedBuf(path, v));
        GrowsSelect(made.0, made.1);
      }
  }

  lemma CreateKeepsCurrent(ed: Editor, name: string, b: Buf)
    ensures Create(ed, name, b).0.current == ed.current
  {
  }

  lemma GrowsSwitch(ed: Editor, name: string)
    requires ed.current in ed.bufs
    ensures Grows(ed, SwitchTo(ed, name).0)
  {
    hide Select, Create;
    GrowsSelect(ed, name);
    GrowsCreate(ed, name, BLANK);
    CreateKeepsCurrent(ed, name, BLANK);
    GrowsSelect(Create(ed, name, BLANK).0, Create(ed, name, BLANK).1);
  }

  lemma GrowsEdit(ed: Editor, e: EditCommand)
    requires EditorOk(ed)
    ensures Grows(ed, EditCurrent(ed, e).0)
  {
    hide EditStep, UndoChain, RedoChain, PathsOk, WindowsOk, NoDuplicates;
    var b := Current(ed);
    assert BufOk(b);
    EditFacts(Local(b.value, b.st, ed.ring), e);
  }

  lemma GrowsSave(ed: Editor, id: BufferId, fault: Option<Fault>)
    ensures id in ed.bufs ==> Grows(ed, Save(ed, id, fault).0)
  {
  }

  lemma GrowsLayout(ed: Editor, c: Command)
    requires ed.current in ed.bufs && forall i :: 0 <= i < |ed.windows| ==> ed.windows[i].buffer in ed.bufs
    ensures Grows(ed, Layout(ed, c).0)
  {
    hide Split, Display, Other, DeleteOthers, Grows;
    GrowsRefl(ed);
    ResizeGrows(ed, c);
    SplitGrows(ed, true);
    SplitGrows(ed, false);
    DisplayGrows(ed, c);
    OtherGrows(ed);
    DeleteGrows(ed);
  }

  lemma ResizeGrows(ed: Editor, c: Command)
    ensures c.ResizeFrame? ==> Grows(ed, ed.(frame := Some((c.width, c.height))))
  {
  }

  lemma SplitGrows(ed: Editor, speak: bool)
    ensures Grows(ed, Split(ed, speak).0) && Split(ed, speak).0.bufs == ed.bufs
  {
  }

  lemma DisplayGrows(ed: Editor, c: Command)
    ensures c.DisplayBuffer? ==> Grows(ed, Display(ed, c.target).0)
  {
    hide Split;
    SplitGrows(ed, false);
  }

  lemma OtherGrows(ed: Editor)
    requires ed.current in ed.bufs && forall i :: 0 <= i < |ed.windows| ==> ed.windows[i].buffer in ed.bufs
    ensures Grows(ed, Other(ed).0)
  {
    hide Other;
    OtherFrame(ed);
  }

  lemma DeleteGrows(ed: Editor)
    ensures Grows(ed, DeleteOthers(ed).0)
  {
  }

  lemma GrowsAppend(ed: Editor, id: BufferId, text: string)
    requires ed.current in ed.bufs && id in ed.bufs
    ensures Grows(ed, Append(ed, id, text).0) && Append(ed, id, text).0.current == ed.current
    ensures Grows(ed, SettleOn(Append(ed, id, text).0, id))
  {
    hide Append, SettleOn;
    AppendFrame(ed, id, text);
    SettleOnFrame(Append(ed, id, text).0, id);
  }

  lemma GrowsDeliver(s: Session, c: Command)
    requires s.ed.current in s.ed.bufs && (c.DeliverSessionEffects? || c.InsertAgentText?)
    ensures Grows(s.ed, Deliver(s, c).session.ed)
  {
    hide Rendered, FoldAfter, AllRenderable, Append, SettleOn;
    var ed := s.ed;
    if DeliveryTarget(ed, c.target) {
      if c.InsertAgentText? {
        GrowsAppend(ed, c.target, c.agentText);
      } else {
        GrowsAppend(ed.(folds := ed.folds[c.target := FoldAfter(ed.wording, FoldOf(ed, c.target), c.effects)]),
                    c.target, Rendered(ed.wording, FoldOf(ed, c.target), c.effects));
      }
    }
  }

  lemma MoreValues<K, V>(m: map<K, V>, k: K, v: V)
    requires k !in m
    ensures m.Values <= m[k := v].Values
  {
    assert forall x :: x in m ==> m[k := v][x] == m[x];
  }

  lemma MintedGrows(ed: Editor, c: Command)
    requires c.CreateAgentBuffer? || c.CreateGeneratedBuffer?
    ensures Grows(ed, Minted(ed, c).0)
  {
    hide Create;
    var name := if c.CreateAgentBuffer? then AGENT_NAME else c.name;
    GrowsCreate(ed, name, GENERATED_BLANK);
    CreateKeepsNames(ed, name, GENERATED_BLANK);
    var id := Create(ed, name, GENERATED_BLANK).1;
    if c.CreateAgentBuffer? && c.acpSession !in ed.agents { MoreValues(ed.agents, c.acpSession, id); }
    if c.CreateGeneratedBuffer? && c.name !in ed.generated { MoreValues(ed.generated, c.name, id); }
  }

  lemma CreateKeepsNames(ed: Editor, name: string, b: Buf)
    ensures var made := Create(ed, name, b).0; made.agents == ed.agents && made.generated == ed.generated
  {
    hide FreshName;
  }

  lemma SettledGrows(ed: Editor, mid: Editor, ed': Editor)
    requires Grows(ed, mid) && ed' == mid.(windows := ed'.windows)
    ensures Grows(ed, ed')
  {
  }

  lemma GrowsMint(s: Session, c: Command)
    requires s.ed.current in s.ed.bufs && (c.CreateAgentBuffer? || c.CreateGeneratedBuffer?)
    ensures Grows(s.ed, Mint(s, c).session.ed)
  {
    hide Create, FreshName, SettleOn, Grows;
    var ed := s.ed;
    GrowsRefl(ed);
    if !Nameless(ed, c) {
      var m := Minted(ed, c);
      SettleOnFrame(m.0, m.1);
      MintedGrows(ed, c);
      SettledGrows(ed, m.0, SettleOn(m.0, m.1));
    }
  }

  lemma GrowsPending(ed: Editor, ed': Editor, pending: seq<(BufferId, string)>)
    requires Grows(ed, ed') && PendingOk(ed, pending)
    ensures PendingOk(ed', pending)
  {
  }

  // ---- Prompts ----

  lemma {:induction false} AtRiskOk(ed: Editor, order: seq<BufferId>)
    requires forall i :: 0 <= i < |order| ==> order[i] in ed.bufs
    ensures PendingOk(ed, AtRisk(ed, order))
  {
    if order != [] { AtRiskOk(ed, order[1..]); }
  }

  lemma PromptingKeeps(ed: Editor, pr: Prompts, c: Command)
    requires PromptsOk(pr) && (pr.input.Some? ==> PassesGate(c))
    ensures PromptsOk(Prompting(ed, pr, c).0)
  {
    hide AtRisk, AnyModified;
  }

  lemma ExitKeyKeeps(s: Session, key: string, fault: Option<Fault>)
    requires PromptsOk(s.pr) && ExitPrompt(s.pr)
    ensures PromptsOk(ExitKey(s, key, fault).0.pr)
  {
    hide Save, AnyModified;
  }

  lemma InputKeyKeepsPrompts(s: Session, key: string, fault: Option<Fault>)
    requires PromptsOk(s.pr)
    ensures PromptsOk(InputKey(s, key, fault).session.pr)
  {
    hide ExitKey, KeyDecision;
    if s.pr.choice.None? && ExitPrompt(s.pr) { ExitKeyKeeps(s, key, fault); }
  }

  lemma AcceptKeepsPrompts(s: Session, fault: Option<Fault>)
    requires PromptsOk(s.pr)
    ensures PromptsOk(Accept(s, fault).0.pr) && PromptsOk(Abort(s).0.pr) && PromptsOk(Backspace(s).0.pr)
  {
    hide Accepted, AcceptDecision;
  }

  // ---- One dispatch ----

  /** What one dispatch owes: the editor stays valid and loses no buffer. */
  ghost predicate EditorStep(ed: Editor, ed': Editor) {
    EditorOk(ed') && Grows(ed, ed')
  }

  lemma ExitKeyEditor(s: Session, key: string, fault: Option<Fault>)
    requires SessionOk(s) && ExitPrompt(s.pr)
    ensures Core(ExitKey(s, key, fault).0.ed) && Grows(s.ed, ExitKey(s, key, fault).0.ed)
  {
    hide Core, Save, AdvanceExit, Synced;
    if s.pr.exitPending != [] {
      var id := s.pr.exitPending[0].0;
      SaveKeepsCore(s.ed, id, fault);
      GrowsSave(s.ed, id, fault);
    }
  }

  lemma AcceptedEditor(ed: Editor, kind: Option<PromptKind>, text: string, fault: Option<Fault>)
    requires EditorOk(ed)
    ensures Core(Accepted(ed, kind, text, fault).0) && Grows(ed, Accepted(ed, kind, text, fault).0)
  {
    hide Grows, Core, OpenFile, SwitchTo, Synced;
    CoreHasCurrent(ed);
    var name := if text != "" then text else if |ed.mru| > 1 then ed.mru[1] else "";
    SwitchKeepsCore(ed, name);
    GrowsSwitch(ed, name);
    OpenFileKeepsCore(ed, text, fault);
    GrowsOpen(ed, text, fault);
    GrowsRefl(ed);
  }

  lemma MinibufferEditor(s: Session, c: Command, fault: Option<Fault>)
    requires SessionOk(s)
    requires c.MinibufferInput? || c.MinibufferBackspace? || c.MinibufferAccept? || c.MinibufferAbort?
    ensures EditorStep(s.ed, Step(s, c, fault).session.ed)
  {
    hide Core, Accepted, ExitKey, Settle, Grows, KeyDecision, AcceptDecision, Drain, Synced, Decide, PendingOk;
    GrowsRefl(s.ed);
    var pr := s.pr;
    if c.MinibufferInput? && pr.choice.None? && ExitPrompt(pr) {
      ExitKeyEditor(s, c.key, fault);
      var r := ExitKey(s, c.key, fault);
      SettleAfter(s.ed, r.0.ed, c, r.1);
    } else if c.MinibufferAccept? && pr.choice.None? && !ExitPrompt(pr) && pr.input.Some? {
      AcceptedEditor(s.ed, pr.kind, pr.input.value, fault);
      SettleAfter(s.ed, Accepted(s.ed, pr.kind, pr.input.value, fault).0, c, Accept(s, fault).1);
    } else {
      SettleAfter(s.ed, s.ed, c, Step(s, c, fault).events);
    }
  }

  lemma GrowsRefl(ed: Editor)
    ensures Grows(ed, ed)
  {
  }

  lemma LayoutEditor(s: Session, c: Command, fault: Option<Fault>)
    requires SessionOk(s)
    requires c.DisplayBuffer? || c.SplitWindow? || c.OtherWindow? || c.DeleteOtherWindows? || c.ResizeFrame?
    ensures EditorStep(s.ed, Step(s, c, fault).session.ed)
  {
    hide Core, Layout, Settle, Grows, Synced;
    GrowsRefl(s.ed);
    if !(c.DisplayBuffer? && c.target !in s.ed.bufs) {
      CoreHasWindows(s.ed);
      CoreHasCurrent(s.ed);
      LayoutKeepsCore(s.ed, c);
      GrowsLayout(s.ed, c);
      SettleAfter(s.ed, Layout(s.ed, c).0, c, Layout(s.ed, c).1);
    }
  }

  lemma StepEditor(s: Session, c: Command, fault: Option<Fault>)
    requires SessionOk(s)
    ensures EditorStep(s.ed, Step(s, c, fault).session.ed)
  {
    hide Core, EditCurrent, Save, Deliver, Mint, InputKey, Backspace, Accept, Abort, Layout, Prompting, Settle, Grows, Synced;
    CoreHasCurrent(s.ed);
    GrowsRefl(s.ed);
    if !(s.pr.input.Some? && !PassesGate(c)) {
      match c {
        case Edit(e) => EditCurrentKeeps(s.ed, e); GrowsEdit(s.ed, e);
        case SaveBuffer =>
          SaveKeepsCore(s.ed, s.ed.current, fault);
          GrowsSave(s.ed, s.ed.current, fault);
          SettleAfter(s.ed, Save(s.ed, s.ed.current, fault).0, c, Save(s.ed, s.ed.current, fault).1);
        case DeliverSessionEffects(_, _) => DeliverKeeps(s, c); GrowsDeliver(s, c);
        case InsertAgentText(_, _) => DeliverKeeps(s, c); GrowsDeliver(s, c);
        case CreateAgentBuffer(_) => MintKeeps(s, c); GrowsMint(s, c);
        case CreateGeneratedBuffer(_) => MintKeeps(s, c); GrowsMint(s, c);
        case MinibufferInput(_) => MinibufferEditor(s, c, fault);
        case MinibufferBackspace => MinibufferEditor(s, c, fault);
        case MinibufferAccept => MinibufferEditor(s, c, fault);
        case MinibufferAbort => MinibufferEditor(s, c, fault);
        case DisplayBuffer(_) => LayoutEditor(s, c, fault);
        case SplitWindow => LayoutEditor(s, c, fault);
        case OtherWindow => LayoutEditor(s, c, fault);
        case DeleteOtherWindows => LayoutEditor(s, c, fault);
        case ResizeFrame(_, _) => LayoutEditor(s, c, fault);
        case DeliverProcessOutput => SettleAfter(s.ed, s.ed, c, [ProcessOutputRecorded]);
        case _ => SettleAfter(s.ed, s.ed, c, Prompting(s.ed, s.pr, c).1);
      }
    }
  }

  lemma StepPrompts(s: Session, c: Command, fault: Option<Fault>)
    requires SessionOk(s)
    ensures PromptsOk(Step(s, c, fault).session.pr)
  {
    hide EditorOk, EditCurrent, Save, InputKey, Backspace, Accept, Abort, Layout, Prompting, Settle, Append, Create, Rendered, FoldAfter, SettleOn, AllRenderable, PromptsOk;
    if !(s.pr.input.Some? && !PassesGate(c)) {
      match c {
        case MinibufferInput(key) => InputKeyKeepsPrompts(s, key, fault);
        case MinibufferBackspace => AcceptKeepsPrompts(s, fault);
        case MinibufferAccept => AcceptKeepsPrompts(s, fault);
        case MinibufferAbort => AcceptKeepsPrompts(s, fault);
        case _ => PromptingKeeps(s.ed, s.pr, c);
      }
    }
  }

  lemma PeersKeepPrompts(s: Session, c: Command)
    ensures c.DeliverSessionEffects? || c.InsertAgentText? ==> Deliver(s, c).session.pr == s.pr
    ensures c.CreateAgentBuffer? || c.CreateGeneratedBuffer? ==> Mint(s, c).session.pr == s.pr
  {
    hide Delivered, Minted, SettleOn, AllRenderable;
  }

  lemma KeyPending(s: Session, key: string, fault: Option<Fault>)
    requires PendingOk(s.ed, s.pr.exitPending)
    ensures PendingOk(s.ed, InputKey(s, key, fault).session.pr.exitPending)
  {
    hide Save, KeyDecision, AnyModified;
  }

  lemma OtherKeysPending(s: Session, fault: Option<Fault>)
    requires PendingOk(s.ed, s.pr.exitPending)
    ensures PendingOk(s.ed, Backspace(s).0.pr.exitPending) && PendingOk(s.ed, Accept(s, fault).0.pr.exitPending)
            && PendingOk(s.ed, Abort(s).0.pr.exitPending)
  {
    hide Accepted, AcceptDecision;
  }

  lemma PromptingPending(ed: Editor, pr: Prompts, c: Command)
    requires PendingOk(ed, pr.exitPending) && PendingOk(ed, AtRisk(ed, ed.order))
    ensures PendingOk(ed, Prompting(ed, pr, c).0.exitPending)
  {
    hide AtRisk, AnyModified, PendingOk;
  }

  lemma ArmPending(s: Session, c: Command, fault: Option<Fault>)
    requires SessionOk(s) && Plain(c)
    ensures PendingOk(s.ed, Arm(s, c, fault).session.pr.exitPending)
  {
    hide EditorOk, Save, Layout, InputKey, Backspace, Accept, Abort, Prompting;
    OrderIsThere(s.ed);
    AtRiskOk(s.ed, s.ed.order);
    match c {
      case MinibufferInput(key) => KeyPending(s, key, fault);
      case MinibufferBackspace => OtherKeysPending(s, fault);
      case MinibufferAccept => OtherKeysPending(s, fault);
      case MinibufferAbort => OtherKeysPending(s, fault);
      case _ => PromptingPending(s.ed, s.pr, c);
    }
  }

  lemma StepPending(s: Session, c: Command, fault: Option<Fault>)
    requires SessionOk(s)
    ensures PendingOk(s.ed, Step(s, c, fault).session.pr.exitPending)
  {
    hide EditCurrent, Deliver, Mint, Arm, Settle, EditorOk, PromptsOk;
    if Plain(c) && !(s.pr.input.Some? && !PassesGate(c)) {
      ArmSettles(s, c, fault);
      ArmPending(s, c, fault);
    } else {
      PeersKeepPrompts(s, c);
    }
  }

  lemma OrderIsThere(ed: Editor)
    requires EditorOk(ed)
    ensures forall i :: 0 <= i < |ed.order| ==> ed.order[i] in ed.bufs
  {
  }

  /** Every dispatch keeps the session invariant and loses no buffer. */
  lemma StepKeepsSessionOk(s: Session, c: Command, fault: Option<Fault>)
    requires SessionOk(s)
    ensures SessionOk(Step(s, c, fault).session) && Grows(s.ed, Step(s, c, fault).session.ed)
  {
    hide EditorOk, PromptsOk, Step, PendingOk, Grows;
    StepEditor(s, c, fault);
    StepPrompts(s, c, fault);
    StepPending(s, c, fault);
    GrowsPending(s.ed, Step(s, c, fault).session.ed, Step(s, c, fault).session.pr.exitPending);
  }

  lemma {:induction false} RunKeepsSessionOk(s: Session, inputs: seq<Input>)
    requires SessionOk(s)
    ensures SessionOk(Run(s, inputs))
    decreases |inputs|
  {
    hide Step, SessionOk;
    if inputs != [] {
      StepKeepsSessionOk(s, inputs[0].command, inputs[0].fault);
      RunKeepsSessionOk(StepInput(s, inputs[0]).session, inputs[1..]);
    }
  }
}
