/** Agent output never interferes with the user's buffers: deleting every
    delivery from a run changes nothing outside generated buffers. */
module DeliveryErasure {
  import opened Prelude
  import opened Buffers
  import opened Transcript
  import opened Events
  import opened Editing
  import opened SessionSpec
  import opened SessionInvariants
  import opened SessionRuns

  // ---- Two sessions that differ in delivered text only ----

  ghost predicate AlikeBuf(a: Buf, b: Buf) {
    && a.st == b.st
    && (a.st.kind == Ordinary ==> a == b)
    && a.value.filePath == b.value.filePath && a.value.modified == b.value.modified
  }

  predicate OrdinaryId(ed: Editor, id: BufferId) {
    id in ed.bufs && ed.bufs[id].st.kind == Ordinary
  }

  ghost predicate AlikeBufs(a: Editor, b: Editor) {
    a.bufs.Keys == b.bufs.Keys && forall id :: id in a.bufs ==> AlikeBuf(a.bufs[id], b.bufs[id])
  }

  ghost predicate AlikeWindows(a: Editor, b: Editor) {
    && |a.windows| == |b.windows|
    && forall i :: 0 <= i < |a.windows| ==>
         && a.windows[i].buffer == b.windows[i].buffer
         && (OrdinaryId(a, a.windows[i].buffer) ==> a.windows[i] == b.windows[i])
  }

  predicate AlikeRest(a: Editor, b: Editor) {
    && a.order == b.order && a.current == b.current && a.ring == b.ring && a.focused == b.focused
    && a.frame == b.frame && a.mru == b.mru && a.agents == b.agents && a.generated == b.generated
    && a.disk == b.disk
  }

  ghost predicate Alike(a: Editor, b: Editor) {
    AlikeBufs(a, b) && AlikeWindows(a, b) && AlikeRest(a, b)
  }

  ghost predicate AlikeSessions(s: Session, t: Session) {
    Alike(s.ed, t.ed) && s.pr == t.pr
  }

  lemma AlikeTrans(a: Editor, b: Editor, c: Editor)
    requires Alike(a, b) && Alike(a, c)
    ensures Alike(b, c)
  {
  }

  lemma AlikeRefl(a: Editor)
    ensures Alike(a, a)
  {
  }

  // ---- A delivery changes only its generated buffer ----

  lemma AppendIsErased(ed: Editor, id: BufferId, text: string)
    requires OrdinaryId(ed, ed.current) && DeliveryTarget(ed, id)
    ensures Alike(ed, SettleOn(Append(ed, id, text).0, id))
  {
    AlikeRefl(ed);
    if text != "" {
      var b := ed.bufs[id];
      AlikeAppended(b, text);
      PutGenerated(ed, id, b.(value := Appended(b.value, text)));
      var ed' := Put(ed, id, b.(value := Appended(b.value, text)));
      TailIsErased(ed, ed', id, |b.value.text|, |b.value.text| + |text|);
    }
  }

  lemma AlikeAppended(b: Buf, text: string)
    requires b.st.kind == Generated
    ensures AlikeBuf(b, b.(value := Appended(b.value, text)))
  {
  }

  lemma PutGenerated(ed: Editor, id: BufferId, b: Buf)
    requires DeliveryTarget(ed, id) && AlikeBuf(ed.bufs[id], b)
    ensures Alike(ed, Put(ed, id, b))
  {
  }

  lemma TailIsErased(ed: Editor, ed': Editor, id: BufferId, before: int, after: int)
    requires Alike(ed, ed') && DeliveryTarget(ed, id) && ed'.windows == ed.windows
    ensures Alike(ed, ed'.(windows := TailFollow(ed.windows, ed.focused, id, before, after)))
  {
    hide AlikeBuf;
  }

  lemma DeliveryIsErased(s: Session, c: Command, fault: Option<Fault>)
    requires SessionOk(s) && OrdinaryId(s.ed, s.ed.current) && Delivery(c)
    ensures AlikeSessions(s, Step(s, c, fault).session)
  {
    hide Core, Synced, Append, SettleOn, Rendered, FoldAfter, AllRenderable, Alike, Settle, PendingOk;
    var ed := s.ed;
    AlikeRefl(ed);
    if c.DeliverProcessOutput? {
      SettleNothing(ed, c, [ProcessOutputRecorded]);
    } else if DeliveryTarget(ed, c.target) {
      if c.InsertAgentText? {
        AppendIsErased(ed, c.target, c.agentText);
      } else if AllRenderable(c.effects) {
        var folds := ed.folds[c.target := FoldAfter(ed.wording, FoldOf(ed, c.target), c.effects)];
        FoldsAreErased(ed, folds);
        AppendIsErased(ed.(folds := folds), c.target, Rendered(ed.wording, FoldOf(ed, c.target), c.effects));
        AlikeTrans(ed.(folds := folds), ed,
                   SettleOn(Append(ed.(folds := folds), c.target, Rendered(ed.wording, FoldOf(ed, c.target), c.effects)).0, c.target));
      }
    }
  }

  lemma FoldsAreErased(ed: Editor, folds: map<BufferId, TranscriptFold>)
    requires EditorOk(ed)
    ensures Alike(ed.(folds := folds), ed) && EditorOk(ed.(folds := folds))
  {
    hide BufOk, NoDuplicates;
  }

  lemma SettleNothing(ed: Editor, c: Command, events: seq<Event>)
    requires EditorOk(ed) && !UserIssued(c)
    ensures Settle(ed, c, events) == ed
  {
    hide Core;
    assert SyncFocused(ed).windows == ed.windows;
  }

  // ---- Every other command does the same to both ----

  lemma PutAlike(a: Editor, b: Editor, id: BufferId, x: Buf, y: Buf)
    requires Alike(a, b) && AlikeBuf(x, y) && (id in a.bufs ==> a.bufs[id].st.kind == x.st.kind)
    requires id !in a.bufs ==> forall i :: 0 <= i < |a.windows| ==> a.windows[i].buffer != id
    ensures Alike(Put(a, id, x), Put(b, id, y))
  {
  }

  lemma SyncAlike(a: Editor, b: Editor)
    requires Alike(a, b) && WindowsOk(a) && a.current in a.bufs
    ensures Alike(SyncFocused(a), SyncFocused(b))
  {
  }

  lemma LeaveAlike(a: Editor, b: Editor)
    requires Alike(a, b) && a.current in a.bufs
    ensures Alike(Leave(a), Leave(b))
  {
    PutAlike(a, b, a.current, Current(a).(st := BreakChains(Current(a).st)), Current(b).(st := BreakChains(Current(b).st)));
  }

  lemma LeaveFacts(ed: Editor)
    requires ed.current in ed.bufs
    ensures Leave(ed).bufs.Keys == ed.bufs.Keys && Leave(ed).current == ed.current && Leave(ed).windows == ed.windows
            && Leave(ed).focused == ed.focused && (WindowsOk(ed) ==> WindowsOk(Leave(ed)))
  {
  }

  lemma SettleAlike(a: Editor, b: Editor, c: Command, events: seq<Event>)
    requires Alike(a, b) && WindowsOk(a) && a.current in a.bufs
    ensures Alike(Settle(a, c, events), Settle(b, c, events))
  {
    hide Alike, SyncFocused, WindowsOk;
    LeaveAlike(a, b);
    LeaveFacts(a);
    LeaveIs(a);
    LeaveIs(b);
    SyncAlike(a, b);
    SyncAlike(Leave(a), Leave(b));
  }

  lemma LeaveIs(ed: Editor)
    ensures Leave(ed) == Put(ed, ed.current, Current(ed).(st := BreakChains(Current(ed).st)))
  {
  }

  lemma EditAlike(a: Editor, b: Editor, e: EditCommand)
    requires Alike(a, b) && EditorOk(a) && OrdinaryId(a, a.current)
    ensures EditCurrent(a, e).1 == EditCurrent(b, e).1
    ensures Alike(EditCurrent(a, e).0, EditCurrent(b, e).0)
  {
    hide EditStep, BufOk, ChainsOk, PathsOk, NoDuplicates, SyncFocused;
    assert a.bufs[a.current] == b.bufs[b.current];
    var buf := Current(a);
    assert BufOk(buf) && EditingInvariants.LocalOk(Local(buf.value, buf.st, a.ring)) by { EditReady(a); }
    EditFacts(Local(buf.value, buf.st, a.ring), e);
    var r := EditStep(Local(buf.value, buf.st, a.ring), e).local;
    PutAlike(a, b, a.current, Buf(r.value, r.st), Buf(r.value, r.st));
    SyncAlike(Put(a, a.current, Buf(r.value, r.st)).(ring := r.ring), Put(b, b.current, Buf(r.value, r.st)).(ring := r.ring));
  }

  lemma EditReady(ed: Editor)
    requires EditorOk(ed)
    ensures BufOk(Current(ed)) && EditingInvariants.LocalOk(Local(Current(ed).value, Current(ed).st, ed.ring))
  {
    assert BufOk(ed.bufs[ed.current]);
  }

  lemma SelectAlike(a: Editor, b: Editor, id: BufferId)
    requires Alike(a, b) && a.current in a.bufs && id in a.bufs && WindowsOk(a)
    ensures Select(a, id).1 == Select(b, id).1 && Alike(Select(a, id).0, Select(b, id).0)
  {
    hide ToFront, Leave;
    if id != a.current {
      LeaveAlike(a, b);
      LeaveFacts(a);
      LeaveFacts(b);
      SelectedAlike(Leave(a), Leave(b), id, ToFront(a.mru, id));
    }
  }

  lemma SelectedAlike(a: Editor, b: Editor, id: BufferId, mru: seq<BufferId>)
    requires Alike(a, b) && id in a.bufs && a.focused < |a.windows|
    ensures var v, w := BufOf(a, id).value, BufOf(b, id).value;
      Alike(a.(current := id, mru := mru, windows := a.windows[a.focused := WindowValue(id, v.point, v.mark)]),
            b.(current := id, mru := mru, windows := b.windows[b.focused := WindowValue(id, w.point, w.mark)]))
  {
  }

  lemma CreateAlike(a: Editor, b: Editor, name: string, buf: Buf)
    requires Alike(a, b) && WindowsOk(a)
    ensures var x, y := Create(a, name, buf), Create(b, name, buf);
      x.1 == y.1 && x.2 == y.2 && Alike(x.0, y.0)
  {
    hide FreshName;
    FreshNameIsFresh(name, a.bufs.Keys);
    PutAlike(a, b, FreshName(name, a.bufs.Keys), buf, buf);
  }

  lemma CreateWindows(ed: Editor, name: string, b: Buf)
    requires WindowsOk(ed)
    ensures WindowsOk(Create(ed, name, b).0) && Create(ed, name, b).1 in Create(ed, name, b).0.bufs
  {
    hide FreshName;
  }

  lemma {:induction false} VisitingAlike(a: Editor, b: Editor, order: seq<BufferId>, path: string)
    requires Alike(a, b) && forall i :: 0 <= i < |order| ==> order[i] in a.bufs
    ensures Visiting(a, order, path) == Visiting(b, order, path)
  {
    if order != [] {
      assert order[0] in a.bufs;
      VisitingAlike(a, b, order[1..], path);
    }
  }

  lemma OpenAlike(a: Editor, b: Editor, path: string, fault: Option<Fault>)
    requires Alike(a, b) && Core(a)
    ensures OpenFile(a, path, fault).1 == OpenFile(b, path, fault).1
    ensures Alike(OpenFile(a, path, fault).0, OpenFile(b, path, fault).0)
  {
    hide Select, Create, Basename, ResolveVisit, BufsOk, ChainsOk, PathsOk, AlikeBufs, AlikeWindows, WindowsOk, NoDuplicates;
    VisitingAlike(a, b, a.order, path);
    VisitingFinds(a, a.order, path);
    match Visiting(a, a.order, path)
    case Some(id) => SelectAlike(a, b, id);
    case None =>
      var v := ResolveVisit(a.disk, path, fault);
      if v.VisitOpened? {
        var buf := VisitedBuf(path, v);
        CreateAlike(a, b, Basename(path), buf);
        CreateWindows(a, Basename(path), buf);
        CreateKeepsCurrent(a, Basename(path), buf);
        GrowsCreate(a, Basename(path), buf);
        var x, y := Create(a, Basename(path), buf), Create(b, Basename(path), buf);
        SelectAlike(x.0, y.0, x.1);
      }
  }

  lemma SwitchAlike(a: Editor, b: Editor, name: string)
    requires Alike(a, b) && Core(a)
    ensures SwitchTo(a, name).1 == SwitchTo(b, name).1
    ensures Alike(SwitchTo(a, name).0, SwitchTo(b, name).0)
  {
    hide Select, Create, BufsOk, ChainsOk, PathsOk, AlikeWindows, WindowsOk, NoDuplicates;
    if name in a.bufs {
      SelectAlike(a, b, name);
    } else {
      CreateAlike(a, b, name, BLANK);
      CreateWindows(a, name, BLANK);
      CreateKeepsCurrent(a, name, BLANK);
      GrowsCreate(a, name, BLANK);
      SelectAlike(Create(a, name, BLANK).0, Create(b, name, BLANK).0, Create(a, name, BLANK).1);
    }
  }

  lemma AcceptedAlike(a: Editor, b: Editor, kind: Option<PromptKind>, text: string, fault: Option<Fault>)
    requires Alike(a, b) && Core(a)
    ensures Accepted(a, kind, text, fault).1 == Accepted(b, kind, text, fault).1
    ensures Alike(Accepted(a, kind, text, fault).0, Accepted(b, kind, text, fault).0)
  {
    hide Core, SwitchTo, OpenFile, AlikeBufs, AlikeWindows;
    OpenAlike(a, b, text, fault);
    SwitchAlike(a, b, if text != "" then text else if |a.mru| > 1 then a.mru[1] else "");
  }

  /** A pathless buffer is not written; one with a path is ordinary, so alike. */
  lemma SaveAlike(a: Editor, b: Editor, id: BufferId, fault: Option<Fault>)
    requires Alike(a, b) && Core(a) && id in a.bufs
    ensures Save(a, id, fault).1 == Save(b, id, fault).1
    ensures Alike(Save(a, id, fault).0, Save(b, id, fault).0)
  {
    hide Core, LineEndings.ToFileText;
    GeneratedHasNoFile(a, id);
  }

  lemma GeneratedHasNoFile(ed: Editor, id: BufferId)
    requires Core(ed) && id in ed.bufs
    ensures ed.bufs[id].st.kind == Generated ==> ed.bufs[id].value.filePath.None?
  {
    assert BufOk(ed.bufs[id]);
  }

  lemma {:induction false} AtRiskAlike(a: Editor, b: Editor, order: seq<BufferId>)
    requires AlikeBufs(a, b) && forall i :: 0 <= i < |order| ==> order[i] in a.bufs
    ensures AtRisk(a, order) == AtRisk(b, order)
  {
    if order != [] {
      assert order[0] in a.bufs;
      AtRiskAlike(a, b, order[1..]);
    }
  }

  lemma AnyModifiedAlike(a: Editor, b: Editor)
    requires AlikeBufs(a, b)
    ensures AnyModified(a) <==> AnyModified(b)
  {
    if AnyModified(a) { var id :| id in a.bufs && a.bufs[id].value.modified; assert b.bufs[id].value.modified; }
    if AnyModified(b) { var id :| id in b.bufs && b.bufs[id].value.modified; assert a.bufs[id].value.modified; }
  }

  lemma SplitAlike(a: Editor, b: Editor, speak: bool)
    requires Alike(a, b)
    ensures Split(a, speak).1 == Split(b, speak).1 && Alike(Split(a, speak).0, Split(b, speak).0)
  {
    hide AlikeBuf;
  }

  lemma DisplayAlike(a: Editor, b: Editor, id: BufferId)
    requires Alike(a, b)
    ensures Display(a, id).1 == Display(b, id).1 && Alike(Display(a, id).0, Display(b, id).0)
  {
    hide Split, AlikeBuf;
    SplitAlike(a, b, false);
    SplitFocus(a);
    SplitFocus(b);
  }

  lemma SplitFocus(ed: Editor)
    ensures Split(ed, false).0.focused == ed.focused
  {
  }

  lemma ArriveAlike(a: Editor, b: Editor, w: WindowValue, v: WindowValue)
    requires Alike(a, b) && a.current in a.bufs && (OrdinaryId(a, a.current) ==> w == v)
    ensures Alike(Arrive(a, w), Arrive(b, v))
  {
    hide Clamp;
  }

  lemma OtherAlike(a: Editor, b: Editor)
    requires Alike(a, b) && Core(a)
    ensures Other(a).1 == Other(b).1 && Alike(Other(a).0, Other(b).0)
  {
    hide BufsOk, ChainsOk, PathsOk, ToFront, Arrive, Leave, AlikeBuf, NoDuplicates;
    if |a.windows| >= 2 {
      var next := (a.focused + 1) % |a.windows|;
      var w, v := a.windows[next], b.windows[next];
      if w.buffer != a.current {
        LeaveAlike(a, b);
        LeaveFacts(a);
        LeaveFacts(b);
        LeaveKeepsWindows(a, next);
        LeaveKeepsWindows(b, next);
        LeaveKinds(a);
        MoveAlike(Leave(a), Leave(b), next, w.buffer, ToFront(a.mru, w.buffer));
        ArriveAlike(Leave(a).(focused := next, current := w.buffer, mru := ToFront(a.mru, w.buffer)),
                    Leave(b).(focused := next, current := w.buffer, mru := ToFront(a.mru, w.buffer)), w, v);
      } else {
        MoveAlike(a, b, next, a.current, a.mru);
        ArriveAlike(a.(focused := next), b.(focused := next), w, v);
      }
    }
  }

  lemma LeaveKinds(ed: Editor)
    requires ed.current in ed.bufs
    ensures forall id :: OrdinaryId(Leave(ed), id) <==> OrdinaryId(ed, id)
  {
  }

  lemma MoveAlike(a: Editor, b: Editor, focused: nat, current: BufferId, mru: seq<BufferId>)
    requires Alike(a, b)
    ensures Alike(a.(focused := focused, current := current, mru := mru), b.(focused := focused, current := current, mru := mru))
  {
  }

  lemma DeleteOthersAlike(a: Editor, b: Editor)
    requires Alike(a, b)
    ensures DeleteOthers(a).1 == DeleteOthers(b).1 && Alike(DeleteOthers(a).0, DeleteOthers(b).0)
  {
  }

  lemma LayoutAlike(a: Editor, b: Editor, c: Command)
    requires Alike(a, b) && Core(a)
    ensures Layout(a, c).1 == Layout(b, c).1 && Alike(Layout(a, c).0, Layout(b, c).0)
  {
    hide Core, Split, Display, Other, DeleteOthers, AlikeBuf;
    match c {
      case SplitWindow => SplitAlike(a, b, true);
      case OtherWindow => OtherAlike(a, b);
      case DeleteOtherWindows => DeleteOthersAlike(a, b);
      case DisplayBuffer(id) => DisplayAlike(a, b, id);
      case _ =>
    }
  }

  lemma MintAlike(s: Session, t: Session, c: Command)
    requires AlikeSessions(s, t) && EditorOk(s.ed) && (c.CreateAgentBuffer? || c.CreateGeneratedBuffer?)
    ensures Mint(s, c).events == Mint(t, c).events && AlikeSessions(Mint(s, c).session, Mint(t, c).session)
  {
    hide BufsOk, ChainsOk, PathsOk, Create, AlikeBufs, AlikeWindows, SyncFocused, NoDuplicates, WindowsOk;
    var known := if c.CreateAgentBuffer? then Lookup(s.ed.agents, c.acpSession) else Lookup(s.ed.generated, c.name);
    SyncAlike(s.ed, t.ed);
    if known.None? {
      var name := if c.CreateAgentBuffer? then AGENT_NAME else c.name;
      CreateAlike(s.ed, t.ed, name, GENERATED_BLANK);
      var x, y := Create(s.ed, name, GENERATED_BLANK), Create(t.ed, name, GENERATED_BLANK);
      CreateKeepsCurrent(s.ed, name, GENERATED_BLANK);
      CreateIsFresh(s.ed, name, GENERATED_BLANK);
      BindAlike(x.0, y.0, if c.CreateAgentBuffer? then s.ed.agents[c.acpSession := x.1] else s.ed.agents,
                if c.CreateAgentBuffer? then s.ed.generated else s.ed.generated[c.name := x.1]);
      CreateBindings(s.ed, name, GENERATED_BLANK);
      CreateBindings(t.ed, name, GENERATED_BLANK);
    }
  }

  lemma CreateIsFresh(ed: Editor, name: string, b: Buf)
    requires ed.current in ed.bufs
    ensures Create(ed, name, b).1 != ed.current
  {
    hide FreshName;
    FreshNameIsFresh(name, ed.bufs.Keys);
  }

  lemma CreateBindings(ed: Editor, name: string, b: Buf)
    ensures Create(ed, name, b).0.agents == ed.agents && Create(ed, name, b).0.generated == ed.generated
  {
  }

  lemma BindAlike(a: Editor, b: Editor, agents: map<string, BufferId>, generated: map<string, BufferId>)
    requires Alike(a, b)
    ensures Alike(a.(agents := agents, generated := generated), b.(agents := agents, generated := generated))
  {
    hide AlikeBuf;
  }

  // ---- Whole dispatches ----

  lemma AlikePrompts(s: Session, t: Session)
    requires AlikeSessions(s, t)
    ensures s.pr == t.pr
  {
    hide Alike;
  }

  ghost predicate StepsAlike(x: Outcome, y: Outcome) {
    x.events == y.events && x.raised == y.raised && AlikeSessions(x.session, y.session)
  }

  lemma ExitKeyStepAlike(s: Session, t: Session, c: Command, fault: Option<Fault>)
    requires AlikeSessions(s, t) && SessionOk(s) && c.MinibufferInput? && s.pr.choice.None? && ExitPrompt(s.pr)
    ensures StepsAlike(Step(s, c, fault), Step(t, c, fault))
  {
    hide Core, Alike, Save, Settle, Drain, Synced, PendingOk, AnyModified, Step, PromptsOk, ExitKey;
    ArmSettles(s, c, fault);
    ArmSettles(t, c, fault);
    ExitKeyAlike(s, t, c.key, fault);
    var x, y := ExitKey(s, c.key, fault), ExitKey(t, c.key, fault);
    ExitKeyEditor(s, c.key, fault);
    CoreHasCurrent(x.0.ed);
    CoreWindows(x.0.ed);
    SettleAlike(x.0.ed, y.0.ed, c, x.1);
  }

  lemma AcceptStepAlike(s: Session, t: Session, c: Command, fault: Option<Fault>)
    requires AlikeSessions(s, t) && SessionOk(s) && c.MinibufferAccept? && s.pr.choice.None? && !ExitPrompt(s.pr) && s.pr.input.Some?
    ensures StepsAlike(Step(s, c, fault), Step(t, c, fault))
  {
    hide Core, Alike, Accepted, Settle, Drain, Synced, PendingOk, Step, PromptsOk;
    var pr := s.pr;
    ArmSettles(s, c, fault);
    ArmSettles(t, c, fault);
    AcceptedAlike(s.ed, t.ed, pr.kind, pr.input.value, fault);
    AcceptedEditor(s.ed, pr.kind, pr.input.value, fault);
    var x, y := Accepted(s.ed, pr.kind, pr.input.value, fault), Accepted(t.ed, pr.kind, pr.input.value, fault);
    CoreHasCurrent(x.0);
    CoreWindows(x.0);
    SettleAlike(x.0, y.0, c, Arm(s, c, fault).events);
  }

  /** The other keys of the minibuffer leave the editor to the bookkeeping. */
  lemma PromptStepAlike(s: Session, t: Session, c: Command, fault: Option<Fault>)
    requires AlikeSessions(s, t) && SessionOk(s)
    requires c.MinibufferInput? || c.MinibufferBackspace? || c.MinibufferAccept? || c.MinibufferAbort?
    requires !(c.MinibufferInput? && s.pr.choice.None? && ExitPrompt(s.pr))
    requires !(c.MinibufferAccept? && s.pr.choice.None? && !ExitPrompt(s.pr) && s.pr.input.Some?)
    ensures StepsAlike(Step(s, c, fault), Step(t, c, fault))
  {
    hide Core, Alike, Settle, KeyDecision, AcceptDecision, Drain, Decide, Synced, PendingOk, Step, PromptsOk;
    CoreHasCurrent(s.ed);
    CoreWindows(s.ed);
    ArmSettles(s, c, fault);
    ArmSettles(t, c, fault);
    SettleAlike(s.ed, t.ed, c, Arm(s, c, fault).events);
  }

  lemma MinibufferAlike(s: Session, t: Session, c: Command, fault: Option<Fault>)
    requires AlikeSessions(s, t) && SessionOk(s)
    requires c.MinibufferInput? || c.MinibufferBackspace? || c.MinibufferAccept? || c.MinibufferAbort?
    ensures var x, y := Step(s, c, fault), Step(t, c, fault);
      x.events == y.events && x.raised == y.raised && AlikeSessions(x.session, y.session)
  {
    hide AlikeSessions, SessionOk, Accepted, Save, Settle, KeyDecision, AcceptDecision, Drain, Decide, AnyModified, Step, Arm;
    ArmSettles(s, c, fault);
    ArmSettles(t, c, fault);
    AlikePrompts(s, t);
    if c.MinibufferInput? && s.pr.choice.None? && ExitPrompt(s.pr) {
      ExitKeyStepAlike(s, t, c, fault);
    } else if c.MinibufferAccept? && s.pr.choice.None? && !ExitPrompt(s.pr) && s.pr.input.Some? {
      AcceptStepAlike(s, t, c, fault);
    } else {
      PromptStepAlike(s, t, c, fault);
    }
  }

  lemma CoreWindows(ed: Editor)
    requires Core(ed)
    ensures WindowsOk(ed)
  {
  }

  lemma ExitKeyAlike(s: Session, t: Session, key: string, fault: Option<Fault>)
    requires AlikeSessions(s, t) && SessionOk(s) && ExitPrompt(s.pr)
    ensures var x, y := ExitKey(s, key, fault), ExitKey(t, key, fault);
      x.1 == y.1 && AlikeSessions(x.0, y.0)
  {
    hide Core, Synced, Alike, Save, AnyModified, Drain;
    if s.pr.exitPending != [] {
      var id := s.pr.exitPending[0].0;
      SaveAlike(s.ed, t.ed, id, fault);
      AlikeModified(Save(s.ed, id, fault).0, Save(t.ed, id, fault).0);
      AlikeModified(s.ed, t.ed);
    }
  }

  lemma AlikeModified(a: Editor, b: Editor)
    requires Alike(a, b)
    ensures AnyModified(a) <==> AnyModified(b)
  {
    hide AnyModified;
    AnyModifiedAlike(a, b);
  }

  lemma PromptingAlike(s: Session, t: Session, c: Command)
    requires AlikeSessions(s, t) && SessionOk(s)
    ensures Prompting(s.ed, s.pr, c) == Prompting(t.ed, t.pr, c)
  {
    hide AnyModified, AtRisk, BufsOk, ChainsOk, PathsOk, WindowsOk;
    AnyModifiedAlike(s.ed, t.ed);
    AtRiskAlike(s.ed, t.ed, s.ed.order);
  }

  lemma SaveStepAlike(s: Session, t: Session, fault: Option<Fault>)
    requires AlikeSessions(s, t) && SessionOk(s)
    ensures StepsAlike(Step(s, SaveBuffer, fault), Step(t, SaveBuffer, fault))
  {
    hide Core, Alike, Save, Settle, Synced, PendingOk, PromptsOk;
    CoreHasCurrent(s.ed);
    CoreWindows(s.ed);
    AlikeKeys(s.ed, t.ed);
    SaveAlike(s.ed, t.ed, s.ed.current, fault);
    SaveKeepsCore(s.ed, s.ed.current, fault);
    var x, y := Save(s.ed, s.ed.current, fault), Save(t.ed, s.ed.current, fault);
    CoreHasCurrent(x.0);
    CoreWindows(x.0);
    SettleAlike(x.0, y.0, SaveBuffer, x.1);
  }

  /** The same command does the same thing to sessions that differ in delivered
      text only, and records the same events. */
  lemma StepAlike(s: Session, t: Session, c: Command, fault: Option<Fault>)
    requires AlikeSessions(s, t) && SessionOk(s) && SessionOk(t)
    requires OrdinaryId(s.ed, s.ed.current) && !Delivery(c)
    ensures var x, y := Step(s, c, fault), Step(t, c, fault);
      x.events == y.events && x.raised == y.raised && AlikeSessions(x.session, y.session)
  {
    hide Core, Alike, EditCurrent, Save, Mint, InputKey, Backspace, Accept, Abort, Layout, Prompting, Settle, Synced, PendingOk,
         PromptsOk, OrdinaryId;
    CoreHasCurrent(s.ed);
    CoreWindows(s.ed);
    AlikeKeys(s.ed, t.ed);
    if !(s.pr.input.Some? && !PassesGate(c)) {
      match c {
        case Edit(e) => EditAlike(s.ed, t.ed, e);
        case SaveBuffer => SaveStepAlike(s, t, fault);
        case CreateAgentBuffer(_) => MintAlike(s, t, c); MintRaises(s, t, c);
        case CreateGeneratedBuffer(_) => MintAlike(s, t, c); MintRaises(s, t, c);
        case MinibufferInput(_) => MinibufferAlike(s, t, c, fault);
        case MinibufferBackspace => MinibufferAlike(s, t, c, fault);
        case MinibufferAccept => MinibufferAlike(s, t, c, fault);
        case MinibufferAbort => MinibufferAlike(s, t, c, fault);
        case DisplayBuffer(_) => LayoutStepAlike(s, t, c, fault);
        case SplitWindow => LayoutStepAlike(s, t, c, fault);
        case OtherWindow => LayoutStepAlike(s, t, c, fault);
        case DeleteOtherWindows => LayoutStepAlike(s, t, c, fault);
        case ResizeFrame(_, _) => LayoutStepAlike(s, t, c, fault);
        case _ =>
          PromptingAlike(s, t, c);
          SettleAlike(s.ed, t.ed, c, Prompting(s.ed, s.pr, c).1);
      }
    }
  }

  lemma MintRaises(s: Session, t: Session, c: Command)
    requires AlikeSessions(s, t) && (c.CreateAgentBuffer? || c.CreateGeneratedBuffer?)
    ensures Mint(s, c).raised <==> Mint(t, c).raised
  {
  }

  lemma AlikeKeys(a: Editor, b: Editor)
    requires Alike(a, b)
    ensures a.current == b.current && a.bufs.Keys == b.bufs.Keys
  {
  }

  lemma LayoutStepAlike(s: Session, t: Session, c: Command, fault: Option<Fault>)
    requires AlikeSessions(s, t) && SessionOk(s)
    requires c.DisplayBuffer? || c.SplitWindow? || c.OtherWindow? || c.DeleteOtherWindows? || c.ResizeFrame?
    ensures var x, y := Step(s, c, fault), Step(t, c, fault);
      x.events == y.events && x.raised == y.raised && AlikeSessions(x.session, y.session)
  {
    hide Core, Alike, Layout, Settle, Synced, PendingOk, PromptsOk;
    AlikeKeys(s.ed, t.ed);
    if !(c.DisplayBuffer? && c.target !in s.ed.bufs) {
      LayoutAlike(s.ed, t.ed, c);
      LayoutKeepsCore(s.ed, c);
      CoreHasCurrent(Layout(s.ed, c).0);
      CoreWindows(Layout(s.ed, c).0);
      SettleAlike(Layout(s.ed, c).0, Layout(t.ed, c).0, c, Layout(s.ed, c).1);
    }
  }

  // ---- Runs ----

  /** The run with its deliveries deleted. */
  function WithoutDeliveries(inputs: seq<Input>): seq<Input>
    decreases |inputs|
  {
    if inputs == [] then []
    else (if Delivery(inputs[0].command) then [] else [inputs[0]]) + WithoutDeliveries(inputs[1..])
  }

  /** The events of everything but deliveries. */
  function OwnRecord(s: Session, inputs: seq<Input>): seq<Event>
    decreases |inputs|
  {
    if inputs == [] then []
    else
      (if Delivery(inputs[0].command) then [] else StepInput(s, inputs[0]).events)
      + OwnRecord(StepInput(s, inputs[0]).session, inputs[1..])
  }

  /** No generated buffer is ever current. */
  ghost predicate StaysOrdinary(s: Session, inputs: seq<Input>)
    decreases |inputs|
  {
    OrdinaryId(s.ed, s.ed.current)
    && (inputs != [] ==> StaysOrdinary(StepInput(s, inputs[0]).session, inputs[1..]))
  }

  lemma {:induction false} RunAlike(s: Session, t: Session, inputs: seq<Input>)
    requires AlikeSessions(s, t) && SessionOk(s) && SessionOk(t) && StaysOrdinary(s, inputs)
    ensures AlikeSessions(Run(s, inputs), Run(t, WithoutDeliveries(inputs)))
    ensures OwnRecord(s, inputs) == Recorded(t, WithoutDeliveries(inputs))
    decreases |inputs|
  {
    hide Step, SessionOk, AlikeSessions, Delivery, OrdinaryId;
    if inputs != [] {
      var i := inputs[0];
      StepKeepsSessionOk(s, i.command, i.fault);
      var s' := StepInput(s, i).session;
      if Delivery(i.command) {
        DeliveryIsErased(s, i.command, i.fault);
        AlikeJoin(s, s', t);
        assert WithoutDeliveries(inputs) == WithoutDeliveries(inputs[1..]);
        RunAlike(s', t, inputs[1..]);
      } else {
        StepAlike(s, t, i.command, i.fault);
        StepKeepsSessionOk(t, i.command, i.fault);
        var rest := WithoutDeliveries(inputs[1..]);
        assert WithoutDeliveries(inputs) == [i] + rest && ([i] + rest)[1..] == rest;
        RunAlike(s', StepInput(t, i).session, inputs[1..]);
      }
    }
  }

  lemma AlikeJoin(s: Session, x: Session, t: Session)
    requires AlikeSessions(s, x) && AlikeSessions(s, t)
    ensures AlikeSessions(x, t)
  {
    hide Alike;
    AlikeTrans(s.ed, x.ed, t.ed);
  }

  /** Deleting every delivery from a run that keeps generated buffers out of focus
      leaves each ordinary buffer's value, undo stacks and chain flags, the kill
      ring, the prompts, the files and every other event exactly the same. */
  lemma {:induction false} DeliveriesDoNotInterfere(s: Session, inputs: seq<Input>)
    requires SessionOk(s) && StaysOrdinary(s, inputs)
    ensures var a, b := Run(s, inputs), Run(s, WithoutDeliveries(inputs));
      && a.ed.bufs.Keys == b.ed.bufs.Keys
      && (forall id :: OrdinaryId(a.ed, id) ==> a.ed.bufs[id] == b.ed.bufs[id])
      && a.ed.ring == b.ed.ring && a.ed.current == b.ed.current && a.ed.order == b.ed.order
      && a.ed.disk == b.ed.disk && a.pr == b.pr
      && OwnRecord(s, inputs) == Recorded(s, WithoutDeliveries(inputs))
  {
    hide Run, SessionOk, OwnRecord, Recorded, WithoutDeliveries, StaysOrdinary;
    AlikeRefl(s.ed);
    RunAlike(s, s, inputs);
  }
}
