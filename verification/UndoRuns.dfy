/** Undo over whole runs: which dispatches make the next undo turn round. */
module UndoRuns {
  import opened Prelude
  import opened Buffers
  import opened Transcript
  import opened Events
  import opened Editing
  import opened EditingInvariants
  import opened EditingTheorems
  import opened SessionSpec
  import opened SessionInvariants
  import opened SessionRuns
  import opened KillChain

  predicate TextEvent(e: Event) {
    e.TextInserted? || e.TextKilled? || e.TextYanked? || e.TextYankPopped? || e.RegionKilled? || e.TextUndone? || e.TextRedone?
  }

  /** The events of a dispatch that found `current` current say that the text of `id` changed. */
  predicate Rewrites(current: BufferId, events: seq<Event>, id: BufferId) {
    exists k :: 0 <= k < |events| &&
      ((TextEvent(events[k]) && current == id) || (events[k].AgentTextInserted? && events[k].buffer == id))
  }

  // ---- One buffer through one dispatch ----

  ghost predicate SameGroups(b: Buf, b': Buf) {
    b'.value.text == b.value.text && b'.st.history == b.st.history && b'.st.redo == b.st.redo
  }

  ghost predicate Passes(ed: Editor, ed': Editor, id: BufferId, turns: bool) {
    && id in ed.bufs && id in ed'.bufs && SameGroups(ed.bufs[id], ed'.bufs[id])
    && (ed'.bufs[id].st.descending <==> ed.bufs[id].st.descending && !turns)
  }

  /** Before the bookkeeping; the flag may have gone only if the dispatch acted. */
  ghost predicate Midway(ed: Editor, mid: Editor, id: BufferId, turns: bool) {
    && id in ed.bufs && id in mid.bufs && SameGroups(ed.bufs[id], mid.bufs[id])
    && (!turns ==> mid.bufs[id].st.descending == ed.bufs[id].st.descending)
  }

  lemma SettlePasses(ed: Editor, mid: Editor, c: Command, events: seq<Event>, id: BufferId)
    requires Midway(ed, mid, id, UserIssued(c) && Acts(events)) && ChainsOk(Settle(mid, c, events))
    ensures Passes(ed, Settle(mid, c, events), id, UserIssued(c) && Acts(events))
  {
    hide Settle, Acts, UserIssued, YankChain, RingOk;
    SettleFrame(mid, c, events);
  }

  lemma EditKeepsGroups(l: Local, e: EditCommand)
    requires forall k :: 0 <= k < |EditStep(l, e).events| ==> !TextEvent(EditStep(l, e).events[k])
    ensures var r := EditStep(l, e);
      && r.local.value.text == l.value.text && r.local.st.history == l.st.history && r.local.st.redo == l.st.redo
      && (r.local.st.descending <==> l.st.descending && !Acts(r.events))
  {
    hide Splice, Slice, AdjustInsert, AdjustDelete, LineEnd;
    EditEvents(l, e);
  }

  lemma EditPasses(ed: Editor, e: EditCommand, id: BufferId)
    requires EditorOk(ed) && id in ed.bufs && !Rewrites(ed.current, EditCurrent(ed, e).1, id)
    ensures Passes(ed, EditCurrent(ed, e).0, id, Acts(EditCurrent(ed, e).1))
  {
    hide EditStep, BufOk, PathsOk, WindowsOk, YankChain, RingOk, NoDuplicates, TextEvent;
    if id == ed.current { EditKeepsGroups(Local(Current(ed).value, Current(ed).st, ed.ring), e); }
  }

  lemma SelectMidway(ed: Editor, x: BufferId, id: BufferId)
    requires id in ed.bufs
    ensures Midway(ed, Select(ed, x).0, id, Select(ed, x).1 != [])
    ensures Select(ed, x).1 == [] ==> Select(ed, x).0 == ed
  {
    hide Select;
    SelectFrame(ed, x);
  }

  lemma CreateMidway(ed: Editor, name: string, b: Buf, id: BufferId)
    requires id in ed.bufs
    ensures var r := Create(ed, name, b); Midway(ed, r.0, id, false) && |r.2| == 1 && r.2[0].BufferCreated?
  {
    hide FreshName;
    FreshNameIsFresh(name, ed.bufs.Keys);
  }

  lemma MidwayJoins(a: Editor, b: Editor, c: Editor, id: BufferId, turns: bool)
    requires Midway(a, b, id, turns) && Midway(b, c, id, turns)
    ensures Midway(a, c, id, turns)
  {
  }

  lemma MidwayTurns(a: Editor, b: Editor, id: BufferId, turns: bool, more: bool)
    requires Midway(a, b, id, turns) && (turns ==> more)
    ensures Midway(a, b, id, more)
  {
  }

  lemma AcceptedMidway(ed: Editor, kind: Option<PromptKind>, text: string, fault: Option<Fault>, id: BufferId)
    requires id in ed.bufs
    ensures var r := Accepted(ed, kind, text, fault); Midway(ed, r.0, id, r.1 != [])
  {
    hide Select, Create, Basename, ResolveVisit, Visiting, Midway;
    NothingMidway(ed, id);
    var name := if text != "" then text else if |ed.mru| > 1 then ed.mru[1] else "";
    if kind == Some(SwitchKind) {
      SelectMidway(ed, name, id);
      MadeMidway(ed, name, BLANK, id);
    } else if kind != Some(AgentKind) && text != "" {
      match Visiting(ed, ed.order, text)
      case Some(x) => SelectMidway(ed, x, id);
      case None =>
        var v := ResolveVisit(ed.disk, text, fault);
        MidwayTurns(ed, ed, id, false, true);
        if v.VisitOpened? { MadeMidway(ed, Basename(text), VisitedBuf(text, v), id); }
    } else {
      MidwayTurns(ed, ed, id, false, true);
    }
  }

  lemma NothingMidway(ed: Editor, id: BufferId)
    requires id in ed.bufs
    ensures Midway(ed, ed, id, false)
  {
  }

  lemma HasId(ed: Editor, mid: Editor, id: BufferId, turns: bool)
    requires Midway(ed, mid, id, turns)
    ensures id in mid.bufs
  {
  }

  /** A new buffer is made and becomes current. */
  lemma MadeMidway(ed: Editor, name: string, b: Buf, id: BufferId)
    requires id in ed.bufs
    ensures var made := Create(ed, name, b);
      Midway(ed, Select(made.0, made.1).0, id, true) && |made.2| == 1 && made.2[0].BufferCreated?
  {
    hide Select, Create, Midway;
    var made := Create(ed, name, b);
    CreateMidway(ed, name, b, id);
    HasId(ed, made.0, id, false);
    SelectMidway(made.0, made.1, id);
    MidwayTurns(ed, made.0, id, false, true);
    MidwayTurns(made.0, Select(made.0, made.1).0, id, Select(made.0, made.1).1 != [], true);
    MidwayJoins(ed, made.0, Select(made.0, made.1).0, id, true);
  }

  lemma SaveMidway(ed: Editor, x: BufferId, fault: Option<Fault>, id: BufferId)
    requires id in ed.bufs
    ensures Midway(ed, Save(ed, x, fault).0, id, false)
  {
  }

  lemma AppendPasses(ed: Editor, target: BufferId, text: string, id: BufferId)
    requires id in ed.bufs && (target == id ==> Append(ed, target, text).1 == [])
    ensures Passes(ed, SettleOn(Append(ed, target, text).0, target), id, false)
  {
    hide Append, SettleOn;
    AppendFrame(ed, target, text);
    SettleOnFrame(Append(ed, target, text).0, target);
  }

  lemma DeliverPasses(s: Session, c: Command, id: BufferId)
    requires c.DeliverSessionEffects? || c.InsertAgentText?
    requires id in s.ed.bufs && !Rewrites(s.ed.current, Deliver(s, c).events, id)
    ensures Passes(s.ed, Deliver(s, c).session.ed, id, false)
  {
    hide Rendered, FoldAfter, AllRenderable, Append, SettleOn, TextEvent, Passes;
    var ed := s.ed;
    NothingPasses(ed, id);
    if DeliveryTarget(ed, c.target) {
      if c.InsertAgentText? {
        AppendTells(ed, c.target, c.agentText);
        AppendPasses(ed, c.target, c.agentText, id);
      } else if AllRenderable(c.effects) {
        var text := Rendered(ed.wording, FoldOf(ed, c.target), c.effects);
        var at := ed.(folds := ed.folds[c.target := FoldAfter(ed.wording, FoldOf(ed, c.target), c.effects)]);
        AppendTells(at, c.target, text);
        if Append(at, c.target, text).1 != [] {
          assert Deliver(s, c).events[1] == Append(at, c.target, text).1[0];
        }
        AppendPasses(at, c.target, text, id);
        SameBufsPass(at, ed, SettleOn(Append(at, c.target, text).0, c.target), id);
      }
    }
  }

  lemma NothingPasses(ed: Editor, id: BufferId)
    requires id in ed.bufs
    ensures Passes(ed, ed, id, false)
  {
  }

  lemma SameBufsPass(a: Editor, b: Editor, c: Editor, id: BufferId)
    requires a.bufs == b.bufs && Passes(a, c, id, false)
    ensures Passes(b, c, id, false)
  {
  }

  lemma AppendTells(ed: Editor, target: BufferId, text: string)
    ensures var events := Append(ed, target, text).1;
      events == [] || (|events| == 1 && events[0].AgentTextInserted? && events[0].buffer == target)
  {
  }

  lemma MintPasses(s: Session, c: Command, id: BufferId)
    requires id in s.ed.bufs && (c.CreateAgentBuffer? || c.CreateGeneratedBuffer?)
    ensures Passes(s.ed, Mint(s, c).session.ed, id, false)
  {
    hide FreshName, SettleOn;
    FreshNameIsFresh(AGENT_NAME, s.ed.bufs.Keys);
    if c.CreateGeneratedBuffer? { FreshNameIsFresh(c.name, s.ed.bufs.Keys); }
    if !Nameless(s.ed, c) { SettleOnFrame(Minted(s.ed, c).0, Minted(s.ed, c).1); }
  }

  lemma SameBufsMidway(ed: Editor, mid: Editor, id: BufferId)
    requires id in ed.bufs
    ensures mid.bufs == ed.bufs ==> Midway(ed, mid, id, false)
  {
  }

  lemma DisplayMidway(ed: Editor, c: Command, id: BufferId)
    ensures c.DisplayBuffer? ==> Display(ed, c.target).0.bufs == ed.bufs
  {
    hide Split;
    SplitKeepsBuffers(ed, false);
  }

  lemma OtherMidway(ed: Editor, id: BufferId)
    requires EditorOk(ed) && id in ed.bufs
    ensures Midway(ed, Other(ed).0, id, Other(ed).1 != [])
  {
    hide Other, PathsOk, BufsOk, ChainsOk, NoDuplicates, Synced;
    OtherKeepsRing(ed);
    OtherFrame(ed);
  }

  lemma LayoutMidway(ed: Editor, c: Command, id: BufferId)
    requires EditorOk(ed) && id in ed.bufs
    ensures Midway(ed, Layout(ed, c).0, id, c.OtherWindow? && Layout(ed, c).1 != [])
  {
    hide Split, Display, Other, EditorOk, Midway;
    NothingMidway(ed, id);
    SplitKeepsBuffers(ed, true);
    DisplayMidway(ed, c, id);
    SameBufsMidway(ed, Layout(ed, c).0, id);
    OtherMidway(ed, id);
  }

  lemma MinibufferMidway(s: Session, c: Command, fault: Option<Fault>, id: BufferId)
    requires id in s.ed.bufs
    requires c.MinibufferInput? || c.MinibufferBackspace? || c.MinibufferAccept? || c.MinibufferAbort?
    ensures var r := Arm(s, c, fault); !r.raised ==> Midway(s.ed, r.session.ed, id, UserIssued(c) && Acts(r.events))
  {
    hide Accepted, Save, KeyDecision, AcceptDecision, SessionSpec.Drain, Decide, AdvanceExit, Midway;
    var pr, r := s.pr, Arm(s, c, fault);
    NothingMidway(s.ed, id);
    MidwayTurns(s.ed, s.ed, id, false, UserIssued(c) && Acts(r.events));
    if c.MinibufferInput? && pr.choice.None? && ExitPrompt(pr) {
      if pr.exitPending != [] {
        SaveMidway(s.ed, pr.exitPending[0].0, fault, id);
        MidwayTurns(s.ed, Save(s.ed, pr.exitPending[0].0, fault).0, id, false, UserIssued(c) && Acts(r.events));
      }
    } else if c.MinibufferAccept? && pr.choice.None? && !ExitPrompt(pr) && pr.input.Some? {
      var done := Accepted(s.ed, pr.kind, pr.input.value, fault);
      AcceptedSilently(s.ed, pr.kind, pr.input.value, fault);
      AcceptedMidway(s.ed, pr.kind, pr.input.value, fault, id);
      if done.1 != [] { assert r.events[0] == done.1[0]; }
      MidwayTurns(s.ed, done.0, id, done.1 != [], UserIssued(c) && Acts(r.events));
    }
  }

  lemma ArmMidway(s: Session, c: Command, fault: Option<Fault>, id: BufferId)
    requires SessionOk(s) && id in s.ed.bufs && Plain(c)
    ensures var r := Arm(s, c, fault); !r.raised ==> Midway(s.ed, r.session.ed, id, UserIssued(c) && Acts(r.events))
  {
    hide EditorOk, PromptsOk, PendingOk, Save, InputKey, Backspace, Accept, Abort, Layout, Prompting, Midway;
    var turns := UserIssued(c) && Acts(Arm(s, c, fault).events);
    NothingMidway(s.ed, id);
    MidwayTurns(s.ed, s.ed, id, false, turns);
    match c {
      case SaveBuffer =>
        SaveMidway(s.ed, s.ed.current, fault, id);
        MidwayTurns(s.ed, Save(s.ed, s.ed.current, fault).0, id, false, turns);
      case MinibufferInput(_) => MinibufferMidway(s, c, fault, id);
      case MinibufferBackspace => MinibufferMidway(s, c, fault, id);
      case MinibufferAccept => MinibufferMidway(s, c, fault, id);
      case MinibufferAbort => MinibufferMidway(s, c, fault, id);
      case DisplayBuffer(_) => LayoutTurns(s.ed, c, id, turns);
      case SplitWindow => LayoutTurns(s.ed, c, id, turns);
      case OtherWindow => LayoutTurns(s.ed, c, id, turns);
      case DeleteOtherWindows => LayoutTurns(s.ed, c, id, turns);
      case ResizeFrame(_, _) => LayoutTurns(s.ed, c, id, turns);
      case _ =>
    }
  }

  lemma LayoutTurns(ed: Editor, c: Command, id: BufferId, turns: bool)
    requires EditorOk(ed) && id in ed.bufs && (c.OtherWindow? ==> turns == Acts(Layout(ed, c).1))
    ensures Midway(ed, Layout(ed, c).0, id, turns)
  {
    hide EditorOk, Midway, Other, Split, Display;
    LayoutMidway(ed, c, id);
    OtherKeepsRing(ed);
    if c.OtherWindow? && Layout(ed, c).1 != [] { assert !Layout(ed, c).1[0].Message?; }
    MidwayTurns(ed, Layout(ed, c).0, id, c.OtherWindow? && Layout(ed, c).1 != [], turns);
  }

  lemma PlainPasses(s: Session, c: Command, fault: Option<Fault>, id: BufferId)
    requires SessionOk(s) && id in s.ed.bufs && Plain(c) && !(s.pr.input.Some? && !PassesGate(c))
    ensures var r := Step(s, c, fault); Passes(s.ed, r.session.ed, id, UserIssued(c) && Acts(r.events))
  {
    hide EditorOk, Arm, Settle, PromptsOk, PendingOk, Passes, Step, Midway, ChainsOk, UserIssued;
    NothingPasses(s.ed, id);
    assert !Acts([]);
    ArmSettles(s, c, fault);
    ArmMidway(s, c, fault, id);
    StepKeepsSessionOk(s, c, fault);
    var r := Arm(s, c, fault);
    if !r.raised {
      OkHasChains(Step(s, c, fault).session.ed);
      SettlePasses(s.ed, r.session.ed, c, r.events, id);
    }
  }

  /** Whatever is dispatched: unless its events say that the text of `id` changed, that
      buffer keeps its text and both sides of its history, and an undo in it turns
      round exactly if the dispatch is a user's and acts. */
  lemma StepPasses(s: Session, c: Command, fault: Option<Fault>, id: BufferId)
    requires SessionOk(s) && id in s.ed.bufs && !Rewrites(s.ed.current, Step(s, c, fault).events, id)
    ensures var r := Step(s, c, fault); Passes(s.ed, r.session.ed, id, UserIssued(c) && Acts(r.events))
  {
    hide Midway, ChainsOk, EditorOk, EditCurrent, Deliver, Mint, Arm, Settle, Rewrites, PromptsOk, PendingOk, Passes;
    NothingPasses(s.ed, id);
    if s.pr.input.Some? && !PassesGate(c) {
      assert !Acts([]);
    } else if c.Edit? {
      EditPasses(s.ed, c.edit, id);
    } else if c.DeliverSessionEffects? || c.InsertAgentText? {
      DeliverPasses(s, c, id);
    } else if c.CreateAgentBuffer? || c.CreateGeneratedBuffer? {
      MintPasses(s, c, id);
    } else {
      PlainPasses(s, c, fault, id);
    }
  }

  lemma OkHasChains(ed: Editor)
    requires EditorOk(ed)
    ensures ChainsOk(ed)
  {
  }

  // ---- Runs ----

  /** Some dispatch of the run changes the text of `id`. */
  predicate RunRewrites(s: Session, inputs: seq<Input>, id: BufferId)
    decreases |inputs|
  {
    inputs != [] &&
      (Rewrites(s.ed.current, StepInput(s, inputs[0]).events, id) || RunRewrites(StepInput(s, inputs[0]).session, inputs[1..], id))
  }

  /** Some dispatch of the run is a user's and does more than speak. */
  predicate RunActs(s: Session, inputs: seq<Input>)
    decreases |inputs|
  {
    inputs != [] &&
      ((UserIssued(inputs[0].command) && Acts(StepInput(s, inputs[0]).events)) || RunActs(StepInput(s, inputs[0]).session, inputs[1..]))
  }

  lemma PassesJoin(a: Editor, b: Editor, c: Editor, id: BufferId, first: bool, second: bool)
    requires Passes(a, b, id, first) && Passes(b, c, id, second)
    ensures Passes(a, c, id, first || second)
  {
  }

  lemma {:induction false} RunPasses(s: Session, inputs: seq<Input>, id: BufferId)
    requires SessionOk(s) && id in s.ed.bufs && !RunRewrites(s, inputs, id)
    ensures Passes(s.ed, Run(s, inputs).ed, id, RunActs(s, inputs))
    decreases |inputs|
  {
    hide Step, SessionOk, Passes, Rewrites, UserIssued, Acts;
    if inputs == [] {
      NothingPasses(s.ed, id);
    } else {
      var next := StepInput(s, inputs[0]).session;
      var turns := UserIssued(inputs[0].command) && Acts(StepInput(s, inputs[0]).events);
      StepPasses(s, inputs[0].command, inputs[0].fault, id);
      StepKeepsSessionOk(s, inputs[0].command, inputs[0].fault);
      PassedId(s.ed, next.ed, id, turns);
      RunPasses(next, inputs[1..], id);
      PassesJoin(s.ed, next.ed, Run(next, inputs[1..]).ed, id, turns, RunActs(next, inputs[1..]));
    }
  }

  lemma PassedId(ed: Editor, ed': Editor, id: BufferId, turns: bool)
    requires Passes(ed, ed', id, turns)
    ensures id in ed'.bufs
  {
  }

  // ---- The next undo ----

  function LocalOf(s: Session): Local { Local(Current(s.ed).value, Current(s.ed).st, s.ed.ring) }

  lemma EditIsLocal(s: Session, e: EditCommand)
    requires s.pr.input.None?
    ensures var r := Step(s, Edit(e), None); var l := EditStep(LocalOf(s), e);
      && LocalOf(r.session) == l.local && r.events == l.events && !r.raised
      && r.session.pr == s.pr && r.session.ed.current == s.ed.current
  {
    hide EditStep;
  }

  /** An undo that met the same text and the same groups as `back` left: it redoes if the
      chain was broken, and goes on descending if not. */
  lemma UndoResumes(l: Local, e: EditCommand, resumed: Local)
    requires LocalOk(l) && ChangesText(l, e)
    requires var back := EditStep(EditStep(l, e).local, Undo).local;
      resumed.value.text == back.value.text && resumed.st.history == back.st.history && resumed.st.redo == back.st.redo
    ensures var made := EditStep(l, e).local; var back := EditStep(made, Undo).local; var next := EditStep(resumed, Undo);
      && back.st.descending
      && (!resumed.st.descending ==> SameView(next.local.value, made.value) && |next.events| == 1 && next.events[0].TextRedone?)
      && (resumed.st.descending ==>
            && next.events == EditStep(back, Undo).events && next.local.value.text == EditStep(back, Undo).local.value.text
            && |next.events| == 1 && !next.events[0].TextRedone?)
  {
    hide EditStep, LocalOk, Explains, Undone, Redone, ChangesText;
    var g := GroupOnTop(l, e);
    var made := EditStep(l, e).local;
    UndoDescends(made);
    ExplainedRedo(l.value, made.value, made.st, resumed.value, resumed.st, g);
    var back := EditStep(made, Undo).local;
    assert back.st.redo == [g];
    if resumed.st.descending { SameDescent(back, resumed); } else { UndoAscends(resumed); UndoTells(resumed); }
  }

  /** Undoing and redoing a group gives back what the command had produced. */
  lemma ExplainedRedo(v: BufferValue, w: BufferValue, st: BufferState, u: BufferValue, st': BufferState, g: UndoGroup)
    requires Explains(v, w, g) && u.text == Undone(w, st, g).text
    ensures SameView(Redone(u, st', g), w)
  {
    UndoThenRedoText(w.text, g);
  }

  lemma UndoTells(l: Local)
    requires !l.st.descending && l.st.redo != []
    ensures |EditStep(l, Undo).events| == 1 && EditStep(l, Undo).events[0].TextRedone?
  {
  }

  lemma SameDescent(a: Local, b: Local)
    requires a.st.descending && b.st.descending && a.st.history == b.st.history && a.value.text == b.value.text
    ensures var x, y := EditStep(a, Undo), EditStep(b, Undo);
      x.events == y.events && x.local.value.text == y.local.value.text && |y.events| == 1 && !y.events[0].TextRedone?
  {
    hide Splice, MakeGroup, Acts;
  }

  /** A text-changing command, an undo, and then any dispatches at all, of the user or of
      the peers, that leave this buffer's text alone and end with it current and no
      prompt open: the next undo redoes what the command had produced exactly if one
      of them was a user's and acted; else it goes on back as if nothing had happened. */
  lemma NextUndoRedoes(s: Session, e: EditCommand, between: seq<Input>)
    requires SessionOk(s) && s.pr.input.None? && ChangesText(LocalOf(s), e)
    requires var back := Step(Step(s, Edit(e), None).session, Edit(Undo), None).session;
      && !RunRewrites(back, between, s.ed.current)
      && Run(back, between).ed.current == s.ed.current && Run(back, between).pr.input.None?
    ensures var made := Step(s, Edit(e), None).session;
      var back := Step(made, Edit(Undo), None).session;
      var next := Step(Run(back, between), Edit(Undo), None);
      var on := Step(back, Edit(Undo), None);
      && |next.events| == 1 && (next.events[0].TextRedone? <==> RunActs(back, between))
      && (RunActs(back, between) ==> SameView(Current(next.session.ed).value, Current(made.ed).value))
      && (!RunActs(back, between) ==>
            next.events == on.events && Current(next.session.ed).value.text == Current(on.session.ed).value.text)
  {
    hide Step, SessionOk, EditStep, LocalOk, ChangesText, RunRewrites, RunActs, Passes;
    var id := s.ed.current;
    var made := Step(s, Edit(e), None).session;
    var back := Step(made, Edit(Undo), None).session;
    var later := Run(back, between);
    EditIsLocal(s, e);
    EditIsLocal(made, Undo);
    EditIsLocal(back, Undo);
    EditIsLocal(later, Undo);
    StepKeepsSessionOk(s, Edit(e), None);
    StepKeepsSessionOk(made, Edit(Undo), None);
    OkLocal(s);
    OkLocal(back);
    RunPasses(back, between, id);
    PassedLocal(back, later, RunActs(back, between));
    UndoResumes(LocalOf(s), e, LocalOf(later));
  }

  lemma OkLocal(s: Session)
    requires SessionOk(s)
    ensures LocalOk(LocalOf(s)) && s.ed.current in s.ed.bufs
  {
    CurrentLocalOk(s.ed);
  }

  lemma PassedLocal(a: Session, b: Session, turns: bool)
    requires Passes(a.ed, b.ed, a.ed.current, turns) && b.ed.current == a.ed.current
    ensures var l, r := LocalOf(a), LocalOf(b);
      && r.value.text == l.value.text && r.st.history == l.st.history && r.st.redo == l.st.redo
      && (r.st.descending <==> l.st.descending && !turns)
  {
  }
}
