/** The kill-append chain, recovered from the record of a run alone. */
module KillChain {
  import opened Prelude
  import opened Buffers
  import opened Transcript
  import opened Events
  import opened Editing
  import opened EditingInvariants
  import opened SessionSpec
  import opened SessionInvariants
  import opened SessionRuns
  import opened Genesis

  /** The texts killed since the chain opened, or none when no chain is open.
      Only a kill extends it and only a user's acting command closes it. */
  function ChainAfter(chain: Option<string>, c: Command, events: seq<Event>): Option<string> {
    if c == Edit(KillLine) then
      if |events| == 1 && events[0].TextKilled?
      then Some((if chain.Some? then chain.value else "") + events[0].text)
      else chain
    else if UserIssued(c) && Acts(events) then None
    else chain
  }

  function ChainOfRun(s: Session, chain: Option<string>, inputs: seq<Input>): Option<string>
    decreases |inputs|
  {
    if inputs == [] then chain
    else
      var r := StepInput(s, inputs[0]);
      ChainOfRun(r.session, ChainAfter(chain, inputs[0].command, r.events), inputs[1..])
  }

  /** The flag says whether a chain is open, and the newest ring entry is its text. */
  ghost predicate ChainHeld(ed: Editor, chain: Option<string>) {
    && (Current(ed).st.lastWasKill <==> chain.Some?)
    && (chain.Some? ==> ed.ring != [] && ed.ring[0] == chain.value)
  }

  lemma CurrentLocalOk(ed: Editor)
    requires EditorOk(ed)
    ensures LocalOk(Local(Current(ed).value, Current(ed).st, ed.ring)) && ed.current in ed.bufs
  {
    assert BufOk(ed.bufs[ed.current]);
  }

  lemma EditHoldsChain(ed: Editor, e: EditCommand, chain: Option<string>)
    requires EditorOk(ed) && ChainHeld(ed, chain)
    ensures var r := EditCurrent(ed, e); ChainHeld(r.0, ChainAfter(chain, Edit(e), r.1))
  {
    hide BufOk, PathsOk, WindowsOk, NamesOk, LocalOk, EditStep;
    var l := Local(Current(ed).value, Current(ed).st, ed.ring);
    CurrentLocalOk(ed);
    if e.KillLine? { KillExtends(l, chain); } else { OthersClose(l, e); }
  }

  lemma KillExtends(l: Local, chain: Option<string>)
    requires LocalOk(l)
    requires l.st.lastWasKill <==> chain.Some?
    requires chain.Some? ==> l.ring[0] == chain.value
    ensures var r := EditStep(l, KillLine); var after := ChainAfter(chain, Edit(KillLine), r.events);
      && (r.local.st.lastWasKill <==> after.Some?)
      && (after.Some? ==> r.local.ring != [] && r.local.ring[0] == after.value)
  {
    hide YankChain, MakeGroup, UndoChain, RedoChain, Splice;
    EditEvents(l, KillLine);
  }

  lemma OthersClose(l: Local, e: EditCommand)
    requires LocalOk(l) && !e.KillLine?
    ensures var r := EditStep(l, e);
      && r.local.st.lastWasKill == (l.st.lastWasKill && !Acts(r.events))
      && (!Acts(r.events) ==> r.local.ring == l.ring)
  {
    hide LocalOk, Splice, MakeGroup, Slice;
    EditEvents(l, e);
  }

  /** Outside edits, a dispatch leaves the ring alone; unless it intervenes it
      leaves the current buffer and its kill flag alone as well. */
  ghost predicate KeepsChain(ed: Editor, ed': Editor, closes: bool) {
    && ed'.ring == ed.ring
    && (closes ==> !Current(ed').st.lastWasKill)
    && (!closes ==> Current(ed').st.lastWasKill == Current(ed).st.lastWasKill)
  }

  lemma SettleCloses(ed: Editor, mid: Editor, c: Command, events: seq<Event>)
    requires mid.ring == ed.ring
    requires !(UserIssued(c) && Acts(events)) ==> Current(mid).st.lastWasKill == Current(ed).st.lastWasKill
    ensures KeepsChain(ed, Settle(mid, c, events), UserIssued(c) && Acts(events))
  {
    hide Settle, Acts, UserIssued;
    SettleFrame(mid, c, events);
  }

  lemma SelectKeepsRing(ed: Editor, id: BufferId)
    ensures Select(ed, id).0.ring == ed.ring && (Select(ed, id).1 == [] ==> Select(ed, id).0 == ed)
  {
    hide Select;
    SelectFrame(ed, id);
  }

  lemma CreateKeepsRing(ed: Editor, name: string, b: Buf)
    ensures Create(ed, name, b).0.ring == ed.ring && |Create(ed, name, b).2| == 1 && Create(ed, name, b).2[0].BufferCreated?
  {
  }

  /** Accepting a text prompt without recording anything does nothing. */
  lemma AcceptedSilently(ed: Editor, kind: Option<PromptKind>, text: string, fault: Option<Fault>)
    ensures var r := Accepted(ed, kind, text, fault);
      r.0.ring == ed.ring && (r.1 == [] ==> r.0 == ed) && (r.1 != [] ==> !r.1[0].Message?)
  {
    hide Select, Create, Basename, ResolveVisit, Visiting;
    var name := if text != "" then text else if |ed.mru| > 1 then ed.mru[1] else "";
    SelectKeepsRing(ed, name);
    SelectEvents(ed, name);
    CreateKeepsRing(ed, name, BLANK);
    SelectKeepsRing(Create(ed, name, BLANK).0, Create(ed, name, BLANK).1);
    match Visiting(ed, ed.order, text)
    case Some(id) => SelectKeepsRing(ed, id); SelectEvents(ed, id);
    case None =>
      var v := ResolveVisit(ed.disk, text, fault);
      if v.VisitOpened? {
        var b := VisitedBuf(text, v);
        CreateKeepsRing(ed, Basename(text), b);
        SelectKeepsRing(Create(ed, Basename(text), b).0, Create(ed, Basename(text), b).1);
      }
  }

  lemma SelectEvents(ed: Editor, id: BufferId)
    ensures Select(ed, id).1 == [] || Select(ed, id).1 == [BufferSelected(id)]
  {
    hide Select;
    SelectFrame(ed, id);
  }

  lemma SaveKeepsRing(ed: Editor, id: BufferId, fault: Option<Fault>)
    ensures var r := Save(ed, id, fault);
      r.0.ring == ed.ring && |r.1| == 1 && !r.1[0].Message?
      && Current(r.0).st.lastWasKill == Current(ed).st.lastWasKill
  {
  }

  lemma MinibufferKeepsChain(s: Session, c: Command, fault: Option<Fault>)
    requires SessionOk(s)
    requires c.MinibufferInput? || c.MinibufferBackspace? || c.MinibufferAccept? || c.MinibufferAbort?
    ensures var r := Step(s, c, fault);
      KeepsChain(s.ed, r.session.ed, UserIssued(c) && Acts(r.events))
  {
    hide PromptsOk, EditorOk, Accepted, Save, Settle, KeyDecision, AcceptDecision, Drain, Decide, AdvanceExit, PendingOk, KeepsChain, Step;
    ArmSettles(s, c, fault);
    var pr, r := s.pr, Arm(s, c, fault);
    if c.MinibufferInput? && pr.choice.None? && ExitPrompt(pr) {
      if pr.exitPending != [] { SaveKeepsRing(s.ed, pr.exitPending[0].0, fault); }
      SettleCloses(s.ed, ExitKey(s, c.key, fault).0.ed, c, r.events);
    } else if c.MinibufferAccept? && pr.choice.None? && !ExitPrompt(pr) && pr.input.Some? {
      var done := Accepted(s.ed, pr.kind, pr.input.value, fault);
      AcceptedSilently(s.ed, pr.kind, pr.input.value, fault);
      if done.1 != [] { assert r.events[0] == done.1[0]; }
      SettleCloses(s.ed, done.0, c, r.events);
    } else {
      SettleCloses(s.ed, s.ed, c, r.events);
      NothingKeepsChain(s.ed);
    }
  }

  lemma NothingKeepsChain(ed: Editor)
    ensures KeepsChain(ed, ed, false)
  {
  }

  lemma LayoutKeepsChain(s: Session, c: Command, fault: Option<Fault>)
    requires SessionOk(s)
    requires c.DisplayBuffer? || c.SplitWindow? || c.OtherWindow? || c.DeleteOtherWindows? || c.ResizeFrame?
    ensures var r := Step(s, c, fault);
      KeepsChain(s.ed, r.session.ed, UserIssued(c) && Acts(r.events))
  {
    hide EditorOk, Settle, Split, Other, PromptsOk, KeepsChain, Step;
    NothingKeepsChain(s.ed);
    SplitKeepsBuffers(s.ed, true);
    SplitKeepsBuffers(s.ed, false);
    OtherKeepsRing(s.ed);
    var l := Layout(s.ed, c);
    if s.pr.input.Some? && !PassesGate(c) {
      GatedKeepsChain(s, c, fault);
    } else {
      ArmSettles(s, c, fault);
      if !(c.DisplayBuffer? && c.target !in s.ed.bufs) { SettleCloses(s.ed, l.0, c, l.1); }
    }
  }

  lemma GatedKeepsChain(s: Session, c: Command, fault: Option<Fault>)
    requires s.pr.input.Some? && !PassesGate(c)
    ensures var r := Step(s, c, fault); KeepsChain(s.ed, r.session.ed, UserIssued(c) && Acts(r.events))
  {
    NothingKeepsChain(s.ed);
  }

  lemma SplitKeepsBuffers(ed: Editor, speak: bool)
    ensures var r := Split(ed, speak).0; r.ring == ed.ring && r.bufs == ed.bufs && r.current == ed.current
  {
  }

  lemma OtherKeepsRing(ed: Editor)
    ensures Other(ed).0.ring == ed.ring
    ensures Other(ed).1 != [] ==> !Other(ed).1[0].Message?
    ensures Other(ed).1 == [] ==> Other(ed).0 == ed
  {
    hide ToFront, Clamp, BreakChains;
  }

  lemma AppendKeepsChain(ed: Editor, id: BufferId, text: string)
    ensures KeepsChain(ed, SettleOn(Append(ed, id, text).0, id), false)
  {
    hide Append, SettleOn;
    AppendFrame(ed, id, text);
    SettleOnFrame(Append(ed, id, text).0, id);
  }

  lemma DeliverKeepsChain(s: Session, c: Command)
    requires c.DeliverSessionEffects? || c.InsertAgentText?
    ensures KeepsChain(s.ed, Deliver(s, c).session.ed, false)
  {
    hide Rendered, FoldAfter, AllRenderable, Append, SettleOn;
    var ed := s.ed;
    if DeliveryTarget(ed, c.target) {
      if c.InsertAgentText? {
        AppendKeepsChain(ed, c.target, c.agentText);
      } else {
        AppendKeepsChain(ed.(folds := ed.folds[c.target := FoldAfter(ed.wording, FoldOf(ed, c.target), c.effects)]),
                         c.target, Rendered(ed.wording, FoldOf(ed, c.target), c.effects));
      }
    }
  }

  lemma MintKeepsChain(s: Session, c: Command)
    requires s.ed.current in s.ed.bufs && (c.CreateAgentBuffer? || c.CreateGeneratedBuffer?)
    ensures KeepsChain(s.ed, Mint(s, c).session.ed, false)
  {
    hide FreshName;
    FreshNameIsFresh(AGENT_NAME, s.ed.bufs.Keys);
    if c.CreateGeneratedBuffer? { FreshNameIsFresh(c.name, s.ed.bufs.Keys); }
  }

  /** No dispatch but an edit touches the chain, and it closes only as the
      record says. */
  lemma StepKeepsChain(s: Session, c: Command, fault: Option<Fault>)
    requires SessionOk(s) && !c.Edit?
    ensures var r := Step(s, c, fault);
      KeepsChain(s.ed, r.session.ed, UserIssued(c) && Acts(r.events))
  {
    hide EditorOk, Save, Deliver, Mint, InputKey, Backspace, Accept, Abort, Layout, Prompting, Settle, KeepsChain;
    NothingKeepsChain(s.ed);
    if !(s.pr.input.Some? && !PassesGate(c)) {
      match c {
        case SaveBuffer =>
          SaveKeepsRing(s.ed, s.ed.current, fault);
          SettleCloses(s.ed, Save(s.ed, s.ed.current, fault).0, c, Save(s.ed, s.ed.current, fault).1);
        case DeliverSessionEffects(_, _) => DeliverKeepsChain(s, c);
        case InsertAgentText(_, _) => DeliverKeepsChain(s, c);
        case CreateAgentBuffer(_) => OkHasCurrent(s.ed); MintKeepsChain(s, c);
        case CreateGeneratedBuffer(_) => OkHasCurrent(s.ed); MintKeepsChain(s, c);
        case MinibufferInput(_) => MinibufferKeepsChain(s, c, fault);
        case MinibufferBackspace => MinibufferKeepsChain(s, c, fault);
        case MinibufferAccept => MinibufferKeepsChain(s, c, fault);
        case MinibufferAbort => MinibufferKeepsChain(s, c, fault);
        case DisplayBuffer(_) => LayoutKeepsChain(s, c, fault);
        case SplitWindow => LayoutKeepsChain(s, c, fault);
        case OtherWindow => LayoutKeepsChain(s, c, fault);
        case DeleteOtherWindows => LayoutKeepsChain(s, c, fault);
        case ResizeFrame(_, _) => LayoutKeepsChain(s, c, fault);
        case DeliverProcessOutput => SettleCloses(s.ed, s.ed, c, [ProcessOutputRecorded]);
        case _ => SettleCloses(s.ed, s.ed, c, Prompting(s.ed, s.pr, c).1);
      }
    }
  }

  lemma OkHasCurrent(ed: Editor)
    requires EditorOk(ed)
    ensures ed.current in ed.bufs
  {
  }

  lemma StepHoldsChain(s: Session, c: Command, fault: Option<Fault>, chain: Option<string>)
    requires SessionOk(s) && ChainHeld(s.ed, chain)
    ensures var r := Step(s, c, fault); ChainHeld(r.session.ed, ChainAfter(chain, c, r.events))
  {
    hide EditorOk, EditCurrent;
    if c.Edit? {
      if s.pr.input.None? { EditHoldsChain(s.ed, c.edit, chain); }
    } else {
      hide Step;
      StepKeepsChain(s, c, fault);
    }
  }

  lemma {:induction false} RunHoldsChain(s: Session, chain: Option<string>, inputs: seq<Input>)
    requires SessionOk(s) && ChainHeld(s.ed, chain)
    ensures ChainHeld(Run(s, inputs).ed, ChainOfRun(s, chain, inputs))
    decreases |inputs|
  {
    hide Step, SessionOk, ChainHeld, ChainAfter;
    if inputs != [] {
      var c := inputs[0].command;
      StepKeepsSessionOk(s, c, inputs[0].fault);
      StepHoldsChain(s, c, inputs[0].fault, chain);
      var r := StepInput(s, inputs[0]);
      RunHoldsChain(r.session, ChainAfter(chain, c, r.events), inputs[1..]);
    }
  }

  /** Over every run the newest ring entry of an open chain is the concatenation
      of exactly the texts the record says were killed since it opened, the ring
      is bounded and free of empty entries, and no other buffer has a chain. */
  lemma {:induction false} RingFollowsTheRecord(g: InitialBuffer, frame: Option<(nat, nat)>, w: Wording,
                                                disk: map<string, string>, inputs: seq<Input>)
    requires ValidGenesis(g)
    ensures var start := InitialSession(g, frame, w, disk); var ed := Run(start, inputs).ed;
      var chain := ChainOfRun(start, None, inputs);
      && (Current(ed).st.lastWasKill <==> chain.Some?)
      && (chain.Some? ==> ed.ring != [] && ed.ring[0] == chain.value)
      && |ed.ring| <= KILL_RING_CAPACITY && "" !in ed.ring
      && (forall id :: id in ed.bufs && id != ed.current ==> Unchained(ed.bufs[id].st))
  {
    hide Run, ChainOfRun, BufsOk, NoDuplicates;
    var start := InitialSession(g, frame, w, disk);
    GenesisStartsOk(g, frame, w, disk);
    RunKeepsSessionOk(start, inputs);
    RunHoldsChain(start, None, inputs);
  }
}
