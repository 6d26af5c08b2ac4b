/** Leaving the editor: what is offered, what is asked, and when it ends. */
module ExitSequence {
  import opened Prelude
  import opened Buffers
  import opened Transcript
  import opened Events
  import opened Editing
  import opened SessionSpec
  import opened SessionInvariants
  import opened SessionRuns
  import opened PermissionQueue

  // ---- Safety ----

  lemma SettleKeepsValues(ed: Editor, c: Command, events: seq<Event>)
    requires ed.current in ed.bufs
    ensures var bufs := Settle(ed, c, events).bufs;
      bufs.Keys == ed.bufs.Keys && forall id :: id in ed.bufs ==> bufs[id].value == ed.bufs[id].value
  {
    hide Settle;
    SettleFrame(ed, c, events);
  }

  lemma SettleKeepsModified(ed: Editor, c: Command, events: seq<Event>)
    requires ed.current in ed.bufs
    ensures AnyModified(Settle(ed, c, events)) <==> AnyModified(ed)
  {
    hide Settle;
    SettleKeepsValues(ed, c, events);
    var bufs := Settle(ed, c, events).bufs;
    if AnyModified(ed) {
      var id :| id in ed.bufs && ed.bufs[id].value.modified;
      assert bufs[id].value.modified;
    }
  }

  predicate Exits(events: seq<Event>) { EditorExited in events }

  lemma DrainNeverExits(pr: Prompts)
    ensures !Exits(Drain(pr).1)
  {
  }

  lemma AcceptedNeverExits(ed: Editor, kind: Option<PromptKind>, text: string, fault: Option<Fault>)
    ensures !Exits(Accepted(ed, kind, text, fault).1)
  {
    hide FreshName, Basename, ResolveVisit, Visiting, ToFront;
  }

  lemma ExitKeyIsSafe(s: Session, key: string, fault: Option<Fault>)
    requires ExitPrompt(s.pr) && Exits(ExitKey(s, key, fault).1)
    ensures !AnyModified(ExitKey(s, key, fault).0.ed) || (key == "y" && s.pr.kind == Some(ExitAnywayKind))
  {
    hide Save;
    DrainNeverExits(ClosePrompt(s.pr));
    if s.pr.exitPending != [] { SaveNeverExits(s.ed, s.pr.exitPending[0].0, fault); }
  }

  lemma SaveNeverExits(ed: Editor, id: BufferId, fault: Option<Fault>)
    ensures !Exits(Save(ed, id, fault).1)
  {
  }

  lemma EditNeverExits(ed: Editor, e: EditCommand)
    ensures !Exits(EditCurrent(ed, e).1)
  {
    hide Bookkeep, Splice, Slice, SyncFocused;
  }

  lemma LayoutNeverExits(ed: Editor, c: Command)
    ensures !Exits(Layout(ed, c).1)
  {
    hide Arrive, Leave;
  }

  /** The run ends only when no buffer is modified or `y` answered the final question. */
  lemma ExitIsSafe(s: Session, c: Command, fault: Option<Fault>)
    requires SessionOk(s) && Exits(Step(s, c, fault).events)
    ensures var r := Step(s, c, fault);
      || !AnyModified(r.session.ed)
      || (c == MinibufferInput("y") && s.pr.kind == Some(ExitAnywayKind))
  {
    hide Core, Synced, EditCurrent, Save, Settle, ExitKey, KeyDecision, AcceptDecision, Accepted, Layout, Drain,
         Append, Create, AtRisk, Rendered, FoldAfter, AllRenderable, SettleOn, AnyModified, PendingOk;
    CoreHasCurrent(s.ed);
    EditNeverExitsAny(s.ed, c);
    SaveNeverExits(s.ed, s.ed.current, fault);
    LayoutNeverExits(s.ed, c);
    DrainNeverExits(s.pr.(choice := None, input := None, prompt := NoLabel));
    DrainNeverExits(ClosePrompt(s.pr));
    DrainNeverExits(ClosePrompt(s.pr.(exitPending := [])));
    if s.pr.input.Some? { AcceptedNeverExits(s.ed, s.pr.kind, s.pr.input.value, fault); }
    AppendNeverExits(s.ed, c);
    if c.MinibufferInput? && s.pr.choice.None? && ExitPrompt(s.pr) {
      ExitKeyIsSafe(s, c.key, fault);
      var mid := ExitKey(s, c.key, fault).0.ed;
      ExitKeyEditor(s, c.key, fault);
      CoreHasCurrent(mid);
      SettleKeepsModified(mid, c, ExitKey(s, c.key, fault).1);
    } else {
      SettleKeepsModified(s.ed, c, Step(s, c, fault).events);
    }
  }

  lemma EditNeverExitsAny(ed: Editor, c: Command)
    ensures c.Edit? ==> !Exits(EditCurrent(ed, c.edit).1)
  {
    if c.Edit? { EditNeverExits(ed, c.edit); }
  }

  lemma AppendNeverExits(ed: Editor, c: Command)
    ensures forall at: Editor, id, text :: !Exits(Append(at, id, text).1)
    ensures forall at: Editor, name, b :: !Exits(Create(at, name, b).2)
  {
    hide FreshName;
  }

  // ---- What an exit leaves behind ----

  lemma ExitKeyLeaves(s: Session, key: string, fault: Option<Fault>)
    requires Exits(ExitKey(s, key, fault).1)
    ensures var pr := ExitKey(s, key, fault).0.pr; pr.input.None? && pr.queue == s.pr.queue
  {
    hide Save, AnyModified;
    DrainNeverExits(ClosePrompt(s.pr));
    if s.pr.exitPending != [] { SaveNeverExits(s.ed, s.pr.exitPending[0].0, fault); }
  }

  /** Exiting closes the prompt and presents nothing more. */
  lemma ExitLeaves(s: Session, c: Command, fault: Option<Fault>)
    requires Exits(Step(s, c, fault).events)
    ensures var pr := Step(s, c, fault).session.pr; pr.input.None? && pr.queue == s.pr.queue
  {
    hide EditCurrent, Save, Settle, ExitKey, KeyDecision, AcceptDecision, Accepted, Layout, Drain, Append, Create, AtRisk, Rendered,
         FoldAfter, AllRenderable, SettleOn, AnyModified;
    EditNeverExitsAny(s.ed, c);
    SaveNeverExits(s.ed, s.ed.current, fault);
    LayoutNeverExits(s.ed, c);
    DrainNeverExits(s.pr.(choice := None, input := None, prompt := NoLabel));
    DrainNeverExits(ClosePrompt(s.pr));
    DrainNeverExits(ClosePrompt(s.pr.(exitPending := [])));
    if s.pr.input.Some? { AcceptedNeverExits(s.ed, s.pr.kind, s.pr.input.value, fault); }
    AppendNeverExits(s.ed, c);
    if c.MinibufferInput? && s.pr.choice.None? && ExitPrompt(s.pr) { ExitKeyLeaves(s, c.key, fault); }
  }

  /** A request is left waiting with no prompt in front of it exactly by an exit that
      found requests queued. */
  lemma ExitStrandsExactly(s: Session, c: Command, fault: Option<Fault>)
    requires SessionOk(s) && Waiting(s.pr)
    ensures var r := Step(s, c, fault); !Waiting(r.session.pr) <==> Exits(r.events) && s.pr.queue != []
  {
    hide Step, EditorOk, PendingOk;
    if Exits(Step(s, c, fault).events) { ExitLeaves(s, c, fault); }
    else if c.AbortPendingPermissions? { AbortClears(s, fault); }
    else { StepAccounts(s, c, fault); }
  }

  /** `y` at the final gate is such an exit: the editor is gone and the queue is not presented. */
  lemma GateStrandsTheQueue(s: Session, fault: Option<Fault>)
    requires SessionOk(s) && Waiting(s.pr) && s.pr.kind == Some(ExitAnywayKind) && s.pr.queue != []
    ensures var r := Step(s, MinibufferInput("y"), fault);
      r.events == [EditorExited] && r.session.pr == ClosePrompt(s.pr) && !Waiting(r.session.pr)
  {
    hide Settle, EditorOk;
  }

  // ---- Every answer makes progress, nothing else does anything ----

  /** Questions that can still be asked. */
  function QuestionsLeft(pr: Prompts): nat {
    if pr.kind == Some(SaveKind) then |pr.exitPending| + 1
    else if pr.kind == Some(ExitAnywayKind) then 1
    else 0
  }

  predicate IsAnswer(c: Command) { c == MinibufferInput("y") || c == MinibufferInput("n") }

  predicate IsKey(c: Command) {
    c.MinibufferInput? || c.MinibufferBackspace? || c.MinibufferAccept?
  }

  lemma AnswersDecrease(s: Session, c: Command, fault: Option<Fault>)
    requires PromptsOk(s.pr) && ExitPrompt(s.pr) && IsAnswer(c)
    ensures QuestionsLeft(Step(s, c, fault).session.pr) < QuestionsLeft(s.pr)
  {
    hide Save, Settle, AnyModified;
  }

  lemma NothingSettles(s: Session, c: Command)
    requires SessionOk(s)
    ensures Settle(s.ed, c, [Message(AnswerYesOrNo)]) == s.ed
  {
    hide Core;
    assert !Acts([Message(AnswerYesOrNo)]);
    assert SyncFocused(s.ed).windows == s.ed.windows;
  }

  /** RET, DEL and every other key say so and change nothing at all. */
  lemma OtherKeysDoNothing(s: Session, c: Command, fault: Option<Fault>)
    requires SessionOk(s) && ExitPrompt(s.pr) && IsKey(c) && !IsAnswer(c)
    ensures Step(s, c, fault) == Outcome(s, [Message(AnswerYesOrNo)], false)
  {
    hide Core, Settle, Step;
    ArmSettles(s, c, fault);
    NothingSettles(s, c);
  }

  /** Answering `y` or `n` often enough always ends the questions. */
  lemma {:induction false} AnswersEndTheExit(s: Session, keys: seq<Input>)
    requires SessionOk(s) && ExitPrompt(s.pr)
    requires forall i :: 0 <= i < |keys| ==> IsAnswer(keys[i].command)
    requires |keys| >= QuestionsLeft(s.pr)
    ensures exists k :: 0 < k <= QuestionsLeft(s.pr) && !ExitPrompt(Run(s, keys[..k]).pr)
    decreases |keys|
  {
    hide Step, SessionOk;
    assert PromptsOk(s.pr) by { OkPrompts(s); }
    AnswersDecrease(s, keys[0].command, keys[0].fault);
    StepKeepsSessionOk(s, keys[0].command, keys[0].fault);
    var next := StepInput(s, keys[0]).session;
    if ExitPrompt(next.pr) {
      AnswersEndTheExit(next, keys[1..]);
      var k :| 0 < k <= QuestionsLeft(next.pr) && !ExitPrompt(Run(next, keys[1..][..k]).pr);
      assert keys[..k + 1][1..] == keys[1..][..k];
      assert !ExitPrompt(Run(s, keys[..k + 1]).pr);
    } else {
      assert keys[..1][1..] == [];
      assert !ExitPrompt(Run(s, keys[..1]).pr);
    }
  }

  lemma OkPrompts(s: Session)
    requires SessionOk(s)
    ensures PromptsOk(s.pr)
  {
  }

  // ---- Offers ----

  function Paths(pending: seq<(BufferId, string)>): seq<string>
    decreases |pending|
  {
    if pending == [] then [] else [pending[0].1] + Paths(pending[1..])
  }

  /** The paths offered by the prompts that opened. */
  function Offers(events: seq<Event>): seq<string>
    decreases |events|
  {
    if events == [] then []
    else
      (if events[0].MinibufferOpened? && events[0].prompt.SaveOffer? then [events[0].prompt.path] else [])
      + Offers(events[1..])
  }

  lemma {:induction false} OffersConcatenate(a: seq<Event>, b: seq<Event>)
    ensures Offers(a + b) == Offers(a) + Offers(b)
    decreases |a|
  {
    if a == [] {
      assert a + b == b;
    } else {
      assert (a + b)[0] == a[0] && (a + b)[1..] == a[1..] + b;
      OffersConcatenate(a[1..], b);
    }
  }

  /** What the sequence has still to offer after the question on screen. */
  function Remaining(pr: Prompts): seq<string> {
    if pr.exitPending == [] then [] else Paths(pr.exitPending[1..])
  }

  lemma AdvanceOffers(ed: Editor, pr: Prompts)
    ensures var r := AdvanceExit(ed, pr);
      Offers(r.1) + Remaining(r.0) == Paths(pr.exitPending)
  {
    hide AnyModified;
    var r := AdvanceExit(ed, pr);
    assert r.1 == [r.1[0]] && r.1[1..] == [];
    assert Offers(r.1[1..]) == [];
  }

  lemma OneEventOffers(e: Event)
    ensures Offers([e]) == if e.MinibufferOpened? && e.prompt.SaveOffer? then [e.prompt.path] else []
  {
    assert [e][1..] == [];
  }

  lemma DrainOffersNothing(pr: Prompts)
    ensures Offers(Drain(pr).1) == [] && Drain(pr).0.exitPending == pr.exitPending
  {
    if pr.queue != [] { OneEventOffers(Drain(pr).1[0]); }
  }

  lemma ExitKeyOffers(s: Session, key: string, fault: Option<Fault>)
    requires PromptsOk(s.pr) && ExitPrompt(s.pr)
    ensures var r := ExitKey(s, key, fault);
      Offers(r.1) + Remaining(r.0.pr) == Remaining(s.pr)
  {
    hide AdvanceExit, Save, Drain;
    var r := ExitKey(s, key, fault);
    if key != "y" && key != "n" {
      OneEventOffers(Message(AnswerYesOrNo));
    } else if s.pr.kind == Some(ExitAnywayKind) {
      DrainOffersNothing(ClosePrompt(s.pr));
      OneEventOffers(EditorExited);
      OneEventOffers(ExitRefused);
      if key == "n" { OffersConcatenate([ExitRefused], Drain(ClosePrompt(s.pr)).1); }
    } else {
      var id := s.pr.exitPending[0].0;
      var saved := if key == "y" then Save(s.ed, id, fault) else (s.ed, [SaveDeclined(id)]);
      SaveOffersNothing(s.ed, id, fault);
      OneEventOffers(SaveDeclined(id));
      AdvanceOffers(saved.0, ClosePrompt(s.pr.(exitPending := s.pr.exitPending[1..])));
      OffersConcatenate(saved.1, AdvanceExit(saved.0, ClosePrompt(s.pr.(exitPending := s.pr.exitPending[1..]))).1);
    }
  }

  lemma SaveOffersNothing(ed: Editor, id: BufferId, fault: Option<Fault>)
    ensures Offers(Save(ed, id, fault).1) == []
  {
    OneEventOffers(Save(ed, id, fault).1[0]);
  }

  /** While the exit is under way, only answers move it, one offer at a time. */
  lemma StepOffers(s: Session, c: Command, fault: Option<Fault>)
    requires SessionOk(s) && ExitPrompt(s.pr) && !c.MinibufferAbort?
    ensures var r := Step(s, c, fault);
      Offers(r.events) + Remaining(r.session.pr) == Remaining(s.pr)
  {
    hide EditorOk, EditCurrent, Save, Settle, ExitKey, Append, Create, Rendered, FoldAfter, AllRenderable, SettleOn,
         Split, Leave, Arrive, ToFront, PendingOk, AtRisk, AnyModified;
    var r := Step(s, c, fault);
    if c.MinibufferInput? {
      ExitKeyOffers(s, c.key, fault);
    } else if IsKey(c) {
      OneEventOffers(Message(AnswerYesOrNo));
    } else if PassesGate(c) {
      PeerOffersNothing(s, c, fault);
    }
  }

  lemma {:induction false} NoOffers(events: seq<Event>)
    requires forall i :: 0 <= i < |events| ==> !events[i].MinibufferOpened?
    ensures Offers(events) == []
    decreases |events|
  {
    if events != [] {
      assert !events[0].MinibufferOpened?;
      NoOffers(events[1..]);
    }
  }

  lemma PeerOffersNothing(s: Session, c: Command, fault: Option<Fault>)
    requires PromptsOk(s.pr) && s.pr.input.Some? && s.pr.choice.None? && !UserIssued(c)
    ensures Offers(Step(s, c, fault).events) == [] && Step(s, c, fault).session.pr.exitPending == s.pr.exitPending
  {
    hide Settle, Rendered, FoldAfter, AllRenderable, SettleOn, FreshName, Put;
    NoOffers(Step(s, c, fault).events);
  }

  /** Every state before the end of the run is at an exit question, and the user
      never aborts. */
  ghost predicate Exiting(s: Session, inputs: seq<Input>)
    decreases |inputs|
  {
    inputs != [] ==>
      ExitPrompt(s.pr) && !inputs[0].command.MinibufferAbort? && Exiting(StepInput(s, inputs[0]).session, inputs[1..])
  }

  lemma {:induction false} RunOffers(s: Session, inputs: seq<Input>)
    requires SessionOk(s) && Exiting(s, inputs)
    ensures Offers(Recorded(s, inputs)) + Remaining(Run(s, inputs).pr) == Remaining(s.pr)
    decreases |inputs|
  {
    hide Step, SessionOk, Remaining, Offers;
    if inputs == [] {
      OffersOfNothing();
    } else {
      var r := StepInput(s, inputs[0]);
      StepKeepsSessionOk(s, inputs[0].command, inputs[0].fault);
      StepOffers(s, inputs[0].command, inputs[0].fault);
      RunOffers(r.session, inputs[1..]);
      OffersConcatenate(r.events, Recorded(r.session, inputs[1..]));
    }
  }

  lemma OffersOfNothing()
    ensures Offers([]) == []
  {
  }

  /** From `C-x C-c` on, whatever is answered, whatever fails to save and
      whatever the agent does meanwhile, the buffers that were modified and visit
      a file are offered in creation order, none twice, none left out before the end. */
  lemma {:induction false} OffersFollowRisk(s: Session, fault: Option<Fault>, inputs: seq<Input>)
    requires SessionOk(s) && s.pr.input.None?
    requires Exiting(Step(s, ExitEditor, fault).session, inputs)
    ensures var run := [Input(ExitEditor, fault)] + inputs;
      Offers(Recorded(s, run)) + Remaining(Run(s, run).pr) == Paths(AtRisk(s.ed, s.ed.order))
  {
    hide Settle, SessionOk, AnyModified, AtRisk, Remaining, Offers, AdvanceExit;
    var run := [Input(ExitEditor, fault)] + inputs;
    var first := Step(s, ExitEditor, fault);
    assert run[1..] == inputs && run[0] == Input(ExitEditor, fault);
    AdvanceOffers(s.ed, s.pr.(exitPending := AtRisk(s.ed, s.ed.order)));
    StepKeepsSessionOk(s, ExitEditor, fault);
    RunOffers(first.session, inputs);
    OffersConcatenate(first.events, Recorded(first.session, inputs));
  }

  /** Who is at risk: exactly the modified buffers that visit a file. */
  lemma {:induction false} AtRiskIsExact(ed: Editor, order: seq<BufferId>)
    ensures forall id, path :: (id, path) in AtRisk(ed, order) <==>
              id in order && BufOf(ed, id).value.modified && BufOf(ed, id).value.filePath == Some(path)
  {
    if order != [] {
      AtRiskIsExact(ed, order[1..]);
    }
  }

  lemma {:induction false} OfferedOnce(ed: Editor, order: seq<BufferId>)
    requires PathsOk(ed) && NoDuplicates(order) && forall i :: 0 <= i < |order| ==> order[i] in ed.bufs
    ensures NoDuplicates(Paths(AtRisk(ed, order)))
    ensures forall p :: p in Paths(AtRisk(ed, order)) ==>
              exists i :: 0 <= i < |order| && ed.bufs[order[i]].value.filePath == Some(p)
  {
    if order != [] {
      OfferedOnce(ed, order[1..]);
      var rest := AtRisk(ed, order[1..]);
      var v := ed.bufs[order[0]].value;
      if v.modified && v.filePath.Some? {
        assert AtRisk(ed, order) == [(order[0], v.filePath.value)] + rest;
        assert AtRisk(ed, order)[1..] == rest;
        assert v.filePath.value !in Paths(rest);
      } else {
        assert AtRisk(ed, order) == rest;
      }
      forall p | p in Paths(AtRisk(ed, order))
        ensures exists i :: 0 <= i < |order| && ed.bufs[order[i]].value.filePath == Some(p)
      {
        if p in Paths(rest) {
          var i :| 0 <= i < |order[1..]| && ed.bufs[order[1..][i]].value.filePath == Some(p);
          assert order[i + 1] == order[1..][i];
        } else {
          assert ed.bufs[order[0]].value.filePath == Some(p);
        }
      }
    }
  }
}
