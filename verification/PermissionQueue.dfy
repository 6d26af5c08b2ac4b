/** Permission requests: presented in order, decided once each. */
module PermissionQueue {
  import opened Prelude
  import opened Acp
  import opened Transcript
  import opened Events
  import opened Editing
  import opened SessionSpec
  import opened SessionInvariants
  import opened SessionRuns

  function Ids(queue: seq<Permission>): seq<RequestId>
    decreases |queue|
  {
    if queue == [] then [] else [queue[0].id] + Ids(queue[1..])
  }

  /** The request on screen, then those waiting behind it. */
  function Outstanding(pr: Prompts): seq<RequestId> {
    (if pr.choice.Some? then [pr.choice.value.id] else []) + Ids(pr.queue)
  }

  /** A waiting request implies an open prompt. */
  predicate Waiting(pr: Prompts) { pr.queue != [] ==> pr.input.Some? }

  function Decided(events: seq<Event>): seq<RequestId>
    decreases |events|
  {
    if events == [] then []
    else (if events[0].PermissionDecided? then [events[0].id] else []) + Decided(events[1..])
  }

  function Arrivals(c: Command): seq<RequestId> {
    if c.PromptPermission? then [c.request.id] else []
  }

  lemma {:induction false} DecidedConcatenates(a: seq<Event>, b: seq<Event>)
    ensures Decided(a + b) == Decided(a) + Decided(b)
    decreases |a|
  {
    if a == [] {
      assert a + b == b;
    } else {
      assert (a + b)[0] == a[0] && (a + b)[1..] == a[1..] + b;
      DecidedConcatenates(a[1..], b);
    }
  }

  lemma {:induction false} NothingDecided(events: seq<Event>)
    requires forall i :: 0 <= i < |events| ==> !events[i].PermissionDecided?
    ensures Decided(events) == []
    decreases |events|
  {
    if events != [] {
      assert !events[0].PermissionDecided?;
      NothingDecided(events[1..]);
    }
  }

  lemma {:induction false} IdsConcatenate(a: seq<Permission>, b: seq<Permission>)
    ensures Ids(a + b) == Ids(a) + Ids(b)
    decreases |a|
  {
    if a == [] {
      assert a + b == b;
    } else {
      assert (a + b)[0] == a[0] && (a + b)[1..] == a[1..] + b;
      IdsConcatenate(a[1..], b);
    }
  }

  /** Draining moves the head of the queue onto the screen. */
  lemma DrainKeepsOutstanding(pr: Prompts)
    requires pr.choice.None? && pr.input.None?
    ensures var r := Drain(pr);
      Outstanding(r.0) == Ids(pr.queue) && Decided(r.1) == [] && Waiting(r.0)
  {
    NothingDecided(Drain(pr).1);
  }

  lemma DecideTakesTheHead(pr: Prompts, d: Decision)
    requires pr.choice.Some?
    ensures var r := Decide(pr, pr.choice.value, d);
      Decided(r.1) == [pr.choice.value.id] && Outstanding(r.0) == Ids(pr.queue) && Waiting(r.0)
  {
    hide Drain;
    var closed := pr.(choice := None, input := None, prompt := NoLabel);
    DrainKeepsOutstanding(closed);
    DecidedConcatenates([PermissionDecided(pr.choice.value.id, d)], Drain(closed).1);
    assert [PermissionDecided(pr.choice.value.id, d)][1..] == [];
  }

  /** What one dispatch does to the outstanding requests. */
  ghost predicate Accounts(pr: Prompts, c: Command, events: seq<Event>, pr': Prompts) {
    && Decided(events) + Outstanding(pr') == Outstanding(pr) + Arrivals(c)
    && (EditorExited !in events ==> Waiting(pr'))
  }

  lemma KeysAccount(s: Session, c: Command, fault: Option<Fault>)
    requires PromptsOk(s.pr) && Waiting(s.pr)
    requires c.MinibufferInput? || c.MinibufferBackspace? || c.MinibufferAbort?
    ensures Accounts(s.pr, c, Step(s, c, fault).events, Step(s, c, fault).session.pr)
  {
    hide Step, Settle, InputKey, Backspace, Abort, Outstanding, Waiting, Decided;
    ArmSettles(s, c, fault);
    assert Outstanding(s.pr) + [] == Outstanding(s.pr);
    match c {
      case MinibufferInput(key) => InputAccounts(s, key, fault); NothingDecided([]);
      case MinibufferBackspace => BackspaceAccounts(s);
      case MinibufferAbort => AbortAccounts(s);
    }
  }

  lemma InputAccounts(s: Session, key: string, fault: Option<Fault>)
    requires PromptsOk(s.pr) && Waiting(s.pr)
    ensures var r := InputKey(s, key, fault);
      && Decided(r.events) + Outstanding(r.session.pr) == Outstanding(s.pr)
      && (EditorExited !in r.events ==> Waiting(r.session.pr))
      && (r.raised ==> r == Outcome(s, [], true))
  {
    hide KeyDecision, Drain, Decide, ExitKey;
    var pr, r := s.pr, InputKey(s, key, fault);
    if pr.choice.Some? {
      var answer := KeyDecision(pr.choice.value, key);
      if answer.Answer? { DecideTakesTheHead(pr, answer.decision); }
    } else if ExitPrompt(pr) {
      ExitKeyAccounts(s, key, fault);
    }
  }

  lemma BackspaceAccounts(s: Session)
    requires PromptsOk(s.pr) && Waiting(s.pr)
    ensures var r := Backspace(s);
      Decided(r.1) + Outstanding(r.0.pr) == Outstanding(s.pr) && Waiting(r.0.pr)
  {
    NothingDecided(Backspace(s).1);
  }

  lemma AbortAccounts(s: Session)
    requires PromptsOk(s.pr) && Waiting(s.pr)
    ensures var r := Abort(s);
      Decided(r.1) + Outstanding(r.0.pr) == Outstanding(s.pr) && Waiting(r.0.pr)
  {
    hide Drain, Decide;
    var pr := s.pr;
    if pr.choice.Some? {
      DecideTakesTheHead(pr, Cancelled);
    } else if pr.input.Some? {
      var closed := ClosePrompt(if ExitPrompt(pr) then pr.(exitPending := []) else pr);
      DrainKeepsOutstanding(closed);
      DecidedConcatenates([MinibufferAborted], Drain(closed).1);
      NothingDecided([MinibufferAborted]);
    }
  }

  lemma ExitKeyAccounts(s: Session, key: string, fault: Option<Fault>)
    requires PromptsOk(s.pr) && Waiting(s.pr) && ExitPrompt(s.pr)
    ensures var r := ExitKey(s, key, fault);
      && Decided(r.1) + Outstanding(r.0.pr) == Outstanding(s.pr)
      && (EditorExited !in r.1 ==> Waiting(r.0.pr))
  {
    hide AnyModified, Drain;
    var r := ExitKey(s, key, fault);
    if s.pr.kind == Some(ExitAnywayKind) && key == "n" {
      DrainKeepsOutstanding(ClosePrompt(s.pr));
      DecidedConcatenates([ExitRefused], Drain(ClosePrompt(s.pr)).1);
      NothingDecided([ExitRefused]);
    } else {
      NothingDecided(r.1);
    }
  }

  lemma AcceptedDecidesNothing(ed: Editor, kind: Option<PromptKind>, text: string, fault: Option<Fault>)
    ensures Decided(Accepted(ed, kind, text, fault).1) == []
  {
    hide FreshName, Basename, ResolveVisit, Visiting, ToFront, BreakChains;
    NothingDecided(Accepted(ed, kind, text, fault).1);
  }

  lemma AcceptAccounts(s: Session, c: Command, fault: Option<Fault>)
    requires PromptsOk(s.pr) && Waiting(s.pr) && c == MinibufferAccept
    ensures Accounts(s.pr, c, Step(s, c, fault).events, Step(s, c, fault).session.pr)
  {
    hide Settle, AcceptDecision, Drain, Decide, Accepted;
    var pr := s.pr;
    if pr.choice.Some? {
      DecideTakesTheHead(pr, AcceptDecision(pr.choice.value));
    } else if !ExitPrompt(pr) && pr.input.Some? {
      var done := Accepted(s.ed, pr.kind, pr.input.value, fault);
      AcceptedDecidesNothing(s.ed, pr.kind, pr.input.value, fault);
      DrainKeepsOutstanding(ClosePrompt(pr));
      DecidedConcatenates(done.1, Drain(ClosePrompt(pr)).1);
    } else {
      NothingDecided(Step(s, c, fault).events);
    }
  }

  lemma PromptingAccounts(ed: Editor, pr: Prompts, c: Command)
    requires PromptsOk(pr) && Waiting(pr) && !c.AbortPendingPermissions? && (pr.input.Some? ==> PassesGate(c))
    ensures Accounts(pr, c, Prompting(ed, pr, c).1, Prompting(ed, pr, c).0)
  {
    hide Prompting, PromptsOk, Decided, Ids;
    if c.PromptPermission? {
      ArrivalAccounts(ed, pr, c);
    } else {
      PromptingShape(ed, pr, c);
      NothingDecided(Prompting(ed, pr, c).1);
      assert [] + Outstanding(pr) == Outstanding(pr) + [];
    }
  }

  lemma PromptingShape(ed: Editor, pr: Prompts, c: Command)
    requires !c.AbortPendingPermissions? && !c.PromptPermission? && Waiting(pr)
    ensures var r := Prompting(ed, pr, c);
      && r.0.choice == pr.choice && r.0.queue == pr.queue && Waiting(r.0)
      && forall i :: 0 <= i < |r.1| ==> !r.1[i].PermissionDecided?
  {
    hide AtRisk, AnyModified;
  }

  lemma ArrivalAccounts(ed: Editor, pr: Prompts, c: Command)
    requires PromptsOk(pr) && Waiting(pr) && c.PromptPermission?
    ensures Accounts(pr, c, Prompting(ed, pr, c).1, Prompting(ed, pr, c).0)
  {
    hide AtRisk, AnyModified, AdvanceExit;
    NothingDecided(Prompting(ed, pr, c).1);
    IdsConcatenate(pr.queue, [c.request]);
    assert [c.request][1..] == [];
  }

  predicate Undecided(events: seq<Event>) {
    forall i :: 0 <= i < |events| ==> !events[i].PermissionDecided?
  }

  lemma EditUndecided(ed: Editor, e: EditCommand)
    ensures Undecided(EditCurrent(ed, e).1)
  {
    hide Bookkeep, Splice, Slice, SyncFocused;
  }

  lemma LayoutUndecided(ed: Editor, c: Command)
    ensures Undecided(Layout(ed, c).1)
  {
    hide Arrive, Leave, ToFront;
  }

  lemma PeerUndecided(s: Session, c: Command)
    ensures (c.DeliverSessionEffects? || c.InsertAgentText?) ==> Undecided(Deliver(s, c).events)
    ensures (c.CreateAgentBuffer? || c.CreateGeneratedBuffer?) ==> Undecided(Mint(s, c).events)
  {
    hide Rendered, FoldAfter, AllRenderable, SettleOn, FreshName, Put;
  }

  lemma EditorAccounts(s: Session, c: Command, fault: Option<Fault>)
    requires Waiting(s.pr)
    requires c.Edit? || c.SaveBuffer? || c.DeliverProcessOutput? || c.DeliverSessionEffects? || c.InsertAgentText?
             || c.CreateAgentBuffer? || c.CreateGeneratedBuffer? || c.DisplayBuffer? || c.SplitWindow?
             || c.OtherWindow? || c.DeleteOtherWindows? || c.ResizeFrame?
    ensures Decided(Step(s, c, fault).events) == [] && Step(s, c, fault).session.pr == s.pr
  {
    hide Settle, EditCurrent, Layout, FreshName, Put, SettleOn, Rendered, FoldAfter, AllRenderable, Append, Create, Waiting,
         InputKey, Backspace, Accept, Abort, Prompting, DeliveryTarget;
    if c.Edit? { EditUndecided(s.ed, c.edit); }
    LayoutUndecided(s.ed, c);
    PeerUndecided(s, c);
    NothingDecided(Step(s, c, fault).events);
  }

  /** Requests leave in the order they came, each by exactly one decision, and a
      waiting one always has a prompt in front of it until the editor exits. */
  lemma StepAccounts(s: Session, c: Command, fault: Option<Fault>)
    requires PromptsOk(s.pr) && Waiting(s.pr) && !c.AbortPendingPermissions?
    ensures Accounts(s.pr, c, Step(s, c, fault).events, Step(s, c, fault).session.pr)
  {
    hide Accounts, EditCurrent, Save, Deliver, Mint, InputKey, Backspace, Accept, Abort, Layout, Settle, Prompting, PromptsOk,
         Waiting;
    if s.pr.input.Some? && !PassesGate(c) {
      NothingAccounts(s.pr, c);
    } else if c.MinibufferInput? || c.MinibufferBackspace? || c.MinibufferAbort? {
      KeysAccount(s, c, fault);
    } else if c.MinibufferAccept? {
      AcceptAccounts(s, c, fault);
    } else if c.FindFile? || c.PromptAgent? || c.SwitchBuffer? || c.ExitEditor? || c.PromptPermission? {
      PromptingAccounts(s.ed, s.pr, c);
    } else {
      EditorAccounts(s, c, fault);
      UntouchedAccounts(s.pr, c, Step(s, c, fault).events);
    }
  }

  lemma UntouchedAccounts(pr: Prompts, c: Command, events: seq<Event>)
    requires Waiting(pr) && !c.PromptPermission? && Decided(events) == []
    ensures Accounts(pr, c, events, pr)
  {
  }

  lemma NothingAccounts(pr: Prompts, c: Command)
    requires Waiting(pr) && !c.PromptPermission?
    ensures Accounts(pr, c, [], pr)
  {
  }

  /** Cancelling the turn clears every request without deciding any. */
  lemma AbortClears(s: Session, fault: Option<Fault>)
    requires PromptsOk(s.pr)
    ensures var r := Step(s, AbortPendingPermissions, fault);
      && Outstanding(r.session.pr) == [] && Decided(r.events) == [] && Waiting(r.session.pr)
      && (s.pr.choice.None? ==> r.session.pr == s.pr.(queue := []))
  {
    hide Settle;
    NothingDecided(Step(s, AbortPendingPermissions, fault).events);
  }

  function ArrivalsOf(inputs: seq<Input>): seq<RequestId>
    decreases |inputs|
  {
    if inputs == [] then [] else Arrivals(inputs[0].command) + ArrivalsOf(inputs[1..])
  }

  /** Over any run that neither cancels a turn nor leaves the editor, the
      decisions taken, then the request on screen, then the queue are exactly the
      requests of the start followed by those that arrived. */
  lemma {:induction false} RequestsAreFifo(s: Session, inputs: seq<Input>)
    requires SessionOk(s) && Waiting(s.pr)
    requires forall i :: 0 <= i < |inputs| ==> !inputs[i].command.AbortPendingPermissions?
    requires EditorExited !in Recorded(s, inputs)
    ensures Decided(Recorded(s, inputs)) + Outstanding(Run(s, inputs).pr) == Outstanding(s.pr) + ArrivalsOf(inputs)
    ensures Waiting(Run(s, inputs).pr)
    decreases |inputs|
  {
    hide Step, SessionOk, Outstanding, Waiting, Arrivals;
    if inputs == [] {
      NothingDecided([]);
      assert Outstanding(s.pr) + [] == Outstanding(s.pr);
    } else {
      var c := inputs[0].command;
      var r := StepInput(s, inputs[0]);
      var more := Recorded(r.session, inputs[1..]);
      assert Recorded(s, inputs) == r.events + more;
      assert EditorExited !in r.events && EditorExited !in more;
      HasPrompts(s);
      StepAccounts(s, c, inputs[0].fault);
      StepKeepsSessionOk(s, c, inputs[0].fault);
      RequestsAreFifo(r.session, inputs[1..]);
      DecidedConcatenates(r.events, more);
      calc {
        Decided(r.events + more) + Outstanding(Run(s, inputs).pr);
        Decided(r.events) + (Decided(more) + Outstanding(Run(s, inputs).pr));
        Decided(r.events) + (Outstanding(r.session.pr) + ArrivalsOf(inputs[1..]));
        (Decided(r.events) + Outstanding(r.session.pr)) + ArrivalsOf(inputs[1..]);
        Outstanding(s.pr) + (Arrivals(c) + ArrivalsOf(inputs[1..]));
      }
    }
  }

  /** The requests themselves, with what they asked. */
  function Requests(pr: Prompts): seq<Permission> {
    (if pr.choice.Some? then [pr.choice.value] else []) + pr.queue
  }

  lemma RequestsHaveIds(pr: Prompts)
    ensures Ids(Requests(pr)) == Outstanding(pr)
  {
    if pr.choice.Some? { assert Requests(pr)[1..] == pr.queue; }
    else { assert Requests(pr) == pr.queue; }
  }

  /** No dispatch invents a request: what is outstanding afterwards was so before
      or has just arrived. */
  lemma StepRequests(s: Session, c: Command, fault: Option<Fault>)
    requires PromptsOk(s.pr)
    ensures forall r :: r in Requests(Step(s, c, fault).session.pr) ==>
              r in Requests(s.pr) || c == PromptPermission(r)
  {
    hide Settle, EditCurrent, Layout, Deliver, Mint, InputKey, Backspace, Accept, Abort, Prompting, Save, Requests;
    PeerKeepsPrompts(s, c);
    PromptingRequests(s.ed, s.pr, c);
    KeysRequests(s, c, fault);
  }

  lemma PeerKeepsPrompts(s: Session, c: Command)
    ensures (c.DeliverSessionEffects? || c.InsertAgentText?) ==> Deliver(s, c).session.pr == s.pr
    ensures (c.CreateAgentBuffer? || c.CreateGeneratedBuffer?) ==> Mint(s, c).session.pr == s.pr
  {
    hide Rendered, FoldAfter, AllRenderable, SettleOn, Create, Append;
  }

  ghost predicate Fewer(pr: Prompts, pr': Prompts) {
    forall r :: r in Requests(pr') ==> r in Requests(pr)
  }

  lemma DecideFewer(pr: Prompts, d: Decision)
    requires pr.choice.Some?
    ensures Fewer(pr, Decide(pr, pr.choice.value, d).0)
  {
    hide Drain;
    DrainRequests(pr.(choice := None, input := None, prompt := NoLabel));
  }

  lemma CloseFewer(pr: Prompts)
    requires pr.choice.None?
    ensures Fewer(pr, Drain(ClosePrompt(pr)).0) && Fewer(pr, Drain(ClosePrompt(pr.(exitPending := []))).0)
  {
    hide Drain;
    DrainRequests(ClosePrompt(pr));
    DrainRequests(ClosePrompt(pr.(exitPending := [])));
  }

  lemma KeysRequests(s: Session, c: Command, fault: Option<Fault>)
    requires PromptsOk(s.pr)
    ensures c.MinibufferInput? ==> Fewer(s.pr, InputKey(s, c.key, fault).session.pr)
    ensures Fewer(s.pr, Backspace(s).0.pr) && Fewer(s.pr, Accept(s, fault).0.pr) && Fewer(s.pr, Abort(s).0.pr)
  {
    hide Accepted, KeyDecision, AcceptDecision, Decide, Drain, ExitKey;
    if s.pr.choice.Some? {
      DecideFewer(s.pr, AcceptDecision(s.pr.choice.value));
      DecideFewer(s.pr, Cancelled);
      if c.MinibufferInput? && KeyDecision(s.pr.choice.value, c.key).Answer? {
        DecideFewer(s.pr, KeyDecision(s.pr.choice.value, c.key).decision);
      }
    } else {
      CloseFewer(s.pr);
      if c.MinibufferInput? && ExitPrompt(s.pr) { ExitKeyRequests(s, c.key, fault); }
    }
  }

  lemma DrainRequests(pr: Prompts)
    requires pr.choice.None?
    ensures Requests(Drain(pr).0) == Requests(pr)
  {
    if pr.queue != [] { assert pr.queue == [pr.queue[0]] + pr.queue[1..]; }
  }

  lemma ExitKeyRequests(s: Session, key: string, fault: Option<Fault>)
    requires PromptsOk(s.pr) && ExitPrompt(s.pr)
    ensures Requests(ExitKey(s, key, fault).0.pr) == Requests(s.pr)
  {
    hide Save, AnyModified, Drain;
    DrainRequests(ClosePrompt(s.pr));
  }

  lemma PromptingRequests(ed: Editor, pr: Prompts, c: Command)
    requires PromptsOk(pr)
    ensures forall r :: r in Requests(Prompting(ed, pr, c).0) ==> r in Requests(pr) || c == PromptPermission(r)
  {
    hide AtRisk, AnyModified;
  }

  lemma HasPrompts(s: Session)
    requires SessionOk(s)
    ensures PromptsOk(s.pr)
  {
  }
}
