/** Every reachable world is coupled, in phase and accounted for. */
module PumpRuns {
  import opened Prelude
  import opened Buffers
  import opened Acp
  import opened Transcript
  import opened Machine
  import opened MachineInvariants
  import opened Events
  import opened Editing
  import opened SessionSpec
  import opened SessionInvariants
  import opened SessionRuns
  import opened PermissionQueue
  import opened PumpSpec
  import opened PumpFrames
  import opened PumpInvariants
  import opened Genesis

  lemma GoodAside(w: World, w': World, front: seq<RequestId>, extra: seq<Permission>)
    requires Good(w, front, extra) && Aside(w, w')
    ensures Good(w', front, extra)
  {
    hide SessionOk, DeliveryTarget, Coupled, RequestIds, SentPrompts, FirstIds, Answered, Grows, Waiting;
  }

  // ---- The events a user's command leaves for the pump ----

  predicate IsAction(e: Event) { e.AgentPromptSubmitted? || e.PermissionDecided? || e.KeyboardQuitEvent? }

  /** Only the first event of a user's command can concern the pump. */
  predicate ActsFirst(events: seq<Event>) {
    forall i :: 1 <= i < |events| ==> !IsAction(events[i])
  }

  function After1(cfg: Config, w: World, e: Event, launch: Option<Fault>): World {
    match e
    case AgentPromptSubmitted(text) => Submit(cfg, w, text, launch)
    case PermissionDecided(id, d) => Decision1(cfg, w, id, d)
    case KeyboardQuitEvent => Quit(cfg, w)
    case _ => w
  }

  lemma {:induction false} SkipOthers(cfg: Config, w: World, events: seq<Event>, launch: Option<Fault>)
    requires forall i :: 0 <= i < |events| ==> !IsAction(events[i])
    ensures AfterCommand(cfg, w, events, launch) == w && Decided(events) == []
    decreases |events|
  {
    hide Submit, Decision1, Quit;
    if events != [] {
      assert !IsAction(events[0]);
      SkipOthers(cfg, w, events[1..], launch);
    }
  }

  lemma AfterTheFirst(cfg: Config, w: World, events: seq<Event>, launch: Option<Fault>)
    requires events != [] && ActsFirst(events)
    ensures AfterCommand(cfg, w, events, launch) == After1(cfg, w, events[0], launch)
    ensures Decided(events) == if events[0].PermissionDecided? then [events[0].id] else []
  {
    hide Submit, Decision1, Quit;
    forall i | 0 <= i < |events[1..]| ensures !IsAction(events[1..][i]) {
      assert events[1..][i] == events[i + 1];
    }
    SkipOthers(cfg, After1(cfg, w, events[0], launch), events[1..], launch);
  }

  lemma EditActsFirst(ed: Editor, e: EditCommand)
    ensures |EditCurrent(ed, e).1| <= 1
    ensures EditCurrent(ed, e).1 != [] && IsAction(EditCurrent(ed, e).1[0]) ==>
              e.KeyboardQuit? && EditCurrent(ed, e).1[0].KeyboardQuitEvent?
  {
    hide Bookkeep, Splice, Slice, SyncFocused;
  }

  predicate NoActions(events: seq<Event>) {
    forall i :: 0 <= i < |events| ==> !IsAction(events[i])
  }

  lemma LayoutActsNever(ed: Editor, c: Command)
    ensures NoActions(Layout(ed, c).1)
  {
    hide Arrive, Leave, ToFront;
  }

  lemma AcceptedActsFirst(ed: Editor, kind: Option<PromptKind>, text: string, fault: Option<Fault>)
    ensures ActsFirst(Accepted(ed, kind, text, fault).1)
    ensures var events := Accepted(ed, kind, text, fault).1;
      events != [] && IsAction(events[0]) ==> events[0].AgentPromptSubmitted?
  {
    hide FreshName, Basename, ResolveVisit, Visiting, ToFront, BreakChains;
  }

  lemma DrainActsNever(pr: Prompts)
    ensures NoActions(SessionSpec.Drain(pr).1)
  {
  }

  lemma ExitKeyActsNever(s: Session, key: string, fault: Option<Fault>)
    ensures NoActions(ExitKey(s, key, fault).1)
  {
    hide AnyModified, SessionSpec.Drain, Put;
    DrainActsNever(ClosePrompt(s.pr));
  }

  lemma AppendActsFirst(a: seq<Event>, b: seq<Event>)
    requires ActsFirst(a) && NoActions(b)
    ensures (a != [] || NoActions(b)) && ActsFirst(a + b)
  {
  }

  lemma KeysActFirst(s: Session, c: Command, fault: Option<Fault>)
    requires c.MinibufferInput? || c.MinibufferBackspace? || c.MinibufferAccept? || c.MinibufferAbort?
    ensures var events := Step(s, c, fault).events;
      && ActsFirst(events)
      && (events != [] ==> !events[0].KeyboardQuitEvent?)
  {
    hide Settle, Accepted, ExitKey, KeyDecision, AcceptDecision, SessionSpec.Drain;
    DrainActsNever(s.pr.(choice := None, input := None, prompt := NoLabel));
    DrainActsNever(ClosePrompt(s.pr));
    DrainActsNever(ClosePrompt(s.pr.(exitPending := [])));
    if c.MinibufferInput? { ExitKeyActsNever(s, c.key, fault); }
    if s.pr.input.Some? {
      AcceptedActsFirst(s.ed, s.pr.kind, s.pr.input.value, fault);
      var done := Accepted(s.ed, s.pr.kind, s.pr.input.value, fault).1;
      AppendActsFirst(done, SessionSpec.Drain(ClosePrompt(s.pr)).1);
    }
  }

  lemma PromptingActsNever(ed: Editor, pr: Prompts, c: Command)
    ensures NoActions(Prompting(ed, pr, c).1)
  {
    hide AtRisk, AnyModified;
  }

  /** A quit event comes from `C-g` with no prompt open. */
  lemma UserActsFirst(s: Session, c: Command, fault: Option<Fault>)
    requires UserIssued(c) || c.ResizeFrame?
    ensures var events := Step(s, c, fault).events;
      && ActsFirst(events)
      && (events != [] && events[0].KeyboardQuitEvent? ==>
            s.pr.input.None? && Step(s, c, fault).session.pr == s.pr)
  {
    hide Settle, EditCurrent, Layout, InputKey, Backspace, Accept, Abort, Prompting, ActsFirst, NoActions;
    if c.Edit? { EditActsFirst(s.ed, c.edit); OneActsFirst(EditCurrent(s.ed, c.edit).1); }
    else if c.MinibufferInput? || c.MinibufferBackspace? || c.MinibufferAccept? || c.MinibufferAbort? { KeysActFirst(s, c, fault); }
    else {
      LayoutActsNever(s.ed, c);
      PromptingActsNever(s.ed, s.pr, c);
      SaveActsNever(s.ed, s.ed.current, fault);
      NoneActsFirst([]);
      NoneActsFirst(Step(s, c, fault).events);
    }
    if s.pr.input.Some? && !PassesGate(c) { OneActsFirst([]); }
  }

  lemma OneActsFirst(events: seq<Event>)
    requires |events| <= 1
    ensures ActsFirst(events)
  {
  }

  lemma NoneActsFirst(events: seq<Event>)
    ensures NoActions(events) ==> ActsFirst(events) && (events != [] ==> !events[0].KeyboardQuitEvent?)
    ensures NoActions([])
  {
  }

  lemma SaveActsNever(ed: Editor, id: BufferId, fault: Option<Fault>)
    ensures NoActions(Save(ed, id, fault).1)
  {
  }

  // ---- What the pump does about them ----

  /** The prompt queued, as `Submit` does once the child is up. */
  function Queued(w: World, text: string): World {
    w.(pump := w.pump.(pending := w.pump.pending + [text]), life := w.life.(submitted := w.life.submitted + [text]))
  }

  lemma StartStep(cfg: Config, w: World, text: string)
    requires Good(w, [], []) && !w.pump.alive
    ensures var w' := SendRequest(cfg, w.(pump := w.pump.(alive := true)), Start(w.pump.machine));
      w'.crash.None? && Body(w') && Good(Queued(w', text), [], []) && w'.pump.alive && w'.session.pr == w.session.pr
      && w'.ended == w.ended
  {
    hide SessionOk, DeliveryTarget, SendRequest, RequestIds, SentPrompts, FirstIds, Answered, Grows, Start, Deliverable, AllRenderable;
    var m := w.pump.machine;
    var r := Start(m);
    StartKeepsOk(m);
    AskFacts(m, "", "");
    CountsRequest(w.life, w.pump, r.machine, r.request);
    SendRequestFrame(cfg, w.(pump := w.pump.(alive := true)), r);
    assert SentPrompts(w.life.wire) + [] + [text] == SentPrompts(w.life.wire) + ([] + [text]);
  }

  lemma SubmitKeeps(cfg: Config, w: World, text: string, launch: Option<Fault>)
    requires Good(w, [], [])
    ensures var w' := Submit(cfg, w, text, launch); w'.crash.None? && Good(w', [], [])
  {
    hide Body, Coupled, SendRequest, SendPending, Log, Start, RequestIds, SentPrompts, FirstIds, Answered, Waiting;
    NoCrash(w);
    if !w.pump.alive && launch.Some? {
      LogAside(cfg, w, LaunchFailed(launch.value));
      GoodAside(w, Log(cfg, w, LaunchFailed(launch.value)), [], []);
      AsideBody(w, Log(cfg, w, LaunchFailed(launch.value)));
      NoCrash(Log(cfg, w, LaunchFailed(launch.value)));
    } else {
      var running := if w.pump.alive then w
                     else SendRequest(cfg, w.(pump := w.pump.(alive := true)), Start(w.pump.machine));
      if w.pump.alive { QueuePrompt(w, text); } else { StartStep(cfg, w, text); }
      SendPendingKeeps(cfg, Queued(running, text), [], [], []);
    }
  }

  lemma QueuePrompt(w: World, text: string)
    requires Good(w, [], []) && w.pump.alive
    ensures Good(Queued(w, text), [], [])
  {
    hide SessionOk, DeliveryTarget, Coupled, RequestIds, SentPrompts, FirstIds, Answered, Waiting, Deliverable, AllRenderable;
    assert SentPrompts(w.life.wire) + w.pump.pending + [text] == SentPrompts(w.life.wire) + (w.pump.pending + [text]);
  }

  lemma {:induction false} RequestHasId(queue: seq<Permission>, p: Permission)
    requires p in queue
    ensures p.id in Ids(queue)
    decreases |queue|
  {
    if queue[0] != p { RequestHasId(queue[1..], p); }
  }

  /** The machine lets go of the decided request, and keeps the others' parameters. */
  lemma ResolveCouples(m: Machine, pr: Prompts, id: RequestId, d: Decision)
    requires Coupled(m, pr, [id], [])
    ensures var r := Resolve(m, id, d);
      && !r.NotTracked?
      && (r.Folded? ==>
            && Coupled(r.machine, pr, [], [])
            && r.machine.phase == m.phase && r.machine.nextId == m.nextId
            && r.out == [Response(id, DecisionJson(d))]
            && multiset(m.incoming) == multiset{id} + multiset(r.machine.incoming))
  {
    hide Resolve, MachineOk, Outstanding, Requests, Coupled, Remove;
    CoupledFacts(m, pr, [id]);
    ResolveKeepsOk(m, id, d);
    HeadRemoved(id, Outstanding(pr));
    var r := Resolve(m, id, d);
    if r.Folded? { CoupledAgain(m, r.machine, pr, id); }
  }

  lemma CoupledFacts(m: Machine, pr: Prompts, front: seq<RequestId>)
    requires Coupled(m, pr, front, [])
    ensures MachineOk(m) && m.incoming == front + Outstanding(pr) && NoDuplicates(m.incoming)
    ensures forall p :: p in Requests(pr) ==> p.id in m.params && m.params[p.id] == p.params
  {
    hide Outstanding, Requests, OutgoingOk;
    assert Ids([]) == [];
    assert Requests(pr) + [] == Requests(pr);
  }

  lemma CoupledAgain(m: Machine, m': Machine, pr: Prompts, id: RequestId)
    requires Coupled(m, pr, [id], []) && MachineOk(m')
    requires m'.incoming == Outstanding(pr) && m'.params == m.params - {id} && id !in Outstanding(pr)
    ensures Coupled(m', pr, [], [])
  {
    hide Outstanding, Requests, MachineOk;
    assert Ids([]) == [];
    RequestsHaveIds(pr);
    forall p | p in Requests(pr) + [] ensures p.id in m'.params && m'.params[p.id] == p.params {
      RequestHasId(Requests(pr), p);
    }
    assert [] + Outstanding(pr) + Ids([]) == Outstanding(pr);
  }

  lemma HeadRemoved(id: RequestId, rest: seq<RequestId>)
    requires NoDuplicates([id] + rest)
    ensures Remove([id] + rest, id) == rest && id !in rest
    ensures multiset([id] + rest) == multiset{id} + multiset(rest)
  {
    var all := [id] + rest;
    assert forall i :: 0 <= i < |rest| ==> all[i + 1] == rest[i] && all[0] != all[i + 1];
    assert all[1..] == rest;
    RemoveAbsent(rest, id);
  }

  lemma NoIdsNoRequests(pr: Prompts)
    requires Outstanding(pr) == []
    ensures Requests(pr) == []
  {
    RequestsHaveIds(pr);
  }

  /** Replies go out and what was produced with them is owed. */
  lemma ReplyOwes(cfg: Config, w: World, machine: Machine, out: seq<Message>, effects: seq<Effect>, front: seq<RequestId>)
    requires Good(w, front, []) && w.pump.alive && Coupled(machine, w.session.pr, [], [])
    requires machine.nextId == w.pump.machine.nextId && machine.phase == w.pump.machine.phase
    requires forall i :: 0 <= i < |out| ==> !out[i].Request?
    requires multiset(w.pump.machine.incoming) == multiset(Answered(out)) + multiset(machine.incoming)
    ensures var sent := SendAll(cfg, Produced(w.(pump := w.pump.(machine := machine)), effects), out);
      && sent.crash.None? && Owing(sent, [], [], Deliverable(effects)) && sent.pump.alive
      && sent.pump.transcript == w.pump.transcript && sent.session.pr == w.session.pr && sent.ended == w.ended
  {
    hide SessionOk, DeliveryTarget, SendAll, Counts, EffectsOk, Coupled, Grows, Waiting, Deliverable, AllRenderable;
    var moved := w.(pump := w.pump.(machine := machine));
    CountsReplies(w.life, w.pump, machine, [], out);
    assert w.life.accepted + [] == w.life.accepted;
    SendAllFrame(cfg, Produced(moved, effects), out);
    var sent := SendAll(cfg, Produced(moved, effects), out);
    CountsIgnore(sent.life, sent.life, w.life.(wire := w.life.wire + out), w.pump.(machine := machine), sent.pump);
    assert Deliverable([]) == [] by { NothingDeliverable(); }
    EffectsGrow(w.life, w.pump, sent.life, sent.pump, [], effects);
    assert [] + effects == effects;
  }

  lemma NothingDeliverable()
    ensures Deliverable([]) == []
  {
  }

  /** A decision raises exactly when the chosen option's kind cannot be looked up. */
  lemma DecisionKeeps(cfg: Config, w: World, id: RequestId, d: Decision)
    requires Good(w, [id], [])
    ensures var w' := Decision1(cfg, w, id, d);
      WorldOk(w') && (w'.crash.None? <==> !Resolve(w.pump.machine, id, d).Unhashable?)
  {
    hide SessionOk, DeliveryTarget, SendAll, RequestIds, SentPrompts, FirstIds, Grows, Resolve, Coupled, Forward, Waiting,
         Ledger, Deliverable, Produced, Owing;
    GoodBody(w, [id], []);
    var m := w.pump.machine;
    OwesCoupled(w, [id], []);
    ResolveCouples(m, w.session.pr, id, d);
    TrackedIsAlive(w, id);
    var r := Resolve(m, id, d);
    if r.Folded? {
      WireOfOne(r.out[0]);
      assert multiset([id]) == multiset{id};
      ReplyOwes(cfg, w, r.machine, r.out, r.effects, [id]);
      ResolutionIsDeliverable(m, id, d);
      ForwardKeeps(SendAll(cfg, Produced(w.(pump := w.pump.(machine := r.machine)), r.effects), r.out), r.effects, [], []);
    }
  }

  lemma OwesCoupled(w: World, front: seq<RequestId>, extra: seq<Permission>)
    requires Good(w, front, extra)
    ensures Coupled(w.pump.machine, w.session.pr, front, extra) && MachineOk(w.pump.machine)
  {
  }

  lemma ResolutionIsDeliverable(m: Machine, id: RequestId, d: Decision)
    requires MachineOk(m) && Resolve(m, id, d).Folded?
    ensures var effects := Resolve(m, id, d).effects; Deliverable(effects) == effects && AllRenderable(effects)
  {
    hide Resolve, MachineOk;
    ResolveKeepsOk(m, id, d);
    var effects := Resolve(m, id, d).effects;
    assert effects == [effects[0]] && effects[1..] == [];
    assert Deliverable(effects[1..]) == [];
  }

  lemma TrackedIsAlive(w: World, id: RequestId)
    requires Good(w, [id], [])
    ensures w.pump.alive
  {
    assert w.pump.machine.incoming[0] == id;
  }

  lemma {:induction false} RefusalsAnswer(ids: seq<RequestId>)
    ensures Answered(Refusals(ids)) == ids && forall i :: 0 <= i < |Refusals(ids)| ==> !Refusals(ids)[i].Request?
    decreases |ids|
  {
    if ids != [] {
      RefusalsAnswer(ids[1..]);
      assert Refusals(ids)[1..] == Refusals(ids[1..]);
    }
  }

  lemma AbortRecords(s: Session)
    ensures var r := Step(s, AbortPendingPermissions, None);
      !r.raised && forall i :: 0 <= i < |r.events| ==> !r.events[i].AgentTranscriptUpdated?
  {
    hide Settle;
  }

  lemma AbortStep(w: World)
    requires Body(w)
    ensures var w' := Exec(w, AbortPendingPermissions);
      && w'.crash.None? && Body(w') && w'.pump == w.pump && w'.life == w.life && w'.ended == w.ended
      && Outstanding(w'.session.pr) == [] && Requests(w'.session.pr) == [] && Waiting(w'.session.pr)
  {
    hide SessionOk, PromptsOk, Outstanding, Requests, Waiting, Step, Grows, DeliveryTarget;
    var c := AbortPendingPermissions;
    StepKeepsSessionOk(w.session, c, None);
    HasPrompts(w.session);
    AbortClears(w.session, None);
    AbortRecords(w.session);
    var r := Step(w.session, c, None);
    NothingDelivered(r.events);
    assert w.life.delivered + [] == w.life.delivered;
    NoIdsNoRequests(r.session.pr);
    GrowthKeepsTargets(w, r.session.ed);
  }

  /** When `C-g` reaches the pump nothing is outstanding, so the cancel goes out
      alone and sweeps nothing. */
  lemma QuitKeeps(cfg: Config, w: World)
    requires Good(w, [], []) && Outstanding(w.session.pr) == []
    ensures WorldOk(Quit(cfg, w)) && Quit(cfg, w).crash.None?
  {
    hide SessionOk, DeliveryTarget, SendAll, RequestIds, SentPrompts, FirstIds, Grows, Cancel, Forward, Exec, MachineOk,
         Ledger, Refusals, Resolutions, Deliverable, Produced, Owing, Waiting, Outstanding;
    GoodBody(w, [], []);
    var m := w.pump.machine;
    if m.phase == PROMPT_IN_FLIGHT {
      OwesCoupled(w, [], []);
      CancelAnswersAll(m);
      var r := Cancel(m);
      assert Ids([]) == [] && m.incoming == [];
      NothingToRefuse();
      var note := r.out[0];
      assert r.out == [note];
      WireOfOne(note);
      NoIdsNoRequests(w.session.pr);
      PhaseIsAlive(w);
      ReplyOwes(cfg, w, r.machine, r.out, r.effects, []);
      NothingDeliverable();
      var sent := SendAll(cfg, Produced(w.(pump := w.pump.(machine := r.machine)), r.effects), r.out);
      NoneRenderable();
      ForwardKeeps(sent, r.effects, [], []);
      AbortGood(Forward(sent, r.effects));
    }
  }

  lemma PhaseIsAlive(w: World)
    requires Good(w, [], []) && w.pump.machine.phase == PROMPT_IN_FLIGHT
    ensures w.pump.alive
  {
  }

  lemma NothingToRefuse()
    ensures Refusals([]) == [] && Resolutions([]) == []
  {
  }

  lemma AbortGood(w: World)
    requires Good(w, [], []) && Outstanding(w.session.pr) == []
    ensures Exec(w, AbortPendingPermissions).crash.None? && Good(Exec(w, AbortPendingPermissions), [], [])
  {
    hide SessionOk, DeliveryTarget, Exec, Ledger, MachineOk, Deliverable;
    AbortStep(w);
  }

  // ---- Whole inputs ----

  /** The session after a key, before the pump has acted. */
  lemma KeyCouples(w: World, c: Command, fault: Option<Fault>)
    requires Good(w, [], []) && !w.ended && (UserIssued(c) || c.ResizeFrame?) && !Step(w.session, c, fault).raised
    ensures var r := Step(w.session, c, fault);
      Good(w.(session := r.session, ended := EditorExited in r.events), Decided(r.events), [])
  {
    hide EditorOk, Step, Grows, DeliveryTarget, Ledger, MachineOk, Outstanding, Requests, Waiting, PendingOk;
    StepKeepsSessionOk(w.session, c, fault);
    StepAccounts(w.session, c, fault);
    StepRequests(w.session, c, fault);
    var r := Step(w.session, c, fault);
    assert Ids([]) == [];
    GrowthKeepsTargets(w, r.session.ed);
    assert Outstanding(w.session.pr) + [] == Outstanding(w.session.pr);
  }

  /** A decision of this key whose option kind cannot be looked up. */
  predicate Undecidable(m: Machine, events: seq<Event>) {
    events != [] && events[0].PermissionDecided? && Resolve(m, events[0].id, events[0].decision).Unhashable?
  }

  /** A key keeps the world good, or raises in the session or at such a decision. */
  lemma KeyKeeps(cfg: Config, w: World, c: Command, fault: Option<Fault>, launch: Option<Fault>)
    requires Good(w, [], []) && !w.ended && (UserIssued(c) || c.ResizeFrame?)
    ensures var w', r := Key(cfg, w, c, fault, launch), Step(w.session, c, fault);
      WorldOk(w') && (w'.crash.Some? <==> r.raised || Undecidable(w.pump.machine, r.events))
  {
    hide Good, Step, AfterCommand, Decided, Undecidable;
    var r := Step(w.session, c, fault);
    if !r.raised {
      KeyCouples(w, c, fault);
      UserActsFirst(w.session, c, fault);
      var next := w.(session := r.session, ended := EditorExited in r.events);
      ActionKeeps(cfg, w, next, r.events, launch);
    }
  }

  lemma GoodIsWorldOk(w: World, front: seq<RequestId>, extra: seq<Permission>)
    requires Good(w, front, extra)
    ensures w.crash.None? && (front == [] && extra == [] ==> WorldOk(w))
  {
    hide SessionOk, Ledger, Coupled, Waiting;
  }

  lemma FirstKeeps(cfg: Config, w: World, next: World, e: Event, launch: Option<Fault>)
    requires Good(w, [], []) && !w.ended && Good(next, if e.PermissionDecided? then [e.id] else [], [])
    requires e.KeyboardQuitEvent? ==> w.session.pr.input.None? && next.session.pr == w.session.pr
    ensures var w' := After1(cfg, next, e, launch);
      WorldOk(w') && (w'.crash.Some? <==> e.PermissionDecided? && Resolve(next.pump.machine, e.id, e.decision).Unhashable?)
  {
    hide Good, WorldOk, Submit, Decision1, Quit, Waiting, Outstanding, Resolve;
    GoodIsWorldOk(next, if e.PermissionDecided? then [e.id] else [], []);
    match e {
      case AgentPromptSubmitted(text) =>
        SubmitKeeps(cfg, next, text, launch);
        GoodIsWorldOk(Submit(cfg, next, text, launch), [], []);
      case PermissionDecided(id, d) => DecisionKeeps(cfg, next, id, d);
      case KeyboardQuitEvent =>
        NoPromptNothingOutstanding(w);
        QuitKeeps(cfg, next);
      case _ =>
    }
  }

  /** What the pump does about one user command's events. */
  lemma ActionKeeps(cfg: Config, w: World, next: World, events: seq<Event>, launch: Option<Fault>)
    requires Good(w, [], []) && !w.ended && Good(next, Decided(events), []) && ActsFirst(events)
    requires events != [] && events[0].KeyboardQuitEvent? ==> w.session.pr.input.None? && next.session.pr == w.session.pr
    ensures var w' := AfterCommand(cfg, next, events, launch);
      WorldOk(w') && (w'.crash.Some? <==> Undecidable(next.pump.machine, events))
  {
    hide Good, After1, AfterCommand, Waiting, ActsFirst, Decided, Resolve, WorldOk;
    GoodIsWorldOk(next, Decided(events), []);
    if events == [] {
      NothingHappens(cfg, next, launch);
    } else {
      AfterTheFirst(cfg, next, events, launch);
      FirstKeeps(cfg, w, next, events[0], launch);
    }
  }

  lemma NothingHappens(cfg: Config, w: World, launch: Option<Fault>)
    ensures AfterCommand(cfg, w, [], launch) == w && Decided([]) == []
  {
  }

  lemma NoPromptNothingOutstanding(w: World)
    requires Good(w, [], []) && !w.ended
    ensures w.session.pr.input.None? ==> Outstanding(w.session.pr) == []
  {
  }

  lemma ResetGood(cfg: Config, w: World)
    requires Body(w) && Outstanding(w.session.pr) == [] && Requests(w.session.pr) == [] && Waiting(w.session.pr)
    ensures var w' := Reset(cfg, w); w'.crash.None? && Good(w', [], [])
  {
    hide SessionOk, DeliveryTarget, Log, Grows, Outstanding, Requests, Waiting;
    var held, unsent := w.pump.backlog, w.pump.pending;
    var closed := w.(pump := w.pump.(alive := false, backlog := []));
    AsideRefl(closed);
    LogAside(cfg, closed, Undelivered(held));
    var told := if held == [] then closed else Log(cfg, closed, Undelivered(held));
    LogAside(cfg, told, Unsent(unsent));
    FreshLedger();
  }

  lemma FreshLedger()
    ensures MachineOk(FRESH) && RequestIds([]) == FirstIds(0) && SentPrompts([]) == [] && Answered([]) == [] && Ids([]) == []
    ensures Deliverable([]) == [] && AllRenderable([])
  {
  }

  lemma ExitedKeeps(cfg: Config, w: World, status: Option<int>)
    requires Good(w, [], [])
    ensures WorldOk(Exited(cfg, w, status)) && Exited(cfg, w, status).crash.None?
  {
    hide SessionOk, DeliveryTarget, Forward, Exec, Reset, Good, Grows, Outstanding, Requests, Waiting, AllRenderable;
    GoodBody(w, [], []);
    var effects := [ProtocolError(AgentExit(status))];
    OneRenderable(effects[0]);
    var made := Produced(w, effects);
    ForwardFrame(made, effects);
    AbortStep(Forward(made, effects));
    ResetGood(cfg, Exec(Forward(made, effects), AbortPendingPermissions));
  }

  /** Every input keeps the composite invariant, and nothing but a malformed payload
      ever raises. */
  lemma NextKeeps(cfg: Config, w: World, st: Stimulus)
    requires WorldOk(w) && FromUser(st)
    ensures WorldOk(Next(cfg, w, st))
  {
    hide Good, Key, Receive, Log, Exited;
    if w.crash.None? && !w.ended {
      match st {
        case UserKey(c, fault, launch) => KeyKeeps(cfg, w, c, fault, launch);
        case WireBytes(data) => ReceiveKeeps(cfg, w, data);
        case ChildStderr(data) =>
          GoodBody(w, [], []);
          LogAside(cfg, w, Stderr(data));
          GoodAside(w, Log(cfg, w, Stderr(data)), [], []);
          GoodBody(Log(cfg, w, Stderr(data)), [], []);
        case ChildExit(status) => ExitedKeeps(cfg, w, status);
      }
    }
  }

  lemma {:induction false} RunKeepsWorldOk(cfg: Config, w: World, inputs: seq<Stimulus>)
    requires WorldOk(w) && forall i :: 0 <= i < |inputs| ==> FromUser(inputs[i])
    ensures WorldOk(RunWorld(cfg, w, inputs))
    decreases |inputs|
  {
    hide Next, WorldOk;
    if inputs != [] {
      NextKeeps(cfg, w, inputs[0]);
      RunKeepsWorldOk(cfg, Next(cfg, w, inputs[0]), inputs[1..]);
    }
  }

  function InitialWorld(session: Session): World {
    World(IDLE, session, NEW_LIFE, 0, false, None)
  }

  lemma StartIsOk(s: Session)
    requires SessionOk(s) && Waiting(s.pr) && Outstanding(s.pr) == []
    ensures WorldOk(InitialWorld(s))
  {
    hide SessionOk, Outstanding, Requests;
    FreshLedger();
    NoIdsNoRequests(s.pr);
  }

  lemma InitialIsOk(g: InitialBuffer, frame: Option<(nat, nat)>, wording: Wording, disk: map<string, string>)
    requires ValidGenesis(g)
    ensures WorldOk(InitialWorld(InitialSession(g, frame, wording, disk)))
  {
    hide SessionOk, WorldOk;
    GenesisStartsOk(g, frame, wording, disk);
    StartIsOk(InitialSession(g, frame, wording, disk));
  }

  function Reached(cfg: Config, g: InitialBuffer, frame: Option<(nat, nat)>, wording: Wording, disk: map<string, string>,
                   inputs: seq<Stimulus>): World {
    RunWorld(cfg, InitialWorld(InitialSession(g, frame, wording, disk)), inputs)
  }

  lemma ReachedIsOk(cfg: Config, g: InitialBuffer, frame: Option<(nat, nat)>, wording: Wording, disk: map<string, string>,
                    inputs: seq<Stimulus>)
    requires ValidGenesis(g) && forall i :: 0 <= i < |inputs| ==> FromUser(inputs[i])
    ensures WorldOk(Reached(cfg, g, frame, wording, disk, inputs))
  {
    hide WorldOk, RunWorld, InitialSession;
    InitialIsOk(g, frame, wording, disk);
    RunKeepsWorldOk(cfg, InitialWorld(InitialSession(g, frame, wording, disk)), inputs);
  }

  /** Whatever the user, the agent and the pipes do: the requests on screen and in
      the queue are exactly those the machine awaits, in arrival order, without
      repetition and with the parameters they came with, and a queued one has an open
      prompt in front of it until the editor has exited. */
  lemma {:induction false} PermissionsAreCoupled(cfg: Config, g: InitialBuffer, frame: Option<(nat, nat)>, wording: Wording,
                                                 disk: map<string, string>, inputs: seq<Stimulus>)
    requires ValidGenesis(g) && forall i :: 0 <= i < |inputs| ==> FromUser(inputs[i])
    ensures var w := Reached(cfg, g, frame, wording, disk, inputs); var m, pr := w.pump.machine, w.session.pr;
      w.crash.None? ==>
        && Outstanding(pr) == m.incoming && NoDuplicates(m.incoming)
        && (forall id :: id in m.incoming <==> id in m.params)
        && (forall p :: p in Requests(pr) ==> p.id in m.incoming && m.params[p.id] == p.params)
        && (!w.ended && pr.queue != [] ==> pr.input.Some?)
  {
    hide Counts, EffectsOk, Reached, SessionOk, Outstanding, Requests;
    ReachedIsOk(cfg, g, frame, wording, disk, inputs);
    var w := Reached(cfg, g, frame, wording, disk, inputs);
    if w.crash.None? {
      assert Ids([]) == [];
      RequestsHaveIds(w.session.pr);
      forall p | p in Requests(w.session.pr) ensures p.id in w.pump.machine.incoming && w.pump.machine.params[p.id] == p.params {
        RequestHasId(Requests(w.session.pr), p);
        assert p in Requests(w.session.pr) + [];
      }
    }
  }

  /** One request of ours at a time, its method told by the phase; ids count up from
      zero and are never used twice in a child's life; a child is up without a session only
      for the sake of a prompt that waits; and no transition is ever called out of phase, inside a drain of many frames or anywhere else. */
  lemma {:induction false} PhasesAreDisciplined(cfg: Config, g: InitialBuffer, frame: Option<(nat, nat)>, wording: Wording,
                                                disk: map<string, string>, inputs: seq<Stimulus>)
    requires ValidGenesis(g) && forall i :: 0 <= i < |inputs| ==> FromUser(inputs[i])
    ensures var w := Reached(cfg, g, frame, wording, disk, inputs); var m := w.pump.machine;
      && w.crash != Some(OutOfPhaseCall) && w.crash != Some(BadDeliveryTarget)
      && (w.crash.None? ==>
            && OutgoingOk(m) && (w.pump.transcript.Some? <==> Live(m.phase))
            && RequestIds(w.life.wire) == FirstIds(m.nextId)
            && (!w.pump.alive ==> m == FRESH && w.pump.pending == [])
            && (w.pump.alive && w.pump.transcript.None? ==> w.pump.pending != []))
  {
    hide Reached, SessionOk, Outstanding, Requests;
    ReachedIsOk(cfg, g, frame, wording, disk, inputs);
  }

  /** Reporting leaves out the milestones and nothing else. */
  lemma {:induction false} AllButMilestones(effects: seq<Effect>)
    ensures forall e :: e in Deliverable(effects) ==> !Milestone(e)
    ensures forall e :: !Milestone(e) ==> multiset(Deliverable(effects))[e] == multiset(effects)[e]
    decreases |effects|
  {
    if effects != [] {
      AllButMilestones(effects[1..]);
      assert effects == [effects[0]] + effects[1..];
    }
  }

  /** Within one child's life: prompts go out in the order they were submitted and
      the rest wait; of the effects that came out of the machine or the pump, the
      milestones apart, each reaches the transcript once, in production order, or waits
      in the backlog; every accepted permission request is answered by exactly one
      response or is still outstanding. */
  lemma {:induction false} NothingIsLost(cfg: Config, g: InitialBuffer, frame: Option<(nat, nat)>, wording: Wording,
                                         disk: map<string, string>, inputs: seq<Stimulus>)
    requires ValidGenesis(g) && forall i :: 0 <= i < |inputs| ==> FromUser(inputs[i])
    ensures var w := Reached(cfg, g, frame, wording, disk, inputs); var life := w.life;
      w.crash.None? ==>
        && life.submitted == SentPrompts(life.wire) + w.pump.pending
        && Deliverable(life.produced) == life.delivered + w.pump.backlog
        && (forall e :: e in life.delivered + w.pump.backlog ==> !Milestone(e))
        && (forall e :: !Milestone(e) ==> multiset(life.produced)[e] == multiset(life.delivered + w.pump.backlog)[e])
        && (w.pump.transcript.Some? ==> w.pump.backlog == [])
        && (w.pump.transcript.None? ==> life.delivered == [])
        && multiset(life.accepted) == multiset(Answered(life.wire)) + multiset(Outstanding(w.session.pr))
  {
    hide Reached, SessionOk, Outstanding, Requests, RequestIds, SentPrompts, FirstIds, Answered, MachineOk, Deliverable,
         AllRenderable;
    ReachedIsOk(cfg, g, frame, wording, disk, inputs);
    var w := Reached(cfg, g, frame, wording, disk, inputs);
    assert Ids([]) == [];
    assert w.life.delivered + w.pump.backlog + [] == w.life.delivered + w.pump.backlog;
    AllButMilestones(w.life.produced);
  }

  /** `C-g` in a turn: the gate lets it through only when no permission prompt is
      open, so the machine tracks nothing and exactly one notification goes out. */
  lemma {:induction false} CancelSweepsNothing(cfg: Config, g: InitialBuffer, frame: Option<(nat, nat)>, wording: Wording,
                                               disk: map<string, string>, inputs: seq<Stimulus>)
    requires ValidGenesis(g) && forall i :: 0 <= i < |inputs| ==> FromUser(inputs[i])
    requires var w := Reached(cfg, g, frame, wording, disk, inputs);
      w.crash.None? && !w.ended && w.session.pr.input.None? && w.pump.machine.phase == PROMPT_IN_FLIGHT
    ensures var m := Reached(cfg, g, frame, wording, disk, inputs).pump.machine;
      && m.incoming == []
      && Cancel(m) == Folded(m, [Notification(SESSION_CANCEL, Obj(map["sessionId" := SessionJson(m)]))], [])
  {
    hide Reached, SessionOk, RequestIds, SentPrompts, FirstIds, Answered;
    ReachedIsOk(cfg, g, frame, wording, disk, inputs);
    var w := Reached(cfg, g, frame, wording, disk, inputs);
    NoPromptNothingOutstanding(w);
    assert Ids([]) == [];
    assert w.pump.machine.incoming == [];
  }

  /** A human never answers a request the machine has let go of: whatever key is
      pressed in whatever reachable state, at most one request is decided, it is the
      one the machine has awaited longest, and resolving it does not find it stale. */
  lemma {:induction false} DecisionsAreNeverStale(cfg: Config, g: InitialBuffer, frame: Option<(nat, nat)>, wording: Wording,
                                                  disk: map<string, string>, inputs: seq<Stimulus>, c: Command,
                                                  fault: Option<Fault>, d: Decision)
    requires ValidGenesis(g) && forall i :: 0 <= i < |inputs| ==> FromUser(inputs[i])
    requires UserIssued(c)
    requires var w := Reached(cfg, g, frame, wording, disk, inputs);
      w.crash.None? && !w.ended && !Step(w.session, c, fault).raised
    ensures var w := Reached(cfg, g, frame, wording, disk, inputs);
      var m, decided := w.pump.machine, Decided(Step(w.session, c, fault).events);
      && |decided| <= 1
      && (decided != [] ==> m.incoming != [] && decided[0] == m.incoming[0] && !Resolve(m, decided[0], d).NotTracked?)
  {
    hide Reached, Step, SessionOk, Resolve, MachineOk, ActsFirst;
    ReachedIsOk(cfg, g, frame, wording, disk, inputs);
    var w := Reached(cfg, g, frame, wording, disk, inputs);
    var r := Step(w.session, c, fault);
    KeyCouples(w, c, fault);
    UserActsFirst(w.session, c, fault);
    DecidedAtMostOne(r.events);
    var next := w.(session := r.session, ended := EditorExited in r.events);
    assert w.pump.machine.incoming == Decided(r.events) + Outstanding(r.session.pr) + Ids([]);
    CoupledOk(w.pump.machine, r.session.pr, Decided(r.events), []);
    if Decided(r.events) != [] { ResolveKeepsOk(w.pump.machine, Decided(r.events)[0], d); }
  }

  lemma DecidedAtMostOne(events: seq<Event>)
    requires ActsFirst(events)
    ensures |Decided(events)| <= 1
  {
    if events != [] {
      forall i | 0 <= i < |events[1..]| ensures !events[1..][i].PermissionDecided? {
        assert events[1..][i] == events[i + 1] && !IsAction(events[i + 1]);
      }
      NothingDecided(events[1..]);
    }
  }
}
