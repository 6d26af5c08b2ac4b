/** The composite of session, pump and machine: what holds at every event boundary. */
module PumpInvariants {
  import opened Prelude
  import opened Acp
  import opened Machine
  import opened MachineInvariants
  import opened Events
  import opened SessionSpec
  import opened SessionInvariants
  import opened SessionRuns
  import opened PermissionQueue
  import opened Messages
  import opened Codec
  import opened PumpSpec
  import opened PumpFrames

  // ---- What the wire says ----

  function RequestIds(wire: seq<Message>): seq<RequestId>
    decreases |wire|
  {
    if wire == [] then []
    else (if wire[0].Request? then [wire[0].id] else []) + RequestIds(wire[1..])
  }

  function FirstIds(n: nat): seq<RequestId> {
    if n == 0 then [] else FirstIds(n - 1) + [IntId(n - 1)]
  }

  /** The text of a `session/prompt` request. */
  function PromptText(params: Json): string {
    var prompt := Get(FieldsOf(params), "prompt");
    if prompt.Arr? && prompt.items != [] then
      var text := Get(FieldsOf(prompt.items[0]), "text");
      if text.Str? then text.s else ""
    else ""
  }

  function SentPrompts(wire: seq<Message>): seq<string>
    decreases |wire|
  {
    if wire == [] then []
    else
      (if wire[0].Request? && wire[0].methodName == SESSION_PROMPT then [PromptText(wire[0].params)] else [])
      + SentPrompts(wire[1..])
  }

  lemma {:induction false} RequestsConcatenate(a: seq<Message>, b: seq<Message>)
    ensures RequestIds(a + b) == RequestIds(a) + RequestIds(b)
    decreases |a|
  {
    if a == [] {
      assert a + b == b;
    } else {
      assert (a + b)[0] == a[0] && (a + b)[1..] == a[1..] + b;
      RequestsConcatenate(a[1..], b);
    }
  }

  lemma {:induction false} PromptsConcatenate(a: seq<Message>, b: seq<Message>)
    ensures SentPrompts(a + b) == SentPrompts(a) + SentPrompts(b)
    decreases |a|
  {
    hide PromptText;
    if a == [] {
      assert a + b == b;
    } else {
      assert (a + b)[0] == a[0] && (a + b)[1..] == a[1..] + b;
      PromptsConcatenate(a[1..], b);
    }
  }

  lemma {:induction false} AnsweredConcatenate(a: seq<Message>, b: seq<Message>)
    ensures Answered(a + b) == Answered(a) + Answered(b)
    decreases |a|
  {
    if a == [] {
      assert a + b == b;
    } else {
      assert (a + b)[0] == a[0] && (a + b)[1..] == a[1..] + b;
      AnsweredConcatenate(a[1..], b);
    }
  }

  lemma WireConcatenates(a: seq<Message>, b: seq<Message>)
    ensures RequestIds(a + b) == RequestIds(a) + RequestIds(b)
    ensures SentPrompts(a + b) == SentPrompts(a) + SentPrompts(b)
    ensures Answered(a + b) == Answered(a) + Answered(b)
  {
    hide *;
    RequestsConcatenate(a, b);
    PromptsConcatenate(a, b);
    AnsweredConcatenate(a, b);
  }

  lemma WireOfOne(m: Message)
    ensures RequestIds([m]) == if m.Request? then [m.id] else []
    ensures SentPrompts([m]) == if m.Request? && m.methodName == SESSION_PROMPT then [PromptText(m.params)] else []
    ensures Answered([m]) == if m.Response? then [m.id] else []
  {
    assert [m][1..] == [];
  }

  /** Replies are not requests. */
  lemma {:induction false} RepliesAreNotRequests(out: seq<Message>)
    requires forall i :: 0 <= i < |out| ==> !out[i].Request?
    ensures RequestIds(out) == [] && SentPrompts(out) == []
    decreases |out|
  {
    if out != [] {
      assert !out[0].Request?;
      RepliesAreNotRequests(out[1..]);
    }
  }

  // ---- The invariant ----

  /** The child's life, accounted for: ids in order and never reused, prompts first in
      first out, accepted requests answered once or still tracked. */
  ghost predicate Counts(life: Life, pump: Pump) {
    && RequestIds(life.wire) == FirstIds(pump.machine.nextId)
    && life.submitted == SentPrompts(life.wire) + pump.pending
    && multiset(life.accepted) == multiset(Answered(life.wire)) + multiset(pump.machine.incoming)
  }

  /** Every effect produced, the milestones apart, was delivered, is held, or is `owed`
      by the drain at work, in production order; before there is a transcript nothing
      was delivered, and nothing held could fail to be rendered. */
  ghost predicate EffectsOk(life: Life, pump: Pump, owed: seq<Effect>) {
    && Deliverable(life.produced) == life.delivered + pump.backlog + owed
    && (pump.transcript.Some? ==> pump.backlog == [])
    && (pump.transcript.None? ==> life.delivered == [] && AllRenderable(pump.backlog))
  }

  ghost predicate Ledger(life: Life, pump: Pump, owed: seq<Effect>) { Counts(life, pump) && EffectsOk(life, pump, owed) }

  /** The machine tracks exactly what is on screen or queued, in the same order,
      around `front` (decided, not yet resolved) and `extra` (accepted, not yet shown). */
  ghost predicate Coupled(machine: Machine, pr: Prompts, front: seq<RequestId>, extra: seq<Permission>) {
    && MachineOk(machine)
    && machine.incoming == front + Outstanding(pr) + Ids(extra)
    && (forall r :: r in Requests(pr) + extra ==> r.id in machine.params && machine.params[r.id] == r.params)
  }

  ghost predicate AliveOk(w: World) {
    !w.pump.alive ==> w.pump == IDLE.(diagnostics := w.pump.diagnostics) && w.life == NEW_LIFE
  }

  /** There is a transcript exactly while the protocol has a session. */
  predicate Bound(pump: Pump) { pump.transcript.Some? <==> Live(pump.machine.phase) }

  /** A child without a session has a prompt waiting for it. */
  predicate Held(pump: Pump) { pump.alive && !Live(pump.machine.phase) ==> pump.pending != [] }

  /** The world between events, and inside a drain that still owes some effects. */
  ghost predicate Owing(w: World, front: seq<RequestId>, extra: seq<Permission>, owed: seq<Effect>) {
    && Body(w) && Ledger(w.life, w.pump, owed) && Coupled(w.pump.machine, w.session.pr, front, extra)
    && AliveOk(w) && Bound(w.pump) && Held(w.pump) && (!w.ended ==> Waiting(w.session.pr))
  }

  ghost predicate Good(w: World, front: seq<RequestId>, extra: seq<Permission>) { Owing(w, front, extra, []) }

  ghost predicate WorldOk(w: World) {
    Fine(w) && (w.crash.None? ==> Good(w, [], []))
  }

  // ---- Sending ----

  lemma CountsReplies(life: Life, pump: Pump, machine: Machine, accepted: seq<RequestId>, out: seq<Message>)
    requires Counts(life, pump) && machine.nextId == pump.machine.nextId
    requires forall i :: 0 <= i < |out| ==> !out[i].Request?
    requires multiset(pump.machine.incoming) + multiset(accepted) == multiset(Answered(out)) + multiset(machine.incoming)
    ensures Counts(life.(wire := life.wire + out, accepted := life.accepted + accepted), pump.(machine := machine))
  {
    hide RequestIds, SentPrompts, Answered, FirstIds;
    WireConcatenates(life.wire, out);
    RepliesAreNotRequests(out);
    assert RequestIds(life.wire) + [] == RequestIds(life.wire);
    assert SentPrompts(life.wire) + [] == SentPrompts(life.wire);
    var (before, now) := (pump.machine.incoming, machine.incoming);
    calc {
      multiset(life.accepted + accepted);
      multiset(life.accepted) + multiset(accepted);
      multiset(Answered(life.wire)) + (multiset(before) + multiset(accepted));
      multiset(Answered(life.wire)) + multiset(Answered(out)) + multiset(now);
      multiset(Answered(life.wire) + Answered(out)) + multiset(now);
    }
  }

  lemma CountsRequest(life: Life, pump: Pump, machine: Machine, request: Message)
    requires Counts(life, pump) && request.Request? && request.id == IntId(pump.machine.nextId)
    requires machine.nextId == pump.machine.nextId + 1 && machine.incoming == pump.machine.incoming
    requires request.methodName == SESSION_PROMPT ==> pump.pending != [] && PromptText(request.params) == pump.pending[0]
    ensures Counts(life.(wire := life.wire + [request]),
                   pump.(machine := machine,
                         pending := if request.methodName == SESSION_PROMPT then pump.pending[1..] else pump.pending))
  {
    hide RequestIds, SentPrompts, Answered, PromptText;
    WireConcatenates(life.wire, [request]);
    WireOfOne(request);
    if request.methodName == SESSION_PROMPT {
      assert pump.pending == [pump.pending[0]] + pump.pending[1..];
      assert SentPrompts(life.wire) + pump.pending == SentPrompts(life.wire) + [pump.pending[0]] + pump.pending[1..];
    } else {
      assert SentPrompts(life.wire) + [] == SentPrompts(life.wire);
    }
    assert Answered(life.wire) + [] == Answered(life.wire);
  }

  lemma AskFacts(m: Machine, text: string, cwd: string)
    ensures Prompt(m, text).Sent? ==> Asks(m, Prompt(m, text), SESSION_PROMPT) && PromptText(Prompt(m, text).request.params) == text
    ensures NewSession(m, cwd).Sent? ==> Asks(m, NewSession(m, cwd), SESSION_NEW)
    ensures Start(m).Sent? ==> Asks(m, Start(m), INITIALIZE)
  {
  }

  predicate Asks(m: Machine, s: Sent, methodName: string)
    requires s.Sent?
  {
    s.request.Request? && s.request.methodName == methodName
    && s.machine.nextId == m.nextId + 1 && s.machine.params == m.params
  }

  /** The request goes out and the machine is the new one. */
  lemma SendRequestFrame(cfg: Config, w: World, s: Sent)
    requires Body(w) && s.Sent?
    ensures Aside(w.(pump := w.pump.(machine := s.machine), life := w.life.(wire := w.life.wire + [s.request])),
                  SendRequest(cfg, w, s))
  {
    hide Send, SessionOk, DeliveryTarget, Aside;
    SendFrame(cfg, w.(pump := w.pump.(machine := s.machine)), s.request);
  }

  lemma SendPendingKeeps(cfg: Config, w: World, front: seq<RequestId>, extra: seq<Permission>, owed: seq<Effect>)
    requires Owing(w, front, extra, owed)
    ensures var w' := SendPending(cfg, w);
      && w'.crash.None? && Owing(w', front, extra, owed) && w'.session.pr == w.session.pr && w'.ended == w.ended
  {
    hide SessionOk, DeliveryTarget, SendRequest, MachineOk, Prompt, RequestIds, SentPrompts, FirstIds, Answered, Grows,
         Deliverable, AllRenderable;
    var m := w.pump.machine;
    if w.pump.pending != [] && m.phase == SESSION_ACTIVE {
      var r := Prompt(m, w.pump.pending[0]);
      PromptKeepsOk(m, w.pump.pending[0]);
      AskFacts(m, w.pump.pending[0], "");
      CountsRequest(w.life, w.pump, r.machine, r.request);
      SendRequestFrame(cfg, w.(pump := w.pump.(pending := w.pump.pending[1..])), r);
    }
  }

  // ---- Delivering ----

  /** What is owed reaches the transcript, or the backlog while there is none; it raises
      exactly on a chunk that is not text. */
  lemma ForwardKeeps(w: World, effects: seq<Effect>, front: seq<RequestId>, extra: seq<Permission>)
    requires Owing(w, front, extra, effects) && w.pump.alive
    requires w.pump.transcript.None? ==> AllRenderable(effects)
    ensures var w' := Forward(w, effects);
      && Fine(w') && (w'.crash.None? <==> AllRenderable(effects))
      && (w'.crash.None? ==> Good(w', front, extra) && w'.session.pr == w.session.pr && w'.ended == w.ended
                             && w'.pump == w.pump.(backlog := w'.pump.backlog))
  {
    hide SessionOk, DeliveryTarget, Forward, MachineOk, RequestIds, SentPrompts, FirstIds, Answered, Grows, AllRenderable,
         Deliverable;
    ForwardFrame(w, effects);
    RenderableJoins(w.pump.backlog, effects);
    assert w.life.delivered + w.pump.backlog + effects == w.life.delivered + (w.pump.backlog + effects) + [];
    if w.pump.transcript.Some? {
      assert w.life.delivered + [] + effects == w.life.delivered + effects + [] + [];
    }
  }

  lemma RenderableJoins(a: seq<Effect>, b: seq<Effect>)
    ensures AllRenderable(a + b) <==> AllRenderable(a) && AllRenderable(b)
  {
    if AllRenderable(a + b) {
      assert forall i :: 0 <= i < |a| ==> (a + b)[i] == a[i];
      assert forall i :: 0 <= i < |b| ==> (a + b)[|a| + i] == b[i];
    }
  }

  // ---- Milestones ----

  lemma SameTracking(m: Machine, m': Machine, pr: Prompts, front: seq<RequestId>, extra: seq<Permission>)
    requires Coupled(m, pr, front, extra) && MachineOk(m') && m'.incoming == m.incoming && m'.params == m.params
    ensures Coupled(m', pr, front, extra)
  {
    hide MachineOk, Outstanding, Requests;
  }

  lemma NewSessionStep(cfg: Config, w: World, extra: seq<Permission>, owed: seq<Effect>)
    requires Body(w) && Ledger(w.life, w.pump, owed) && Coupled(w.pump.machine, w.session.pr, [], extra) && Waiting(w.session.pr)
    requires w.pump.alive && w.pump.machine.phase == READY && w.pump.machine.outgoing == map[] && w.pump.transcript.None?
    requires w.pump.pending != []
    ensures var w' := SendRequest(cfg, w, NewSession(w.pump.machine, cfg.cwd));
      w'.crash.None? && Owing(w', [], extra, owed) && w'.pump.alive && w'.pump.transcript.None? && w'.ended == w.ended
  {
    hide SessionOk, DeliveryTarget, SendRequest, MachineOk, NewSession, Grows, Counts, Coupled, Deliverable, AllRenderable;
    var r := NewSession(w.pump.machine, cfg.cwd);
    CoupledOk(w.pump.machine, w.session.pr, [], extra);
    NewSessionKeepsOk(w.pump.machine, cfg.cwd);
    AskFacts(w.pump.machine, "", cfg.cwd);
    CountsRequest(w.life, w.pump, r.machine, r.request);
    SendRequestFrame(cfg, w, r);
    SameTracking(w.pump.machine, r.machine, w.session.pr, [], extra);
    var w' := SendRequest(cfg, w, r);
    SameCounts(w'.life, w.pump.(machine := r.machine), w'.pump);
  }

  /** The buffer is minted and shown. */
  lemma BindShows(w: World, sid: string)
    requires Body(w)
    ensures var made := Exec(w, CreateAgentBuffer(sid)); var id := Lookup(made.session.ed.agents, sid);
      && made.crash.None? && id.Some?
      && var shown := Exec(made.(pump := made.pump.(transcript := id)), DisplayBuffer(id.value));
         Body(shown) && shown.session.pr == w.session.pr && shown.pump == w.pump.(transcript := id)
         && shown.life == w.life && shown.ended == w.ended && made.life == w.life && made.pump == w.pump
  {
    hide SessionOk, Exec, Grows, Step, AllRenderable;
    ExecPeer(w, CreateAgentBuffer(sid));
    CreationBinds(w.session, CreateAgentBuffer(sid));
    var made := Exec(w, CreateAgentBuffer(sid));
    var id := made.session.ed.agents[sid];
    ExecPeer(made.(pump := made.pump.(transcript := Some(id))), DisplayBuffer(id));
    assert w.life.delivered + [] == w.life.delivered;
  }

  /** Binding lets go of the backlog ahead of what is owed, and cannot raise. */
  lemma BindKeeps(cfg: Config, w: World, sid: string, extra: seq<Permission>, owed: seq<Effect>)
    requires Body(w) && Ledger(w.life, w.pump, owed) && Coupled(w.pump.machine, w.session.pr, [], extra) && Waiting(w.session.pr)
    requires w.pump.alive && w.pump.machine.phase == SESSION_ACTIVE && w.pump.transcript.None?
    ensures var w' := Bind(cfg, w, sid); 
      w'.crash.None? && Owing(w', [], extra, owed) && w'.pump.alive && w'.pump.transcript.Some? && w'.ended == w.ended
  {
    hide SessionOk, DeliveryTarget, Exec, Forward, SendPending, MachineOk, RequestIds, SentPrompts, FirstIds, Answered, Grows,
         AllRenderable, Deliverable;
    BindShows(w, sid);
    var made := Exec(w, CreateAgentBuffer(sid));
    var id := Lookup(made.session.ed.agents, sid);
    var shown := Exec(made.(pump := made.pump.(transcript := id)), DisplayBuffer(id.value));
    var held := w.pump.backlog;
    var emptied := shown.(pump := shown.pump.(backlog := []));
    ForwardFrame(emptied, held);
    var told := Forward(emptied, held);
    assert w.life.delivered + held + owed == (w.life.delivered + held) + [] + owed;
    SendPendingKeeps(cfg, told, [], extra, owed);
    SendPendingAlive(cfg, told);
  }

  lemma SendPendingAlive(cfg: Config, w: World)
    requires Body(w)
    ensures SendPending(cfg, w).pump.alive == w.pump.alive && SendPending(cfg, w).pump.transcript == w.pump.transcript
  {
    hide SessionOk, DeliveryTarget, Send, Grows, Prompt;
    if w.pump.pending != [] && w.pump.machine.phase == SESSION_ACTIVE {
      var r := Prompt(w.pump.machine, w.pump.pending[0]);
      if r.Sent? { SendRequestFrame(cfg, w.(pump := w.pump.(pending := w.pump.pending[1..])), r); }
    }
  }

  lemma SendPendingCrashed(cfg: Config, w: World)
    ensures w.crash.Some? ==> SendPending(cfg, w) == w
  {
  }

  /** The milestones among a drain's effects. */
  function MilestonesOf(effects: seq<Effect>): seq<Effect>
    decreases |effects|
  {
    if effects == [] then []
    else (if Milestone(effects[0]) then [effects[0]] else []) + MilestonesOf(effects[1..])
  }

  lemma {:induction false} MilestonesConcatenate(a: seq<Effect>, b: seq<Effect>)
    ensures MilestonesOf(a + b) == MilestonesOf(a) + MilestonesOf(b)
    ensures Surfaced(a + b) == Surfaced(a) + Surfaced(b)
    decreases |a|
  {
    hide MilestonesOf, Surfaced;
    if a == [] {
      assert a + b == b;
      NothingHappened();
    } else {
      assert (a + b)[0] == a[0] && (a + b)[1..] == a[1..] + b;
      MilestonesConcatenate(a[1..], b);
      FirstEffect(a);
      FirstEffect(a + b);
    }
  }

  lemma NothingHappened()
    ensures MilestonesOf([]) == [] && Surfaced([]) == []
  {
  }

  lemma FirstEffect(effects: seq<Effect>)
    requires effects != []
    ensures MilestonesOf(effects) == (if Milestone(effects[0]) then [effects[0]] else []) + MilestonesOf(effects[1..])
    ensures Surfaced(effects) == (if effects[0].PermissionRequested? then [effects[0].request] else []) + Surfaced(effects[1..])
  {
  }

  lemma {:induction false} SurfacedHaveIds(effects: seq<Effect>)
    ensures Ids(Surfaced(effects)) == SurfacedIds(effects)
    decreases |effects|
  {
    if effects != [] {
      SurfacedHaveIds(effects[1..]);
      if effects[0].PermissionRequested? {
        assert Surfaced(effects) == [effects[0].request] + Surfaced(effects[1..]);
        assert Surfaced(effects)[1..] == Surfaced(effects[1..]);
      } else {
        assert Surfaced(effects) == Surfaced(effects[1..]);
      }
    }
  }

  /** Where a drain stands: no milestone yet, or one that awaits the pump's answer. */
  ghost predicate Stage(pump: Pump, effects: seq<Effect>) {
    var ms := MilestonesOf(effects);
    || (ms == [] && Bound(pump))
    || (|ms| == 1 && ms[0].Initialized? && pump.machine.phase == READY && pump.machine.outgoing == map[] && pump.transcript.None?)
    || (|ms| == 1 && ms[0].SessionEstablished? && pump.machine.phase == SESSION_ACTIVE && pump.machine.outgoing == map[]
        && pump.transcript.None?)
  }

  ghost predicate MidOk(w: World, effects: seq<Effect>) {
    && Body(w) && Ledger(w.life, w.pump, Deliverable(effects)) && Coupled(w.pump.machine, w.session.pr, [], Surfaced(effects))
    && (w.pump.transcript.None? ==> AllRenderable(effects))
    && w.pump.alive && Stage(w.pump, effects) && Held(w.pump) && !w.ended && Waiting(w.session.pr)
  }

  /** What one milestone makes of the world. */
  function Milestone1(cfg: Config, w: World, e: Effect): World {
    match e
    case Initialized(_) => SendRequest(cfg, w, NewSession(w.pump.machine, cfg.cwd))
    case SessionEstablished(sid) => Bind(cfg, w, sid)
    case _ => w
  }

  lemma {:induction false} MilestonesAreFew(cfg: Config, w: World, effects: seq<Effect>)
    ensures MilestonesOf(effects) == [] ==> Milestones(cfg, w, effects) == w
    ensures |MilestonesOf(effects)| == 1 ==> Milestones(cfg, w, effects) == Milestone1(cfg, w, MilestonesOf(effects)[0])
    decreases |effects|
  {
    hide Bind, SendRequest;
    if effects != [] {
      var next := Milestone1(cfg, w, effects[0]);
      MilestonesAreFew(cfg, next, effects[1..]);
      if Milestone(effects[0]) {
        assert MilestonesOf(effects) == [effects[0]] + MilestonesOf(effects[1..]);
      } else {
        assert MilestonesOf(effects) == MilestonesOf(effects[1..]);
      }
    }
  }

  lemma MilestonesKeep(cfg: Config, w: World, effects: seq<Effect>)
    requires MidOk(w, effects)
    ensures var w' := Milestones(cfg, w, effects);
      w'.crash.None? && Owing(w', [], Surfaced(effects), Deliverable(effects)) && w'.pump.alive && !w'.ended
      && (w'.pump.transcript.None? ==> AllRenderable(effects))
      && (w.pump.transcript.Some? ==> w' == w) && (w.pump.transcript.None? ==> AllRenderable(effects))
  {
    hide Body, Ledger, Coupled, Bind, SendRequest, Milestones, MilestonesOf, Waiting, Deliverable, AllRenderable;
    MilestonesAreFew(cfg, w, effects);
    var ms := MilestonesOf(effects);
    if |ms| == 1 && ms[0].Initialized? {
      NewSessionStep(cfg, w, Surfaced(effects), Deliverable(effects));
    } else if |ms| == 1 && ms[0].SessionEstablished? {
      BindKeeps(cfg, w, ms[0].sessionId, Surfaced(effects), Deliverable(effects));
    } else {
      NoCrash(w);
    }
  }

  lemma NoCrash(w: World)
    requires Body(w)
    ensures w.crash.None?
  {
  }

  // ---- Presenting ----

  lemma PromptPermissionStep(s: Session, request: Permission)
    requires SessionOk(s) && Waiting(s.pr)
    ensures var r := Step(s, PromptPermission(request), None);
      && !r.raised && SessionOk(r.session) && Waiting(r.session.pr) && Grows(s.ed, r.session.ed)
      && Outstanding(r.session.pr) == Outstanding(s.pr) + [request.id]
      && (forall p :: p in Requests(r.session.pr) ==> p in Requests(s.pr) || p == request)
      && DeliveredBy(r.events) == []
  {
    hide EditorOk, Settle, Outstanding, Requests, Grows, PendingOk;
    var c := PromptPermission(request);
    StepKeepsSessionOk(s, c, None);
    StepAccounts(s, c, None);
    StepRequests(s, c, None);
    var events := Step(s, c, None).events;
    NothingDecided(events);
    NothingDelivered(events);
    assert [] + Outstanding(Step(s, c, None).session.pr) == Outstanding(Step(s, c, None).session.pr);
  }

  lemma PresentOne(w: World, request: Permission, rest: seq<Permission>)
    requires Good(w, [], [request] + rest) && !w.ended
    ensures var w' := Exec(w, PromptPermission(request));
      w'.crash.None? && Good(w', [], rest) && !w'.ended && w'.pump == w.pump
  {
    hide SessionOk, DeliveryTarget, Step, MachineOk, Outstanding, Requests, Grows, Ledger, Waiting;
    PromptPermissionStep(w.session, request);
    var s' := Step(w.session, PromptPermission(request), None).session;
    assert ([request] + rest)[1..] == rest;
    assert [] + Outstanding(w.session.pr) + Ids([request] + rest) == [] + Outstanding(s'.pr) + Ids(rest);
    assert w.life.delivered + [] == w.life.delivered;
    GrowthKeepsTargets(w, s'.ed);
  }

  lemma {:induction false} PresentKeeps(w: World, effects: seq<Effect>)
    requires Good(w, [], Surfaced(effects)) && !w.ended
    ensures var w' := PresentRequests(w, effects); w'.crash.None? && Good(w', [], []) && w'.pump == w.pump
    decreases |effects|
  {
    hide Good, Exec;
    if effects == [] {
      GoodBody(w, [], []);
    } else if effects[0].PermissionRequested? {
      PresentOne(w, effects[0].request, Surfaced(effects[1..]));
      PresentKeeps(Exec(w, PromptPermission(effects[0].request)), effects[1..]);
    } else {
      assert Surfaced(effects) == Surfaced(effects[1..]);
      PresentKeeps(w, effects[1..]);
    }
  }

  lemma GoodBody(w: World, front: seq<RequestId>, extra: seq<Permission>)
    requires Good(w, front, extra)
    ensures Body(w) && w.crash.None?
  {
  }

  lemma {:induction false} PresentCrashed(w: World, effects: seq<Effect>)
    requires w.crash.Some?
    ensures PresentRequests(w, effects) == w
    decreases |effects|
  {
    if effects != [] { PresentCrashed(w, effects[1..]); }
  }

  /** Acting on a drain keeps the world good, or raises on a chunk that is not text. */
  lemma ApplyKeeps(cfg: Config, w: World, effects: seq<Effect>)
    requires MidOk(w, effects)
    ensures var w' := ApplyEffects(cfg, w, effects);
      WorldOk(w') && (w'.crash.None? <==> AllRenderable(effects))
  {
    hide Milestones, Forward, PresentRequests, SendPending, Owing, MidOk, Deliverable, AllRenderable;
    var met := Milestones(cfg, w, effects);
    MilestonesKeep(cfg, w, effects);
    DeliverableRenderable(effects);
    ForwardKeeps(met, Deliverable(effects), [], Surfaced(effects));
    var told := Forward(met, Deliverable(effects));
    if told.crash.None? {
      PresentKeeps(told, effects);
      SendPendingKeeps(cfg, PresentRequests(told, effects), [], [], []);
    } else {
      PresentCrashed(told, effects);
      SendPendingCrashed(cfg, told);
    }
  }

  /** Milestones are always renderable. */
  lemma {:induction false} DeliverableRenderable(effects: seq<Effect>)
    ensures AllRenderable(Deliverable(effects)) <==> AllRenderable(effects)
    decreases |effects|
  {
    hide AllRenderable;
    if effects != [] {
      DeliverableRenderable(effects[1..]);
      assert effects == [effects[0]] + effects[1..];
      RenderableJoins([effects[0]], effects[1..]);
      RenderableJoins(if Milestone(effects[0]) then [] else [effects[0]], Deliverable(effects[1..]));
      OneRenderable(effects[0]);
    }
  }

  lemma OneRenderable(e: Effect)
    ensures AllRenderable([e]) <==> Renderable(e)
    ensures AllRenderable([])
  {
    assert [e][0] == e;
  }

  lemma {:induction false} DeliverableConcatenates(a: seq<Effect>, b: seq<Effect>)
    ensures Deliverable(a + b) == Deliverable(a) + Deliverable(b)
    decreases |a|
  {
    if a == [] {
      assert a + b == b;
    } else {
      assert (a + b)[0] == a[0] && (a + b)[1..] == a[1..] + b;
      DeliverableConcatenates(a[1..], b);
    }
  }

  // ---- Folding decoded lines ----

  /** What an envelope can do to the handshake. */
  lemma HandleStages(m: Machine, message: Message)
    requires MachineOk(m) && Handle(m, message).Folded?
    ensures var r := Handle(m, message);
      && (MilestonesOf(r.effects) == [] ==>
            && (Live(r.machine.phase) <==> Live(m.phase))
            && (m.outgoing == map[] ==> r.machine.phase == m.phase && r.machine.outgoing == map[]))
      && (MilestonesOf(r.effects) != [] ==>
            && m.outgoing != map[] && r.machine.outgoing == map[] && |MilestonesOf(r.effects)| == 1
            && !Live(m.phase) && Milestone(MilestonesOf(r.effects)[0])
            && (MilestonesOf(r.effects)[0].Initialized? ==> r.machine.phase == READY)
            && (MilestonesOf(r.effects)[0].SessionEstablished? ==> r.machine.phase == SESSION_ACTIVE))
  {
    hide HandleRequest, HandleResult, HandleError, HandleNotification, MachineOk, MilestonesOf, Live;
    match message {
      case Request(id, methodName, params) => RequestStages(m, id, methodName, params);
      case Response(id, result) => ResultStages(m, id, result);
      case ResponseError(id, code, text, _) => ErrorStages(m, id, code, text);
      case Notification(methodName, params) => NotificationStages(m, methodName, params);
    }
  }

  lemma ResultStages(m: Machine, id: RequestId, result: Json)
    requires MachineOk(m)
    ensures var r := HandleResult(m, id, result); var ms := MilestonesOf(r.effects);
      && r.Folded?
      && (ms == [] ==>
            && (Live(r.machine.phase) <==> Live(m.phase))
            && (m.outgoing == map[] ==> r.machine.phase == m.phase && r.machine.outgoing == map[]))
      && (ms != [] ==>
            && m.outgoing != map[] && r.machine.outgoing == map[] && |ms| == 1 && !Live(m.phase) && Milestone(ms[0])
            && (ms[0].Initialized? ==> r.machine.phase == READY)
            && (ms[0].SessionEstablished? ==> r.machine.phase == SESSION_ACTIVE))
  {
    hide MilestonesOf, IncomingOk;
    var r := HandleResult(m, id, result);
    if r.effects != [] {
      assert r.effects == [r.effects[0]];
      MilestoneOfOne(r.effects[0]);
    } else {
      MilestoneOfOne(Initialized(Null));
    }
    if id in m.outgoing { assert m.outgoing - {id} == map[]; }
  }

  lemma ErrorStages(m: Machine, id: Option<RequestId>, code: int, text: string)
    requires MachineOk(m)
    ensures var r := HandleError(m, id, code, text);
      && r.Folded? && MilestonesOf(r.effects) == [] && (Live(r.machine.phase) <==> Live(m.phase))
      && (m.outgoing == map[] ==> r.machine.phase == m.phase && r.machine.outgoing == map[])
  {
    hide MilestonesOf, IncomingOk;
    var r := HandleError(m, id, code, text);
    assert r.effects == [r.effects[0]];
    MilestoneOfOne(r.effects[0]);
    if id.Some? && id.value in m.outgoing { assert m.outgoing - {id.value} == map[]; }
  }

  lemma NotificationStages(m: Machine, methodName: string, params: Json)
    ensures var r := HandleNotification(m, methodName, params);
      r.Folded? ==> MilestonesOf(r.effects) == [] && r.machine == m
  {
    hide MilestonesOf;
    var r := HandleNotification(m, methodName, params);
    if r.Folded? && r.effects != [] {
      assert r.effects == [r.effects[0]];
      MilestoneOfOne(r.effects[0]);
    } else {
      MilestoneOfOne(Initialized(Null));
    }
  }

  lemma MilestoneOfOne(e: Effect)
    ensures MilestonesOf([e]) == if Milestone(e) then [e] else []
    ensures Surfaced([e]) == if e.PermissionRequested? then [e.request] else []
    ensures MilestonesOf([]) == [] && Surfaced([]) == []
  {
    assert [e][1..] == [];
  }

  lemma RequestStages(m: Machine, id: RequestId, methodName: string, params: Json)
    requires MachineOk(m) && HandleRequest(m, id, methodName, params).Folded?
    ensures var r := HandleRequest(m, id, methodName, params);
      MilestonesOf(r.effects) == [] && r.machine.phase == m.phase && r.machine.outgoing == m.outgoing
  {
    hide KindOf, Options, IdentityOf, SelectAuto, Resolve, MachineOk, HandleRequest, Live;
    RequestCases(m, id, methodName, params);
    var r, pick := HandleRequest(m, id, methodName, params), SelectAuto(Options(params));
    if Admissible(m, id, methodName) && pick.Picked? {
      TrackKeepsOk(m, id, params);
      ResolveKeepsOk(Track(m, id, params), id, Selected(pick.id));
    }
    if r.effects != [] {
      assert r.effects == [r.effects[0]];
      MilestoneOfOne(r.effects[0]);
    }
  }

  /** Tracked parameters are those of the requests, and an accepted request is
      either answered or surfaced. */
  ghost predicate Tracks(m: Machine, message: Message, r: Folded)
    requires r.Folded?
  {
    && (forall id :: id in m.params ==> id in r.machine.params && r.machine.params[id] == m.params[id])
    && (forall p :: p in Surfaced(r.effects) ==> p.id in r.machine.params && r.machine.params[p.id] == p.params)
    && (forall i :: 0 <= i < |r.out| ==> !r.out[i].Request?)
    && (if Accepts(m, message) then [message.id] else []) == Answered(r.out) + SurfacedIds(r.effects)
  }

  /** An envelope that replies and surfaces nothing leaves the tracking alone. */
  lemma QuietTracks(m: Machine, message: Message, r: Folded)
    requires r.Folded? && r.machine.params == m.params && |r.effects| <= 1 && |r.out| <= 1
    requires r.effects != [] ==> !r.effects[0].PermissionRequested?
    requires r.out != [] ==> r.out[0].ResponseError?
    requires !Accepts(m, message)
    ensures Tracks(m, message, r)
  {
    if r.effects != [] {
      assert r.effects == [r.effects[0]];
      MilestoneOfOne(r.effects[0]);
      SingleSurfaced(r.effects[0]);
    }
    if r.out != [] {
      assert r.out == [r.out[0]];
      SingleAnswered(r.out[0]);
    }
  }

  /** A permission request is refused, put to the human, or answered from the cache. */
  lemma PermissionOutcome(m: Machine, id: RequestId, params: Json)
    requires MachineOk(m) && HandleRequest(m, id, REQUEST_PERMISSION, params).Folded?
    ensures var r := HandleRequest(m, id, REQUEST_PERMISSION, params);
      && |r.effects| == 1
      && (if !Admissible(m, id, REQUEST_PERMISSION) then r.machine == m && r.out == [] && r.effects[0].ProtocolError?
          else
            || (r.machine == Track(m, id, params) && r.out == [] && r.effects[0] == PermissionRequested(Permission(id, params))
                && id !in m.params)
            || (r.machine.params == m.params && |r.out| == 1 && r.out[0].Response? && r.out[0].id == id
                && r.effects[0].PermissionResolved?))
  {
    hide KindOf, Options, IdentityOf, SelectAuto, OutgoingOk;
    var r := HandleRequest(m, id, REQUEST_PERMISSION, params);
    if r.effects[0].PermissionResolved? {
      assert id !in m.params && r.machine.params == m.params[id := params] - {id};
    }
  }

  lemma PermissionTracks(m: Machine, id: RequestId, params: Json)
    requires MachineOk(m) && HandleRequest(m, id, REQUEST_PERMISSION, params).Folded?
    ensures Tracks(m, Request(id, REQUEST_PERMISSION, params), HandleRequest(m, id, REQUEST_PERMISSION, params))
  {
    hide HandleRequest, MachineOk;
    PermissionOutcome(m, id, params);
    var r := HandleRequest(m, id, REQUEST_PERMISSION, params);
    assert r.effects == [r.effects[0]];
    MilestoneOfOne(r.effects[0]);
    SingleSurfaced(r.effects[0]);
    if r.out != [] {
      assert r.out == [r.out[0]];
      SingleAnswered(r.out[0]);
    }
  }

  lemma HandleTracks(m: Machine, message: Message)
    requires MachineOk(m) && Handle(m, message).Folded?
    ensures Tracks(m, message, Handle(m, message))
  {
    hide MachineOk, HandleResult, HandleError, HandleNotification, HandleRequest, Tracks;
    match message {
      case Response(id, result) => ResultQuiet(m, id, result); QuietTracks(m, message, Handle(m, message));
      case ResponseError(id, code, text, data) => ErrorQuiet(m, id, code, text); QuietTracks(m, message, Handle(m, message));
      case Notification(methodName, params) =>
        NotificationQuiet(m, methodName, params);
        QuietTracks(m, message, Handle(m, message));
      case Request(id, methodName, params) =>
        if methodName == REQUEST_PERMISSION { PermissionTracks(m, id, params); }
        else { OtherQuiet(m, id, methodName, params); QuietTracks(m, message, Handle(m, message)); }
    }
  }

  lemma ResultQuiet(m: Machine, id: RequestId, result: Json)
    ensures var r := HandleResult(m, id, result);
      r.Folded? && r.machine.params == m.params && |r.effects| <= 1 && r.out == []
      && (r.effects != [] ==> !r.effects[0].PermissionRequested?)
  {
  }

  lemma ErrorQuiet(m: Machine, id: Option<RequestId>, code: int, text: string)
    ensures var r := HandleError(m, id, code, text);
      r.Folded? && r.machine.params == m.params && |r.effects| <= 1 && r.out == []
      && (r.effects != [] ==> !r.effects[0].PermissionRequested?)
  {
  }

  lemma NotificationQuiet(m: Machine, methodName: string, params: Json)
    ensures var r := HandleNotification(m, methodName, params);
      r.Folded? ==> r.machine.params == m.params && |r.effects| <= 1 && r.out == []
                    && (r.effects != [] ==> !r.effects[0].PermissionRequested?)
  {
  }

  lemma OtherQuiet(m: Machine, id: RequestId, methodName: string, params: Json)
    requires methodName != REQUEST_PERMISSION
    ensures var r := HandleRequest(m, id, methodName, params);
      r.Folded? && r.machine == m && r.effects == [] && |r.out| == 1 && r.out[0].ResponseError?
  {
  }

  lemma CleanFacts(m: Machine, message: Message, r: Folded)
    requires r.Folded? && FoldsCleanly(m, message, r) && Tracks(m, message, r)
    ensures MachineOk(r.machine) && r.machine.nextId == m.nextId && r.machine.incoming == m.incoming + SurfacedIds(r.effects)
    ensures multiset(m.incoming) + multiset(if Accepts(m, message) then [message.id] else [])
            == multiset(Answered(r.out)) + multiset(r.machine.incoming)
  {
    hide MachineOk, SurfacedIds, Answered, Accepts, Surfaced;
    AcceptsRequest(m, message);
    var accepted := if Accepts(m, message) then [message.id] else [];
    assert multiset(accepted) == multiset(Answered(r.out)) + multiset(SurfacedIds(r.effects));
  }

  lemma AcceptsRequest(m: Machine, message: Message)
    ensures Accepts(m, message) ==> message.Request?
  {
  }

  lemma TrackFacts(m: Machine, message: Message, r: Folded)
    requires r.Folded? && Tracks(m, message, r)
    ensures forall id :: id in m.params ==> id in r.machine.params && r.machine.params[id] == m.params[id]
    ensures forall p :: p in Surfaced(r.effects) ==> p.id in r.machine.params && r.machine.params[p.id] == p.params
  {
    hide SurfacedIds, Answered, Accepts, Surfaced;
  }

  /** The tracked requests grow by what the message surfaces. */
  lemma MessageCouples(m: Machine, pr: Prompts, acc: seq<Effect>, message: Message)
    requires Coupled(m, pr, [], Surfaced(acc)) && Handle(m, message).Folded?
    ensures var r := Handle(m, message);
      && Coupled(r.machine, pr, [], Surfaced(acc + r.effects))
      && r.machine.nextId == m.nextId
      && multiset(m.incoming) + multiset(if Accepts(m, message) then [message.id] else [])
         == multiset(Answered(r.out)) + multiset(r.machine.incoming)
  {
    hide Handle, MachineOk, Outstanding, Requests, Accepts, MilestonesOf, Surfaced, SurfacedIds, Ids, Answered, Tracks, FoldsCleanly;
    var r := Handle(m, message);
    HandleKeepsOk(m, message);
    HandleTracks(m, message);
    MilestonesConcatenate(acc, r.effects);
    IdsConcatenate(Surfaced(acc), Surfaced(r.effects));
    SurfacedHaveIds(r.effects);
    CleanFacts(m, message, r);
    TrackFacts(m, message, r);
    assert [] + Outstanding(pr) + Ids(Surfaced(acc)) + Ids(Surfaced(r.effects))
           == [] + Outstanding(pr) + Ids(Surfaced(acc + r.effects));
    forall p | p in Requests(pr) + Surfaced(acc + r.effects)
      ensures p.id in r.machine.params && r.machine.params[p.id] == p.params
    {
      if p in Requests(pr) + Surfaced(acc) { assert p.id in m.params; } else { assert p in Surfaced(r.effects); }
    }
  }

  /** Before a turn nothing the machine reports could fail to be rendered. */
  lemma OutsideTurnsRenderable(m: Machine, message: Message)
    requires m.phase != PROMPT_IN_FLIGHT && Handle(m, message).Folded?
    ensures AllRenderable(Handle(m, message).effects)
  {
    hide HandleRequest;
    if message.Request? { RequestRenderable(m, message.id, message.methodName, message.params); }
  }

  lemma RequestRenderable(m: Machine, id: RequestId, methodName: string, params: Json)
    requires HandleRequest(m, id, methodName, params).Folded?
    ensures AllRenderable(HandleRequest(m, id, methodName, params).effects)
  {
    hide KindOf, Options, IdentityOf, SelectAuto;
  }

  /** What comes out of the machine is produced, and owed. */
  lemma EffectsGrow(life: Life, pump: Pump, life': Life, pump': Pump, acc: seq<Effect>, more: seq<Effect>)
    requires EffectsOk(life, pump, Deliverable(acc))
    requires life'.produced == life.produced + more && life'.delivered == life.delivered
    requires pump'.backlog == pump.backlog && pump'.transcript == pump.transcript
    ensures EffectsOk(life', pump', Deliverable(acc + more))
  {
    hide Deliverable, AllRenderable;
    DeliverableConcatenates(life.produced, more);
    DeliverableConcatenates(acc, more);
    assert life.delivered + pump.backlog + Deliverable(acc) + Deliverable(more)
           == life.delivered + pump.backlog + (Deliverable(acc) + Deliverable(more));
  }

  /** One message folds into the drain. */
  lemma MessageKeeps(cfg: Config, w: World, acc: seq<Effect>, message: Message)
    requires MidOk(w, acc) && Handle(w.pump.machine, message).Folded?
    ensures var r := Handle(w.pump.machine, message);
      MidOk(Folded1(cfg, w, message, r.machine, r.out, r.effects), acc + r.effects)
  {
    hide Held, SessionOk, DeliveryTarget, SendAll, Counts, EffectsOk, Coupled, Grows, Handle, Outstanding, MilestonesOf, Surfaced,
         Waiting, Stage, Deliverable, AllRenderable, Produced;
    var m := w.pump.machine;
    var r := Handle(m, message);
    MessageCouples(m, w.session.pr, acc, message);
    CoupledOk(m, w.session.pr, [], Surfaced(acc));
    HandleStages(m, message);
    MilestonesConcatenate(acc, r.effects);
    var accepted := if Accepts(m, message) then [message.id] else [];
    HandleTracks(m, message);
    CountsReplies(w.life, w.pump, r.machine, accepted, r.out);
    var noted := w.(pump := w.pump.(machine := r.machine), life := w.life.(accepted := w.life.accepted + accepted));
    var moved := Produced(noted, r.effects);
    ProducedIs(noted, r.effects);
    SendAllFrame(cfg, moved, r.out);
    StageAdvances(w.pump, acc, r);
    var w' := Folded1(cfg, w, message, r.machine, r.out, r.effects);
    CountsIgnore(w'.life, moved.life.(wire := moved.life.wire + r.out), w.life.(wire := w.life.wire + r.out, accepted := w.life.accepted + accepted),
                 w.pump.(machine := r.machine), w'.pump);
    EffectsGrow(w.life, w.pump, w'.life, w'.pump, acc, r.effects);
    SameStage(w.pump.(machine := r.machine), w'.pump, acc + r.effects);
    HeldStays(w.pump, message, w'.pump);
    if w.pump.transcript.None? { UnboundRenders(w.pump, acc, message); }
  }

  lemma HeldStays(pump: Pump, message: Message, pump': Pump)
    requires MachineOk(pump.machine) && Held(pump) && Handle(pump.machine, message).Folded?
    requires pump'.machine == Handle(pump.machine, message).machine && pump'.pending == pump.pending && pump'.alive == pump.alive
    ensures Held(pump')
  {
    hide Handle, MachineOk, MilestonesOf;
    HandleStages(pump.machine, message);
  }

  lemma UnboundRenders(pump: Pump, acc: seq<Effect>, message: Message)
    requires Stage(pump, acc) && pump.transcript.None? && AllRenderable(acc) && Handle(pump.machine, message).Folded?
    ensures AllRenderable(acc + Handle(pump.machine, message).effects)
  {
    hide Handle, Stage, AllRenderable;
    UnboundIsOutside(pump, acc);
    OutsideTurnsRenderable(pump.machine, message);
    RenderableJoins(acc, Handle(pump.machine, message).effects);
  }

  lemma ProducedIs(w: World, effects: seq<Effect>)
    ensures Produced(w, effects) == w.(life := w.life.(produced := w.life.produced + effects))
  {
  }

  lemma UnboundIsOutside(pump: Pump, acc: seq<Effect>)
    requires Stage(pump, acc) && pump.transcript.None?
    ensures pump.machine.phase != PROMPT_IN_FLIGHT
  {
    hide MilestonesOf;
  }

  /** The counts look at neither the effects nor the diagnostics buffer. */
  lemma CountsIgnore(life: Life, same: Life, other: Life, pump: Pump, pump': Pump)
    requires life == same && Counts(other, pump)
    requires same.wire == other.wire && same.submitted == other.submitted && same.accepted == other.accepted
    requires pump'.machine == pump.machine && pump'.pending == pump.pending
    ensures Counts(life, pump')
  {
  }

  lemma CoupledOk(m: Machine, pr: Prompts, front: seq<RequestId>, extra: seq<Permission>)
    requires Coupled(m, pr, front, extra)
    ensures MachineOk(m)
  {
  }

  /** The ledger does not look at the diagnostics buffer. */
  lemma SameCounts(life: Life, pump: Pump, pump': Pump)
    requires Counts(life, pump) && pump' == pump.(diagnostics := pump'.diagnostics)
    ensures Counts(life, pump')
  {
  }

  lemma SameStage(pump: Pump, pump': Pump, effects: seq<Effect>)
    requires Stage(pump, effects) && pump' == pump.(diagnostics := pump'.diagnostics)
    ensures Stage(pump', effects)
  {
  }

  lemma StageAdvances(pump: Pump, acc: seq<Effect>, r: Folded)
    requires r.Folded? && Stage(pump, acc)
    requires MilestonesOf(acc + r.effects) == MilestonesOf(acc) + MilestonesOf(r.effects)
    requires MilestonesOf(r.effects) == [] ==>
               && (Live(r.machine.phase) <==> Live(pump.machine.phase))
               && (pump.machine.outgoing == map[] ==> r.machine.phase == pump.machine.phase && r.machine.outgoing == map[])
    requires MilestonesOf(r.effects) != [] ==>
               && pump.machine.outgoing != map[] && r.machine.outgoing == map[] && |MilestonesOf(r.effects)| == 1
               && !Live(pump.machine.phase)
               && Milestone(MilestonesOf(r.effects)[0])
               && (MilestonesOf(r.effects)[0].Initialized? ==> r.machine.phase == READY)
               && (MilestonesOf(r.effects)[0].SessionEstablished? ==> r.machine.phase == SESSION_ACTIVE)
    ensures Stage(pump.(machine := r.machine), acc + r.effects)
  {
    hide MilestonesOf;
    if MilestonesOf(r.effects) == [] {
      assert MilestonesOf(acc) + [] == MilestonesOf(acc);
    } else {
      assert [] + MilestonesOf(r.effects) == MilestonesOf(r.effects);
    }
  }

  /** A line that is no envelope is reported. */
  lemma ErrorKeeps(w: World, acc: seq<Effect>, d: Detail)
    requires MidOk(w, acc)
    ensures MidOk(Reported(w, ProtocolError(d)).0, acc + [ProtocolError(d)])
  {
    hide SessionOk, DeliveryTarget, Counts, EffectsOk, MachineOk, Outstanding, Requests, MilestonesOf, Surfaced, Waiting, Deliverable, AllRenderable;
    var more := [ProtocolError(d)];
    MilestonesConcatenate(acc, more);
    MilestoneOfOne(ProtocolError(d));
    assert MilestonesOf(acc) + [] == MilestonesOf(acc) && Surfaced(acc) + [] == Surfaced(acc);
    var w' := Reported(w, ProtocolError(d)).0;
    CountsIgnore(w'.life, w'.life, w.life, w.pump, w'.pump);
    EffectsGrow(w.life, w.pump, w'.life, w'.pump, acc, more);
    OneRenderable(ProtocolError(d));
    RenderableJoins(acc, more);
  }

  // ---- The protocol alone ----

  /** What decoded lines do to the machine, whether one of them raises, and what
      they put on the wire, accept and report. */
  datatype Folding = Folding(machine: Machine, out: seq<Message>, accepted: seq<RequestId>, effects: seq<Effect>, ok: bool)

  function Protocol1(m: Machine, result: DecodeResult): Folding {
    match result
    case DecodeFailure(line) => Folding(m, [], [], [ProtocolError(InvalidJson(line))], true)
    case ReaderRaised(_) => Folding(m, [], [], [], false)
    case DecodedFrame(value) =>
      match ParseMessage(value)
      case None => Folding(m, [], [], [ProtocolError(InvalidEnvelope(value))], true)
      case Some(message) =>
        match Handle(m, message)
        case Folded(machine, out, effects) =>
          Folding(machine, out, if Accepts(m, message) then [message.id] else [], effects, true)
        case _ => Folding(m, [], [], [], false)
  }

  function Protocol(m: Machine, results: seq<DecodeResult>): Folding
    decreases |results|
  {
    if results == [] then Folding(m, [], [], [], true)
    else
      var first := Protocol1(m, results[0]);
      if !first.ok then first
      else
        var rest := Protocol(first.machine, results[1..]);
        Folding(rest.machine, first.out + rest.out, first.accepted + rest.accepted, first.effects + rest.effects, rest.ok)
  }

  /** Folding one line keeps the drain in order, or raises exactly when the protocol does. */
  lemma FoldResultKeeps(cfg: Config, w: World, acc: seq<Effect>, result: DecodeResult)
    requires MidOk(w, acc)
    ensures var r := FoldResult(cfg, w, result); var p := Protocol1(w.pump.machine, result);
      && Fine(r.0) && (r.0.crash.None? <==> p.ok)
      && (p.ok ==> MidOk(r.0, acc + r.1) && r.1 == p.effects && r.0.pump.machine == p.machine)
  {
    hide MidOk, Handle, Folded1, ParseMessage, Accepts, Reported;
    MidBody(w, acc);
    match result {
      case DecodeFailure(line) =>
        ErrorKeeps(w, acc, InvalidJson(line));
        ReportedIs(w, acc, ProtocolError(InvalidJson(line)));
      case ReaderRaised(_) =>
      case DecodedFrame(value) =>
        match ParseMessage(value)
        case None =>
          ErrorKeeps(w, acc, InvalidEnvelope(value));
          ReportedIs(w, acc, ProtocolError(InvalidEnvelope(value)));
        case Some(message) =>
          if Handle(w.pump.machine, message).Folded? {
            MessageKeeps(cfg, w, acc, message);
            var r := Handle(w.pump.machine, message);
            MidBody(Folded1(cfg, w, message, r.machine, r.out, r.effects), acc + r.effects);
            FoldedMachine(cfg, w, message, r);
          }
    }
  }

  lemma ReportedIs(w: World, acc: seq<Effect>, e: Effect)
    ensures var r := Reported(w, e); r.1 == [e] && r.0.crash == w.crash && r.0.pump == w.pump
  {
  }

  lemma FoldedMachine(cfg: Config, w: World, message: Message, r: Folded)
    requires Body(w) && r.Folded?
    ensures Folded1(cfg, w, message, r.machine, r.out, r.effects).pump.machine == r.machine
  {
    hide SessionOk, DeliveryTarget, SendAll, Grows, Accepts;
    AcceptsRequest(w.pump.machine, message);
    var accepted := if Accepts(w.pump.machine, message) then [message.id] else [];
    SendAllFrame(cfg, Produced(w.(pump := w.pump.(machine := r.machine), life := w.life.(accepted := w.life.accepted + accepted)), r.effects),
                 r.out);
  }

  lemma MidBody(w: World, acc: seq<Effect>)
    requires MidOk(w, acc)
    ensures w.crash.None? && Body(w)
  {
  }

  lemma {:induction false} FoldCrashed(cfg: Config, w: World, results: seq<DecodeResult>)
    requires w.crash.Some?
    ensures FoldResults(cfg, w, results) == (w, [])
    decreases |results|
  {
    if results != [] {
      FoldCrashed(cfg, w, results[1..]);
      var none: seq<Effect> := [];
      assert none + none == none;
    }
  }

  lemma {:induction false} FoldResultsKeep(cfg: Config, w: World, acc: seq<Effect>, results: seq<DecodeResult>)
    requires MidOk(w, acc)
    ensures var r := FoldResults(cfg, w, results); var p := Protocol(w.pump.machine, results);
      && Fine(r.0) && (r.0.crash.None? <==> p.ok)
      && (p.ok ==> MidOk(r.0, acc + r.1) && r.1 == p.effects && r.0.pump.machine == p.machine)
    decreases |results|
  {
    hide MidOk, FoldResult, Protocol1;
    MidBody(w, acc);
    if results == [] {
      assert acc + [] == acc;
    } else {
      FoldResultKeeps(cfg, w, acc, results[0]);
      var first := FoldResult(cfg, w, results[0]);
      if first.0.crash.None? {
        FoldResultsKeep(cfg, first.0, acc + first.1, results[1..]);
        var rest := FoldResults(cfg, first.0, results[1..]);
        assert acc + first.1 + rest.1 == acc + (first.1 + rest.1);
      } else {
        FoldCrashed(cfg, first.0, results[1..]);
      }
    }
  }

  /** An exception of the reader leaves nothing to act on. */
  lemma {:induction false} InterruptedFails(m: Machine, results: seq<DecodeResult>)
    requires Interrupted(results)
    ensures !Protocol(m, results).ok
    decreases |results|
  {
    var i :| 0 <= i < |results| && results[i].ReaderRaised?;
    if i > 0 && Protocol1(m, results[0]).ok {
      assert results[1..][i - 1] == results[i];
      InterruptedFails(Protocol1(m, results[0]).machine, results[1..]);
    }
  }

  /** A drain of any bytes keeps the world good, or raises exactly when one of its
      lines does or a chunk it reports is not text. */
  lemma ReceiveKeeps(cfg: Config, w: World, data: Bytes)
    requires WorldOk(w) && w.crash.None? && !w.ended
    ensures var w' := Receive(cfg, w, data);
      var p := Protocol(w.pump.machine, Codec.Drain(cfg.text, w.pump.decoder + data).0);
      WorldOk(w') && (w'.crash.None? <==> !w.pump.alive || (p.ok && AllRenderable(p.effects)))
  {
    hide FoldResults, ApplyEffects, Body, Ledger, Coupled, Waiting, Codec.Drain, Protocol, AllRenderable, Interrupted, Behind;
    if w.pump.alive {
      var drained := Codec.Drain(cfg.text, w.pump.decoder + data);
      if Interrupted(drained.0) {
        InterruptedFails(w.pump.machine, drained.0);
      } else {
        var start := w.(pump := w.pump.(decoder := drained.1));
        DecoderAside(w, drained.1);
        FoldResultsKeep(cfg, start, [], drained.0);
        var folded := FoldResults(cfg, start, drained.0);
        if folded.0.crash.None? {
          assert [] + folded.1 == folded.1;
          ApplyKeeps(cfg, folded.0, folded.1);
        }
      }
    }
  }

  lemma DecoderAside(w: World, decoder: Bytes)
    requires Good(w, [], []) && w.pump.alive && !w.ended
    ensures MidOk(w.(pump := w.pump.(decoder := decoder)), [])
  {
    hide SessionOk, DeliveryTarget, MachineOk, RequestIds, SentPrompts, FirstIds, Answered, Outstanding, Requests, AllRenderable;
    NoneRenderable();
    assert Deliverable([]) == [];
  }
}
