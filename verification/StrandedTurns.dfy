/** A child that fails the handshake, or answers a prompt with an unknown stop reason, is never asked anything again. */
module StrandedTurns {
  import opened Prelude
  import opened Acp
  import opened Machine
  import opened MachineInvariants
  import opened Events
  import opened SessionSpec
  import opened SessionInvariants
  import opened SessionRuns
  import opened PermissionQueue
  import opened Messages
  import opened Codec
  import opened PumpSpec
  import opened PumpFrames
  import opened PumpInvariants
  import opened PumpRuns
  import opened StreamChunks
  import opened Drains

  /** The child stays stranded: nothing but replies and notifications goes out, and
      held prompts stay held. */
  ghost predicate Stays(w: World, w': World) {
    && w'.pump.alive && Stranded(w'.pump.machine) && w'.pump.machine.phase == w.pump.machine.phase
    && w'.pump.machine.nextId == w.pump.machine.nextId
    && w.life.wire <= w'.life.wire && w.pump.pending <= w'.pump.pending
  }

  lemma StaysJoin(a: World, b: World, c: World)
    requires Stays(a, b) && Stays(b, c)
    ensures Stays(a, c)
  {
  }

  lemma {:induction false} ProtocolStays(m: Machine, results: seq<DecodeResult>)
    requires Stranded(m)
    ensures var p := Protocol(m, results);
      Stranded(p.machine) && p.machine.phase == m.phase && p.machine.nextId == m.nextId
    decreases |results|
  {
    hide Handle, ParseMessage, Accepts, Stranded, Resolve;
    if results != [] {
      if results[0].DecodedFrame? && ParseMessage(results[0].value).Some? {
        StrandedForGood(m, ParseMessage(results[0].value).value, IntId(0), Cancelled);
      }
      var first := Protocol1(m, results[0]);
      if first.ok { ProtocolStays(first.machine, results[1..]); }
    }
  }

  lemma ReceiveStays(cfg: Config, w: World, data: Bytes)
    requires WorldOk(w) && w.crash.None? && !w.ended && w.pump.alive && Stranded(w.pump.machine)
    ensures var w' := Receive(cfg, w, data); w'.crash.Some? || Stays(w, w')
  {
    hide Owing, Receive, Codec.Drain, Protocol, MachineOk, MilestonesOf, Completes;
    OwesCoupled(w, [], []);
    if Receive(cfg, w, data).crash.None? {
      var results := Codec.Drain(cfg.text, w.pump.decoder + data).0;
      ReceiveMakes(cfg, w, data);
      ProtocolStays(w.pump.machine, results);
      QuietProtocol(w.pump.machine, results);
    }
  }

  lemma SubmitStays(cfg: Config, w: World, text: string, launch: Option<Fault>)
    requires Good(w, [], []) && w.pump.alive && Stranded(w.pump.machine)
    ensures Stays(w, Submit(cfg, w, text, launch))
  {
    hide Body, Ledger, Coupled, Waiting;
  }

  lemma DecisionStays(cfg: Config, w: World, id: RequestId, d: Decision)
    requires Good(w, [id], []) && w.pump.alive && Stranded(w.pump.machine)
    ensures var w' := Decision1(cfg, w, id, d); w'.crash.Some? || Stays(w, w')
  {
    hide SessionOk, DeliveryTarget, SendAll, Ledger, Grows, Resolve, Coupled, Forward, Waiting, Produced, Owing, Stranded, Handle;
    GoodBody(w, [id], []);
    OwesCoupled(w, [id], []);
    ResolveCouples(w.pump.machine, w.session.pr, id, d);
    StrandedForGood(w.pump.machine, Request(id, "", Null), id, d);
    var r := Resolve(w.pump.machine, id, d);
    if r.Folded? { RepliesStay(cfg, w, r.machine, r.out, r.effects); }
  }

  lemma QuitStays(cfg: Config, w: World)
    requires Good(w, [], []) && Outstanding(w.session.pr) == [] && w.pump.alive && Stranded(w.pump.machine)
    ensures var w' := Quit(cfg, w); w'.crash.Some? || Stays(w, w')
  {
    hide Body, SendAll, Ledger, Coupled, Forward, Waiting, Produced, Owing, Cancel, Exec;
    GoodBody(w, [], []);
    OwesCoupled(w, [], []);
    CoupledOk(w.pump.machine, w.session.pr, [], []);
    var m := w.pump.machine;
    if m.phase == PROMPT_IN_FLIGHT {
      CancelAnswersAll(m);
      var r := Cancel(m);
      RepliesStay(cfg, w, r.machine, r.out, r.effects);
      var told := Forward(SendAll(cfg, Produced(w.(pump := w.pump.(machine := r.machine)), r.effects), r.out), r.effects);
      if told.crash.None? { AbortStep(told); } else { ExecCrashed(told, AbortPendingPermissions); }
    }
  }

  lemma KeyStays(cfg: Config, w: World, c: Command, fault: Option<Fault>, launch: Option<Fault>)
    requires Good(w, [], []) && !w.ended && w.pump.alive && Stranded(w.pump.machine) && (UserIssued(c) || c.ResizeFrame?)
    ensures var w' := Key(cfg, w, c, fault, launch); w'.crash.Some? || Stays(w, w')
  {
    hide Owing, Step, AfterCommand, Decided, Submit, Decision1, Quit, ActsFirst, Outstanding;
    var r := Step(w.session, c, fault);
    if !r.raised {
      KeyCouples(w, c, fault);
      UserActsFirst(w.session, c, fault);
      var next := w.(session := r.session, ended := EditorExited in r.events);
      if r.events == [] {
        NothingHappens(cfg, next, launch);
      } else {
        AfterTheFirst(cfg, next, r.events, launch);
        match r.events[0] {
          case AgentPromptSubmitted(text) => SubmitStays(cfg, next, text, launch);
          case PermissionDecided(id, d) => DecisionStays(cfg, next, id, d);
          case KeyboardQuitEvent =>
            NoPromptNothingOutstanding(w);
            QuitStays(cfg, next);
          case _ =>
        }
      }
    }
  }

  lemma NextStays(cfg: Config, w: World, st: Stimulus)
    requires WorldOk(w) && w.crash.None? && w.pump.alive && Stranded(w.pump.machine) && FromUser(st) && !st.ChildExit?
    ensures var w' := Next(cfg, w, st); w'.crash.Some? || Stays(w, w')
  {
    hide Owing, Key, Receive, Log;
    if !w.ended {
      match st {
        case UserKey(c, fault, launch) => KeyStays(cfg, w, c, fault, launch);
        case WireBytes(data) => ReceiveStays(cfg, w, data);
        case ChildStderr(data) =>
          GoodBody(w, [], []);
          LogAside(cfg, w, Stderr(data));
      }
    }
  }

  lemma {:induction false} RunStays(cfg: Config, w: World, inputs: seq<Stimulus>)
    requires WorldOk(w) && w.crash.None? && w.pump.alive && Stranded(w.pump.machine)
    requires forall i :: 0 <= i < |inputs| ==> FromUser(inputs[i]) && !inputs[i].ChildExit?
    ensures var w' := RunWorld(cfg, w, inputs); WorldOk(w') && (w'.crash.Some? || Stays(w, w'))
    decreases |inputs|
  {
    hide Next, WorldOk, Stranded;
    if inputs != [] {
      var next := Next(cfg, w, inputs[0]);
      NextStays(cfg, w, inputs[0]);
      NextKeeps(cfg, w, inputs[0]);
      if next.crash.None? {
        RunStays(cfg, next, inputs[1..]);
        if RunWorld(cfg, next, inputs[1..]).crash.None? { StaysJoin(w, next, RunWorld(cfg, next, inputs[1..])); }
      } else {
        CrashStays(cfg, next, inputs[1..]);
      }
    }
  }

  lemma {:induction false} NoRequestsNoPrompts(out: seq<Message>)
    requires RequestIds(out) == []
    ensures SentPrompts(out) == []
    decreases |out|
  {
    if out != [] { NoRequestsNoPrompts(out[1..]); }
  }

  /** With the ids counted on the wire, an unchanged counter means no request went out. */
  lemma NoRequestWent(w: World, w': World)
    requires WorldOk(w) && w.crash.None? && WorldOk(w') && w'.crash.None? && Stays(w, w')
    ensures RequestIds(w'.life.wire) == RequestIds(w.life.wire) && SentPrompts(w'.life.wire) == SentPrompts(w.life.wire)
  {
    hide Body, Coupled, Waiting, EffectsOk, RequestIds, SentPrompts, FirstIds, Answered;
    var more := w'.life.wire[|w.life.wire|..];
    assert w'.life.wire == w.life.wire + more;
    WireConcatenates(w.life.wire, more);
    NoRequestsNoPrompts(more);
  }

  /** A prompt is in flight and its request is unanswered; the decoder holds no part of a line. */
  ghost predicate Asking(cfg: Config, w: World, id: RequestId) {
    && WorldOk(w) && w.crash.None? && !w.ended && w.pump.decoder == []
    && w.pump.machine.phase == PROMPT_IN_FLIGHT && id in w.pump.machine.outgoing
  }

  /** The agent's answer to the prompt in flight, as it comes over the wire. */
  function Verdict(cfg: Config, id: RequestId, result: Json): Stimulus {
    WireBytes(Encode(cfg.text, ToJson(Response(id, result))))
  }

  lemma AskingIsAlive(cfg: Config, w: World, id: RequestId)
    requires Asking(cfg, w, id)
    ensures w.pump.alive && MachineOk(w.pump.machine)
  {
    hide Body, Ledger, Waiting, MachineOk;
  }

  /** What goes out when a prompt is due. */
  lemma PromptOnWire(m: Machine, pending: seq<string>, wire: seq<Message>)
    requires pending != [] && m.phase == SESSION_ACTIVE
    ensures var r := Prompt(m, pending[0]);
      && r.Sent? && !Stranded(r.machine) && SentPrompts(wire + [r.request]) == SentPrompts(wire) + [pending[0]]
  {
    hide RequestIds, SentPrompts, Answered, PromptText;
    var r := Prompt(m, pending[0]);
    AskFacts(m, pending[0], "");
    assert IntId(m.nextId) in r.machine.outgoing;
    WireConcatenates(wire, [r.request]);
    WireOfOne(r.request);
  }

  lemma AnswerCompletes(e: Effect)
    requires e.PromptCompleted? || e.ProtocolError?
    ensures MilestonesOf([e]) == [] && (Completes([e]) <==> e.PromptCompleted?) && AllRenderable([e])
  {
    MilestoneOfOne(e);
    OneRenderable(e);
    assert [e][0] == e;
  }

  /** The answer ends the turn, and lets the oldest held prompt go, exactly when its
      stop reason is known. */
  lemma VerdictEndsTheTurn(cfg: Config, w: World, id: RequestId, result: Json)
    requires Asking(cfg, w, id) && Legible(cfg.text, ToJson(Response(id, result)))
    ensures var w' := Next(cfg, w, Verdict(cfg, id, result)); var known := OneOf(Get(FieldsOf(result), "stopReason"), STOP_REASONS);
      && w'.crash.None? && !w'.ended && w'.pump.alive && WorldOk(w')
      && (Stranded(w'.pump.machine) <==> !known)
      && SentPrompts(w'.life.wire) == SentPrompts(w.life.wire) + (if known && w.pump.pending != [] then [w.pump.pending[0]] else [])
      && (!known ==> w'.pump.pending == w.pump.pending && w'.pump.machine.phase == PROMPT_IN_FLIGHT)
  {
    hide WorldOk, Encode, Legible, ToJson, MachineOk, SentPrompts, AllRenderable, MilestonesOf, Completes, Prompt, OneOf, Handle;
    var m := w.pump.machine;
    AskingIsAlive(cfg, w, id);
    BadStopReasonStrandsTheTurn(m, id, result);
    var r := Handle(m, Response(id, result));
    AnswerCompletes(r.effects[0]);
    OneAnswer(cfg, w, Response(id, result));
    assert SentPrompts(w.life.wire) + [] == SentPrompts(w.life.wire) && w.life.wire + [] == w.life.wire;
    if OneOf(Get(FieldsOf(result), "stopReason"), STOP_REASONS) && w.pump.pending != [] {
      PromptOnWire(r.machine, w.pump.pending, w.life.wire);
    }
  }

  /** A stranded child is sent no prompt any more, whatever the human, the agent and the
      pipes do, until it has exited: the prompts that were held and those submitted
      since stay held, in order. */
  lemma {:induction false} StrandedPromptsNeverGo(cfg: Config, w: World, inputs: seq<Stimulus>)
    requires WorldOk(w) && w.crash.None? && w.pump.alive && Stranded(w.pump.machine)
    requires forall i :: 0 <= i < |inputs| ==> FromUser(inputs[i]) && !inputs[i].ChildExit?
    ensures var w' := RunWorld(cfg, w, inputs);
      w'.crash.None? ==>
        && w'.pump.alive && w'.pump.machine.phase == w.pump.machine.phase && w'.pump.machine.outgoing == map[]
        && SentPrompts(w'.life.wire) == SentPrompts(w.life.wire)
        && w.pump.pending <= w'.pump.pending && w'.life.submitted == SentPrompts(w.life.wire) + w'.pump.pending
  {
    hide WorldOk, Next, SentPrompts;
    RunStays(cfg, w, inputs);
    var w' := RunWorld(cfg, w, inputs);
    if w'.crash.None? {
      NoRequestWent(w, w');
      HeldAfterSent(w');
    }
  }

  /** So it is after an answer with an unknown stop reason. */
  lemma {:induction false} BadVerdictIsTheLast(cfg: Config, w: World, id: RequestId, result: Json, inputs: seq<Stimulus>)
    requires Asking(cfg, w, id) && Legible(cfg.text, ToJson(Response(id, result)))
    requires !OneOf(Get(FieldsOf(result), "stopReason"), STOP_REASONS)
    requires forall i :: 0 <= i < |inputs| ==> FromUser(inputs[i]) && !inputs[i].ChildExit?
    ensures var w' := RunWorld(cfg, Next(cfg, w, Verdict(cfg, id, result)), inputs);
      w'.crash.None? ==>
        && w'.pump.machine.phase == PROMPT_IN_FLIGHT && w'.pump.machine.outgoing == map[]
        && SentPrompts(w'.life.wire) == SentPrompts(w.life.wire)
        && w.pump.pending <= w'.pump.pending && w'.life.submitted == SentPrompts(w.life.wire) + w'.pump.pending
  {
    hide WorldOk, Next, SentPrompts, Asking, Stranded;
    VerdictEndsTheTurn(cfg, w, id, result);
    StrandedPromptsNeverGo(cfg, Next(cfg, w, Verdict(cfg, id, result)), inputs);
    assert SentPrompts(w.life.wire) + [] == SentPrompts(w.life.wire);
  }

  lemma HandshakeError(m: Machine, id: RequestId, code: int, text: string)
    requires MachineOk(m) && !Live(m.phase) && id in m.outgoing
    ensures var r := Handle(m, ResponseError(Some(id), code, text, Null));
      && r.Folded? && r.out == [] && Stranded(r.machine) && |r.effects| == 1 && r.effects[0].ProtocolError?
  {
    assert m.outgoing - {id} == map[];
  }

  /** And after an error in the handshake: the prompt that started the child is never
      sent to it, nor is any other. */
  lemma {:induction false} FailedHandshakeIsTheLast(cfg: Config, w: World, id: RequestId, code: int, text: string,
                                                    inputs: seq<Stimulus>)
    requires WorldOk(w) && w.crash.None? && !w.ended && w.pump.alive && w.pump.decoder == []
    requires !Live(w.pump.machine.phase) && id in w.pump.machine.outgoing
    requires Legible(cfg.text, ToJson(ResponseError(Some(id), code, text, Null)))
    requires forall i :: 0 <= i < |inputs| ==> FromUser(inputs[i]) && !inputs[i].ChildExit?
    ensures var w' := RunWorld(cfg, Next(cfg, w, WireBytes(Encode(cfg.text, ToJson(ResponseError(Some(id), code, text, Null))))), inputs);
      w'.crash.None? ==>
        && SentPrompts(w'.life.wire) == SentPrompts(w.life.wire) && w.pump.pending != [] && w.pump.pending <= w'.pump.pending
  {
    hide WorldOk, Next, SentPrompts, Stranded, MachineOk, Handle, ToJson, Encode, Legible, AllRenderable, MilestonesOf, Completes;
    WorldFacts(w);
    var m, error := w.pump.machine, ResponseError(Some(id), code, text, Null);
    HandshakeError(m, id, code, text);
    var r := Handle(m, error);
    AnswerCompletes(r.effects[0]);
    assert r.effects == [r.effects[0]];
    OneAnswer(cfg, w, error);
    assert w.life.wire + [] == w.life.wire;
    StrandedPromptsNeverGo(cfg, Next(cfg, w, WireBytes(Encode(cfg.text, ToJson(error)))), inputs);
  }

  lemma WorldFacts(w: World)
    requires WorldOk(w) && w.crash.None?
    ensures MachineOk(w.pump.machine) && Held(w.pump)
  {
    hide Body, Ledger, Waiting, MachineOk;
  }

  lemma HeldAfterSent(w: World)
    requires WorldOk(w) && w.crash.None?
    ensures w.life.submitted == SentPrompts(w.life.wire) + w.pump.pending
  {
    hide Body, Coupled, Waiting, EffectsOk, SentPrompts;
  }
}
