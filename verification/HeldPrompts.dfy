/** When a prompt waits although the session is idle: exactly after an error for the prompt before it. */
module HeldPrompts {
  import opened Prelude
  import opened Acp
  import opened Machine
  import opened MachineInvariants
  import opened Events
  import opened SessionSpec
  import opened PermissionQueue
  import opened Messages
  import opened Codec
  import opened PumpSpec
  import opened PumpFrames
  import opened PumpInvariants
  import opened PumpRuns
  import opened StreamChunks
  import opened Drains
  import opened StrandedTurns

  /** A prompt is held that the protocol could carry. */
  predicate Overdue(pump: Pump) { pump.machine.phase == SESSION_ACTIVE && pump.pending != [] }

  // ---- What a drain does to the turn ----

  /** The line is an error for the request in flight. */
  predicate Fails(m: Machine, result: DecodeResult) {
    result.DecodedFrame?
    && match ParseMessage(result.value)
       case Some(ResponseError(id, _, _, _)) => id.Some? && id.value in m.outgoing
       case _ => false
  }

  /** Some line is, for the machine that the lines before it lead to. */
  predicate FailsTheTurn(m: Machine, results: seq<DecodeResult>)
    decreases |results|
  {
    results != [] && (Fails(m, results[0]) || FailsTheTurn(Protocol1(m, results[0]).machine, results[1..]))
  }

  lemma LineStages(m: Machine, result: DecodeResult)
    requires MachineOk(m) && Protocol1(m, result).ok
    ensures var p := Protocol1(m, result); var ms := MilestonesOf(p.effects);
      && MachineOk(p.machine)
      && (ms == [] ==> (Live(p.machine.phase) <==> Live(m.phase)))
      && (Live(m.phase) ==> ms == [])
  {
    hide Handle, ParseMessage, MachineOk, Accepts, FoldsCleanly, MilestonesOf;
    match result {
      case DecodeFailure(line) => MilestoneOfOne(ProtocolError(InvalidJson(line)));
      case DecodedFrame(value) =>
        match ParseMessage(value)
        case None => MilestoneOfOne(ProtocolError(InvalidEnvelope(value)));
        case Some(message) =>
          HandleKeepsOk(m, message);
          HandleStages(m, message);
          FoldsOk(m, message);
    }
  }

  /** Without a milestone a session neither begins nor ends, and in one there is none. */
  lemma {:induction false} LiveProtocol(m: Machine, results: seq<DecodeResult>)
    requires MachineOk(m) && Protocol(m, results).ok
    ensures var p := Protocol(m, results); var ms := MilestonesOf(p.effects);
      && (ms == [] ==> (Live(p.machine.phase) <==> Live(m.phase)))
      && (Live(m.phase) ==> ms == [])
    decreases |results|
  {
    hide Protocol1, MachineOk, MilestonesOf;
    NothingHappened();
    if results != [] {
      LineStages(m, results[0]);
      var first := Protocol1(m, results[0]);
      LiveProtocol(first.machine, results[1..]);
      MilestonesConcatenate(first.effects, Protocol(first.machine, results[1..]).effects);
    }
  }

  /** One line while a prompt is unanswered: it changes nothing of that, or answers it,
      by an error exactly if the turn ends uncompleted. */
  lemma LineAnswers(m: Machine, result: DecodeResult)
    requires MachineOk(m) && m.phase == PROMPT_IN_FLIGHT && m.outgoing != map[] && Protocol1(m, result).ok
    ensures var p := Protocol1(m, result);
      || (p.machine.outgoing == m.outgoing && p.machine.phase == PROMPT_IN_FLIGHT && !Completes(p.effects) && !Fails(m, result))
      || (p.machine.outgoing == map[] && (Fails(m, result) <==> p.machine.phase == SESSION_ACTIVE && !Completes(p.effects)))
  {
    hide ParseMessage, HandleRequest, HandleNotification, Accepts, IncomingOk;
    if result.DecodedFrame? && ParseMessage(result.value).Some? {
      match ParseMessage(result.value).value {
        case Request(id, methodName, params) =>
          RequestStages(m, id, methodName, params);
          RequestCompletesNothing(m, id, methodName, params);
        case Notification(methodName, params) =>
          NotificationQuiet(m, methodName, params);
          NotificationStages(m, methodName, params);
          UpdateCompletesNothing(m, methodName, params);
        case Response(id, result') => if id in m.outgoing { assert m.outgoing - {id} == map[]; CompletesOne(HandleResult(m, id, result').effects); }
        case ResponseError(id, code, text, _) => if id.Some? && id.value in m.outgoing { assert m.outgoing - {id.value} == map[]; }
      }
    }
  }

  lemma CompletesOne(effects: seq<Effect>)
    requires |effects| == 1
    ensures Completes(effects) <==> effects[0].PromptCompleted?
  {
  }

  lemma {:induction false} QuietNeverFails(m: Machine, results: seq<DecodeResult>)
    requires MachineOk(m) && m.outgoing == map[] && Protocol(m, results).ok
    ensures !FailsTheTurn(m, results)
    decreases |results|
  {
    hide Protocol1, MachineOk, MilestonesOf, Completes;
    if results != [] {
      QuietLine(m, results[0]);
      QuietNeverFails(Protocol1(m, results[0]).machine, results[1..]);
    }
  }

  /** A drain ends a turn uncompleted exactly by an error for its prompt. */
  lemma {:induction false} TurnFailsExactly(m: Machine, results: seq<DecodeResult>)
    requires MachineOk(m) && m.phase == PROMPT_IN_FLIGHT && Protocol(m, results).ok
    ensures var p := Protocol(m, results); p.machine.phase == SESSION_ACTIVE && !Completes(p.effects) <==> FailsTheTurn(m, results)
    decreases |results|
  {
    hide Protocol1, MachineOk, Completes, Fails, MilestonesOf;
    if m.outgoing == map[] {
      QuietProtocol(m, results);
      QuietNeverFails(m, results);
    } else if results != [] {
      LineAnswers(m, results[0]);
      LineStages(m, results[0]);
      var first := Protocol1(m, results[0]);
      var rest := Protocol(first.machine, results[1..]);
      CompletesJoins(first.effects, rest.effects);
      if first.machine.outgoing == map[] {
        QuietProtocol(first.machine, results[1..]);
        QuietNeverFails(first.machine, results[1..]);
      } else {
        TurnFailsExactly(first.machine, results[1..]);
      }
    }
  }

  lemma AskOverdue(cwd: string, m: Machine, pending: seq<string>, effects: seq<Effect>)
    requires MilestonesOf(effects) != [] && MilestonesOf(effects)[0].Initialized? ==> m.phase == READY
    ensures var asked := AskOf(cwd, m, pending, effects);
      asked.machine.phase == SESSION_ACTIVE && asked.pending != [] <==>
        pending != [] && m.phase == SESSION_ACTIVE && MilestonesOf(effects) == [] && !Completes(effects)
  {
    hide MilestonesOf, Completes, SessionJson;
  }

  // ---- What each input does ----

  lemma ReceiveOverdue(cfg: Config, w: World, data: Bytes)
    requires WorldOk(w) && w.crash.None? && !w.ended && !Overdue(w.pump) && Receive(cfg, w, data).crash.None?
    ensures Overdue(Receive(cfg, w, data).pump) <==>
              w.pump.pending != [] && w.pump.machine.phase == PROMPT_IN_FLIGHT
              && FailsTheTurn(w.pump.machine, Codec.Drain(cfg.text, w.pump.decoder + data).0)
  {
    hide Owing, Receive, Codec.Drain, Protocol, MachineOk, MilestonesOf, Completes, FailsTheTurn, AskOf;
    OwesCoupled(w, [], []);
    if w.pump.alive {
      ReceiveMakes(cfg, w, data);
      var m, results := w.pump.machine, Codec.Drain(cfg.text, w.pump.decoder + data).0;
      var p := Protocol(m, results);
      AskOverdue(cfg.cwd, p.machine, w.pump.pending, p.effects);
      LiveProtocol(m, results);
      if m.phase == PROMPT_IN_FLIGHT { TurnFailsExactly(m, results); }
    } else {
      DeadIsFresh(w);
      DeadReceives(cfg, w, data);
    }
  }

  lemma DeadIsFresh(w: World)
    requires WorldOk(w) && w.crash.None? && !w.pump.alive
    ensures w.pump.machine == FRESH && w.pump.pending == []
  {
    hide Body, Ledger, Coupled, Waiting;
  }

  lemma DeadReceives(cfg: Config, w: World, data: Bytes)
    requires !w.pump.alive
    ensures Receive(cfg, w, data) == w
  {
  }

  lemma PromptNeverOverdue(m: Machine, pending: seq<string>)
    ensures var asked := PromptDue(m, pending); asked.machine.phase != SESSION_ACTIVE || asked.pending == []
  {
    hide SessionJson;
  }

  lemma SubmitNeverOverdue(cfg: Config, w: World, text: string, launch: Option<Fault>)
    requires Good(w, [], []) && !Overdue(w.pump)
    ensures !Overdue(Submit(cfg, w, text, launch).pump)
  {
    hide Owing, Submit, Start, PromptDue;
    SubmitMakes(cfg, w, text, launch);
    if w.pump.alive || launch.None? {
      PromptNeverOverdue(if w.pump.alive then w.pump.machine else Start(w.pump.machine).machine, w.pump.pending + [text]);
    }
  }

  lemma DecisionNeverOverdue(cfg: Config, w: World, id: RequestId, d: Decision)
    requires Good(w, [id], []) && !Overdue(w.pump)
    ensures var w' := Decision1(cfg, w, id, d); w'.crash.None? ==> !Overdue(w'.pump)
  {
    hide Body, SendAll, Ledger, Resolve, Coupled, Forward, Waiting, Produced, Owing;
    GoodBody(w, [id], []);
    OwesCoupled(w, [id], []);
    ResolveCouples(w.pump.machine, w.session.pr, id, d);
    var r := Resolve(w.pump.machine, id, d);
    if r.Folded? { RepliesStay(cfg, w, r.machine, r.out, r.effects); }
  }

  lemma QuitNeverOverdue(cfg: Config, w: World)
    requires Good(w, [], []) && Outstanding(w.session.pr) == [] && !Overdue(w.pump)
    ensures var w' := Quit(cfg, w); w'.crash.None? ==> !Overdue(w'.pump)
  {
    hide Body, SendAll, Ledger, Coupled, Forward, Waiting, Produced, Owing, Cancel, Exec, MachineOk;
    GoodBody(w, [], []);
    OwesCoupled(w, [], []);
    var m := w.pump.machine;
    if m.phase == PROMPT_IN_FLIGHT {
      CancelAnswersAll(m);
      var r := Cancel(m);
      RepliesStay(cfg, w, r.machine, r.out, r.effects);
      var told := Forward(SendAll(cfg, Produced(w.(pump := w.pump.(machine := r.machine)), r.effects), r.out), r.effects);
      if told.crash.None? { AbortStep(told); } else { ExecCrashed(told, AbortPendingPermissions); }
    }
  }

  lemma KeyNeverOverdue(cfg: Config, w: World, c: Command, fault: Option<Fault>, launch: Option<Fault>)
    requires Good(w, [], []) && !w.ended && (UserIssued(c) || c.ResizeFrame?) && !Overdue(w.pump)
    ensures var w' := Key(cfg, w, c, fault, launch); w'.crash.None? ==> !Overdue(w'.pump)
  {
    hide Owing, Step, AfterCommand, Decided, Submit, Decision1, Quit, ActsFirst, Outstanding;
    var r := Step(w.session, c, fault);
    if !r.raised {
      KeyCouples(w, c, fault);
      UserActsFirst(w.session, c, fault);
      var next := w.(session := r.session, ended := EditorExited in r.events);
      if r.events == [] {
        NothingHappens(cfg, next, launch);
      } else {
        AfterTheFirst(cfg, next, r.events, launch);
        match r.events[0] {
          case AgentPromptSubmitted(text) => SubmitNeverOverdue(cfg, next, text, launch);
          case PermissionDecided(id, d) => DecisionNeverOverdue(cfg, next, id, d);
          case KeyboardQuitEvent =>
            NoPromptNothingOutstanding(w);
            QuitNeverOverdue(cfg, next);
          case _ =>
        }
      }
    }
  }

  /** Where no held prompt is overdue, one input makes one so exactly if it is a drain in
      which the prompt in flight is answered by an error while others are held. */
  lemma OverdueExactly(cfg: Config, w: World, st: Stimulus)
    requires WorldOk(w) && w.crash.None? && !w.ended && FromUser(st) && !Overdue(w.pump) && Next(cfg, w, st).crash.None?
    ensures Overdue(Next(cfg, w, st).pump) <==>
              && st.WireBytes? && w.pump.pending != [] && w.pump.machine.phase == PROMPT_IN_FLIGHT
              && FailsTheTurn(w.pump.machine, Codec.Drain(cfg.text, w.pump.decoder + st.data).0)
  {
    hide Owing, Key, Receive, Log, Forward, Exec, Leftovers, FailsTheTurn, Codec.Drain;
    match st {
      case UserKey(c, fault, launch) => KeyNeverOverdue(cfg, w, c, fault, launch);
      case WireBytes(data) => ReceiveOverdue(cfg, w, data);
      case ChildStderr(data) =>
        GoodBody(w, [], []);
        LogAside(cfg, w, Stderr(data));
      case ChildExit(status) =>
    }
  }

  /** Such an error, on its own: the session is idle, and every held prompt stays held. */
  lemma ErrorLeavesThemHeld(cfg: Config, w: World, id: RequestId, code: int, text: string)
    requires Asking(cfg, w, id) && w.pump.pending != [] && Legible(cfg.text, ToJson(ResponseError(Some(id), code, text, Null)))
    ensures var w' := Next(cfg, w, WireBytes(Encode(cfg.text, ToJson(ResponseError(Some(id), code, text, Null)))));
      && w'.crash.None? && !w'.ended && w'.pump.machine.outgoing == map[] && w'.life.wire == w.life.wire
      && w'.pump.pending == w.pump.pending && Overdue(w'.pump)
  {
    hide WorldOk, Encode, Legible, ToJson, MachineOk, AllRenderable, MilestonesOf, Completes, Next;
    AskingIsAlive(cfg, w, id);
    ErrorEndsTheTurn(w.pump.machine, id, code, text);
    var e := Handle(w.pump.machine, ResponseError(Some(id), code, text, Null)).effects[0];
    AnswerCompletes(e);
    OneAnswer(cfg, w, ResponseError(Some(id), code, text, Null));
    assert w.life.wire + [] == w.life.wire;
  }

  lemma ErrorEndsTheTurn(m: Machine, id: RequestId, code: int, text: string)
    requires MachineOk(m) && m.phase == PROMPT_IN_FLIGHT && id in m.outgoing
    ensures var r := Handle(m, ResponseError(Some(id), code, text, Null));
      && r.Folded? && r.out == [] && r.effects == [ProtocolError(MethodFailed(SESSION_PROMPT, code, text))]
      && r.machine.outgoing == map[] && r.machine.phase == SESSION_ACTIVE
  {
    assert m.outgoing - {id} == map[];
  }
}
