/** Exactly which input makes an exception leave the pump. */
module Malformed {
  import opened Prelude
  import opened Acp
  import opened Machine
  import opened MachineInvariants
  import opened Events
  import opened SessionSpec
  import opened PermissionQueue
  import opened Messages
  import opened Codec
  import opened PumpSpec
  import opened PumpFrames
  import opened PumpInvariants
  import opened PumpRuns
  import opened StreamChunks

  // ---- Options ----

  /** The search for a reject option raises exactly on such a kind. */
  lemma {:induction false} RejectSearchRaises(options: seq<PermissionOption>)
    ensures RejectAnswer(options).BadKind? <==> MeetsBadKind(options, REJECT_KINDS)
    decreases |options|
  {
    if options != [] {
      RejectSearchRaises(options[1..]);
      if Hashable(options[0].kind) { MeetsNext(options, REJECT_KINDS); } else { assert MeetsBadKind(options, REJECT_KINDS); }
    }
  }

  // ---- Keys ----

  /** `n` at a permission prompt looks for a reject option and meets such a kind. */
  ghost predicate KeyRaises(pr: Prompts, c: Command) {
    c.MinibufferInput? && c.key == "n" && pr.choice.Some? && MeetsBadKind(Options(pr.choice.value.params), REJECT_KINDS)
  }

  lemma InputRaises(s: Session, key: string, fault: Option<Fault>)
    ensures InputKey(s, key, fault).raised <==> KeyRaises(s.pr, MinibufferInput(key))
  {
    hide ExitKey, SessionSpec.Decide, MeetsBadKind, Options, KindAnswer, RejectAnswer;
    if s.pr.choice.Some? {
      RejectSearchRaises(Options(s.pr.choice.value.params));
      assert key == "n" ==> key[0] == 'n';
      KindNeverBad(Options(s.pr.choice.value.params), "allow_once");
      KindNeverBad(Options(s.pr.choice.value.params), "allow_session");
      KindNeverBad(Options(s.pr.choice.value.params), "allow_always");
    }
  }

  lemma KindNeverBad(options: seq<PermissionOption>, kind: string)
    ensures !KindAnswer(options, kind).BadKind?
  {
  }

  lemma UserRaisesExactly(s: Session, c: Command, fault: Option<Fault>)
    requires UserIssued(c) || c.ResizeFrame?
    ensures Step(s, c, fault).raised <==> KeyRaises(s.pr, c)
  {
    hide Settle, EditCurrent, Layout, Backspace, Accept, Abort, Prompting, Save, ExitKey, SessionSpec.Decide, MeetsBadKind, Options,
         KeyDecision, InputKey;
    if c.MinibufferInput? {
      InputRaises(s, c.key, fault);
      ArmSettles(s, c, fault);
    }
  }

  /** What a key decides about the request on screen. */
  function Chosen(pr: Prompts, c: Command): Option<Decision> {
    if pr.choice.None? then None
    else match c
      case MinibufferInput(key) =>
        var answer := KeyDecision(pr.choice.value, key); if answer.Answer? then Some(answer.decision) else None
      case MinibufferAccept => Some(AcceptDecision(pr.choice.value))
      case MinibufferAbort => Some(Cancelled)
      case _ => None
  }

  ghost predicate DecidesFirst(pr: Prompts, events: seq<Event>, chosen: Option<Decision>) {
    && (chosen.Some? ==> pr.choice.Some? && events != [] && events[0] == PermissionDecided(pr.choice.value.id, chosen.value))
    && (chosen.None? ==> events == [] || !events[0].PermissionDecided?)
  }

  lemma KeyDecides(s: Session, c: Command, fault: Option<Fault>)
    requires (UserIssued(c) || c.ResizeFrame?) && !Step(s, c, fault).raised
    ensures DecidesFirst(s.pr, Step(s, c, fault).events, Chosen(s.pr, c))
  {
    hide Settle, EditCurrent, Layout, Prompting, Save, Accepted, ExitKey, KeyDecision, AcceptDecision, SessionSpec.Drain, CloseChoice;
    if c.Edit? { EditActsFirst(s.ed, c.edit); }
    else if c.MinibufferInput? { ExitKeyActsNever(s, c.key, fault); }
    else if c.MinibufferAccept? {
      DrainActsNever(ClosePrompt(s.pr));
      if s.pr.input.Some? { AcceptedActsFirst(s.ed, s.pr.kind, s.pr.input.value, fault); }
    }
    else {
      LayoutActsNever(s.ed, c);
      PromptingActsNever(s.ed, s.pr, c);
      SaveActsNever(s.ed, s.ed.current, fault);
      DrainActsNever(ClosePrompt(s.pr.(exitPending := [])));
      DrainActsNever(ClosePrompt(s.pr));
    }
  }

  /** The option a key selects shares its id with a later one whose kind is a list or
      an object. */
  predicate KeyStumbles(pr: Prompts, c: Command) {
    var chosen := Chosen(pr, c);
    chosen.Some? && chosen.value.Selected? && !Hashable(KindOf(Options(pr.choice.value.params), chosen.value.optionId))
  }

  lemma StumblesExactly(w: World, c: Command, events: seq<Event>)
    requires Good(w, [], []) && DecidesFirst(w.session.pr, events, Chosen(w.session.pr, c))
    ensures Undecidable(w.pump.machine, events) <==> KeyStumbles(w.session.pr, c)
  {
    hide Body, Ledger, Chosen, MachineOk, Waiting, KindOf, Options, Resolve;
    CoupledOk(w.pump.machine, w.session.pr, [], []);
    if w.session.pr.choice.Some? {
      var p := w.session.pr.choice.value;
      assert p in Requests(w.session.pr) + [];
      assert p.id == Outstanding(w.session.pr)[0] && Ids([]) == [];
      assert p.id in w.pump.machine.incoming && w.pump.machine.params[p.id] == p.params;
      if Chosen(w.session.pr, c).Some? { ResolveKeepsOk(w.pump.machine, p.id, Chosen(w.session.pr, c).value); }
    }
  }

  // ---- Lines ----

  /** A chunk of the session's own turn whose text is not a string. */
  predicate Untextual(m: Machine, message: Message) {
    && message.Notification? && message.methodName == SESSION_UPDATE && m.sessionId.Some? && m.phase == PROMPT_IN_FLIGHT
    && var fields := FieldsOf(message.params);
       && Get(fields, "sessionId") == Str(m.sessionId.value) && Get(fields, "update").Obj?
       && var update := Get(fields, "update").fields;
          && Get(update, "sessionUpdate") in {Str("agent_message_chunk"), Str("agent_thought_chunk")}
          && !ChunkText(update).Str?
  }

  /** Reading the line raises, or its envelope does, or what it reports cannot be rendered. */
  ghost predicate BadLine(m: Machine, result: DecodeResult) {
    || result.ReaderRaised?
    || (result.DecodedFrame? && ParseMessage(result.value).Some?
        && var message := ParseMessage(result.value).value; Raises(m, message) || Untextual(m, message))
  }

  /** Some line is bad for the machine that the lines before it lead to. */
  ghost predicate BadLines(m: Machine, results: seq<DecodeResult>)
    decreases |results|
  {
    results != [] && (BadLine(m, results[0]) || BadLines(Protocol1(m, results[0]).machine, results[1..]))
  }

  lemma UntextualExactly(m: Machine, message: Message)
    requires Handle(m, message).Folded?
    ensures AllRenderable(Handle(m, message).effects) <==> !Untextual(m, message)
  {
    hide HandleRequest, ChunkText;
    match message {
      case Request(id, methodName, params) => RequestRenderable(m, id, methodName, params);
      case Notification(methodName, params) => UpdateRenders(m, methodName, params);
      case _ =>
    }
  }

  lemma UpdateRenders(m: Machine, methodName: string, params: Json)
    requires HandleNotification(m, methodName, params).Folded?
    ensures AllRenderable(HandleNotification(m, methodName, params).effects) <==> !Untextual(m, Notification(methodName, params))
  {
    hide ChunkText;
    var r := HandleNotification(m, methodName, params);
    if r.effects != [] {
      assert r.effects == [r.effects[0]];
      OneRenderable(r.effects[0]);
    }
  }

  lemma LineIsBad(m: Machine, result: DecodeResult)
    requires MachineOk(m)
    ensures var p := Protocol1(m, result);
      && (p.ok && AllRenderable(p.effects) <==> !BadLine(m, result))
      && (p.ok ==> MachineOk(p.machine))
  {
    hide Handle, ParseMessage, MachineOk, Raises, Untextual, Accepts, AllRenderable, FoldsCleanly;
    match result {
      case DecodeFailure(line) => OneRenderable(ProtocolError(InvalidJson(line)));
      case ReaderRaised(_) =>
      case DecodedFrame(value) =>
        match ParseMessage(value)
        case None => OneRenderable(ProtocolError(InvalidEnvelope(value)));
        case Some(message) =>
          HandleKeepsOk(m, message);
          if Handle(m, message).Folded? {
            UntextualExactly(m, message);
            CleanMachine(m, message);
          }
    }
  }

  lemma CleanMachine(m: Machine, message: Message)
    requires Handle(m, message).Folded? && FoldsCleanly(m, message, Handle(m, message))
    ensures MachineOk(Handle(m, message).machine)
  {
    hide Handle, MachineOk;
  }

  lemma {:induction false} LinesAreBad(m: Machine, results: seq<DecodeResult>)
    requires MachineOk(m)
    ensures var p := Protocol(m, results); p.ok && AllRenderable(p.effects) <==> !BadLines(m, results)
    decreases |results|
  {
    hide Protocol1, MachineOk, BadLine, AllRenderable;
    NoneRenderable();
    if results != [] {
      LineIsBad(m, results[0]);
      var first := Protocol1(m, results[0]);
      if first.ok {
        LinesAreBad(first.machine, results[1..]);
        RenderableJoins(first.effects, Protocol(first.machine, results[1..]).effects);
      }
    }
  }

  // ---- Whole inputs ----

  /** The input carries a payload the code cannot digest where it arrives. */
  ghost predicate Indigestible(cfg: Config, w: World, st: Stimulus) {
    match st
    case UserKey(c, _, _) => KeyRaises(w.session.pr, c) || KeyStumbles(w.session.pr, c)
    case WireBytes(data) => w.pump.alive && BadLines(w.pump.machine, Codec.Drain(cfg.text, w.pump.decoder + data).0)
    case _ => false
  }

  /** An exception leaves the pump exactly on such an input. */
  lemma NextRaisesExactly(cfg: Config, w: World, st: Stimulus)
    requires WorldOk(w) && w.crash.None? && !w.ended && FromUser(st)
    ensures Next(cfg, w, st).crash.Some? <==> Indigestible(cfg, w, st)
  {
    hide Owing, Key, Receive, Log, Exited, KeyRaises, KeyStumbles, BadLines, Codec.Drain, Step, Chosen, DecidesFirst, Undecidable;
    match st {
      case UserKey(c, fault, launch) =>
        KeyKeeps(cfg, w, c, fault, launch);
        UserRaisesExactly(w.session, c, fault);
        if !Step(w.session, c, fault).raised {
          KeyDecides(w.session, c, fault);
          StumblesExactly(w, c, Step(w.session, c, fault).events);
        }
      case WireBytes(data) =>
        ReceiveKeeps(cfg, w, data);
        OwesCoupled(w, [], []);
        LinesAreBad(w.pump.machine, Codec.Drain(cfg.text, w.pump.decoder + data).0);
      case ChildStderr(data) =>
        GoodBody(w, [], []);
        LogAside(cfg, w, Stderr(data));
        AsideBody(w, Log(cfg, w, Stderr(data)));
      case ChildExit(status) => ExitedKeeps(cfg, w, status);
    }
  }

  /** Some input is indigestible where it arrives, and the loop still runs. */
  ghost predicate MeetsIndigestible(cfg: Config, w: World, inputs: seq<Stimulus>)
    decreases |inputs|
  {
    inputs != [] && !w.ended
    && (Indigestible(cfg, w, inputs[0]) || MeetsIndigestible(cfg, Next(cfg, w, inputs[0]), inputs[1..]))
  }

  lemma {:induction false} RunRaisesExactly(cfg: Config, w: World, inputs: seq<Stimulus>)
    requires WorldOk(w) && w.crash.None? && forall i :: 0 <= i < |inputs| ==> FromUser(inputs[i])
    ensures RunWorld(cfg, w, inputs).crash.Some? <==> MeetsIndigestible(cfg, w, inputs)
    decreases |inputs|
  {
    hide WorldOk, Next, Indigestible;
    if inputs != [] {
      var next := Next(cfg, w, inputs[0]);
      if w.ended {
        EndStays(cfg, w, inputs);
      } else {
        NextRaisesExactly(cfg, w, inputs[0]);
        NextKeeps(cfg, w, inputs[0]);
        if next.crash.None? { RunRaisesExactly(cfg, next, inputs[1..]); } else { CrashStays(cfg, next, inputs[1..]); }
      }
    }
  }

  lemma {:induction false} EndStays(cfg: Config, w: World, inputs: seq<Stimulus>)
    requires w.ended
    ensures RunWorld(cfg, w, inputs) == w
    decreases |inputs|
  {
    if inputs != [] {
      assert Next(cfg, w, inputs[0]) == w;
      EndStays(cfg, w, inputs[1..]);
    }
  }
}
