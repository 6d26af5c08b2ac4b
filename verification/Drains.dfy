/** What the pump asks for once a drain's lines are folded. */
module Drains {
  import opened Prelude
  import opened Acp
  import opened Machine
  import opened MachineInvariants
  import opened Events
  import opened SessionSpec
  import opened SessionInvariants
  import opened SessionRuns
  import opened PermissionQueue
  import opened Messages
  import opened Codec
  import opened PumpSpec
  import opened PumpFrames
  import opened PumpInvariants
  import opened PumpRuns
  import opened StreamChunks

  // ---- At most one request after a drain ----

  datatype Need = NeedNothing | NeedSession | NeedPrompt

  /** Told by the drain's effects, the phase they leave and the prompts held. */
  function Due(phase: Phase, pending: seq<string>, effects: seq<Effect>): Need {
    var ms := MilestonesOf(effects);
    if ms != [] && ms[0].Initialized? then NeedSession
    else if pending != [] && phase == SESSION_ACTIVE && (ms != [] || Completes(effects)) then NeedPrompt
    else NeedNothing
  }

  /** The machine, the prompts still held and the request made, if any. */
  datatype Asked = Asked(machine: Machine, pending: seq<string>, requests: seq<Message>)

  function After(s: Sent, m: Machine, pending: seq<string>): Asked {
    if s.Sent? then Asked(s.machine, pending, [s.request]) else Asked(m, pending, [])
  }

  function AskOf(cwd: string, m: Machine, pending: seq<string>, effects: seq<Effect>): Asked {
    match Due(m.phase, pending, effects)
    case NeedNothing => Asked(m, pending, [])
    case NeedSession => After(NewSession(m, cwd), m, pending)
    case NeedPrompt => if pending != [] then After(Prompt(m, pending[0]), m, pending[1..]) else Asked(m, pending, [])
  }

  /** The pump went from `w` to `w'` making what `asked` says; buffers may differ. */
  ghost predicate Made(w: World, w': World, asked: Asked) {
    && w'.pump == w.pump.(machine := asked.machine, pending := asked.pending, transcript := w'.pump.transcript,
                          diagnostics := w'.pump.diagnostics, backlog := w'.pump.backlog)
    && w'.life.wire == w.life.wire + asked.requests
  }

  lemma NothingMade(w: World)
    ensures Made(w, w, Asked(w.pump.machine, w.pump.pending, []))
  {
    assert w.life.wire + [] == w.life.wire;
  }

  /** What `SendPending` asks for. */
  function PromptDue(m: Machine, pending: seq<string>): Asked {
    if pending != [] && m.phase == SESSION_ACTIVE then After(Prompt(m, pending[0]), m, pending[1..]) else Asked(m, pending, [])
  }

  lemma SendPendingMakes(cfg: Config, w: World)
    requires Body(w)
    ensures Made(w, SendPending(cfg, w), PromptDue(w.pump.machine, w.pump.pending))
  {
    hide SessionOk, DeliveryTarget, SendRequest, Prompt;
    if w.pump.pending != [] && w.pump.machine.phase == SESSION_ACTIVE {
      PromptGoes(w.pump.machine, w.pump.pending[0]);
      SendRequestFrame(cfg, w.(pump := w.pump.(pending := w.pump.pending[1..])), Prompt(w.pump.machine, w.pump.pending[0]));
    } else {
      NothingMade(w);
    }
  }

  lemma PromptGoes(m: Machine, text: string)
    ensures m.phase == SESSION_ACTIVE ==> Prompt(m, text).Sent? && Prompt(m, text).machine.phase == PROMPT_IN_FLIGHT
  {
  }

  lemma BindMakes(cfg: Config, w: World, sid: string)
    requires Body(w) && Bind(cfg, w, sid).crash.None?
    ensures Made(w, Bind(cfg, w, sid), PromptDue(w.pump.machine, w.pump.pending))
  {
    hide SessionOk, DeliveryTarget, Exec, Forward, SendPending, Grows, AllRenderable, PromptDue;
    BindShows(w, sid);
    var made := Exec(w, CreateAgentBuffer(sid));
    var id := Lookup(made.session.ed.agents, sid);
    var shown := Exec(made.(pump := made.pump.(transcript := id)), DisplayBuffer(id.value));
    var emptied := shown.(pump := shown.pump.(backlog := []));
    ForwardFrame(emptied, w.pump.backlog);
    var told := Forward(emptied, w.pump.backlog);
    if told.crash.None? { SendPendingMakes(cfg, told); } else { SendPendingCrashed(cfg, told); }
  }

  /** After the milestones. */
  lemma MilestonesMake(cfg: Config, w: World, effects: seq<Effect>)
    requires MidOk(w, effects)
    ensures var met := Milestones(cfg, w, effects); var ms := MilestonesOf(effects);
      Made(w, met, if ms == [] then Asked(w.pump.machine, w.pump.pending, [])
                   else if ms[0].Initialized? then After(NewSession(w.pump.machine, cfg.cwd), w.pump.machine, w.pump.pending)
                   else PromptDue(w.pump.machine, w.pump.pending))
      && (ms != [] && ms[0].Initialized? ==> w.pump.machine.phase == READY)
  {
    hide Body, Ledger, Coupled, Bind, SendRequest, Milestones, MilestonesOf, Waiting, Deliverable, AllRenderable, NewSession, Made,
         PromptDue;
    MidBody(w, effects);
    MilestonesAreFew(cfg, w, effects);
    MilestonesKeep(cfg, w, effects);
    var ms := MilestonesOf(effects);
    if |ms| == 1 && ms[0].Initialized? {
      RequestMakes(cfg, w);
    } else if |ms| == 1 && ms[0].SessionEstablished? {
      BindMakes(cfg, w, ms[0].sessionId);
    } else {
      NothingMade(w);
    }
  }

  lemma RequestMakes(cfg: Config, w: World)
    requires Body(w) && w.pump.machine.phase == READY
    ensures var s := NewSession(w.pump.machine, cfg.cwd);
      s.Sent? && Made(w, SendRequest(cfg, w, s), After(s, w.pump.machine, w.pump.pending))
  {
    hide SessionOk, DeliveryTarget, SendRequest, TargetsOk;
    SendRequestFrame(cfg, w, NewSession(w.pump.machine, cfg.cwd));
  }

  /** Acting on a drain makes exactly the request its effects are due. */
  lemma ApplyMakes(cfg: Config, w: World, effects: seq<Effect>)
    requires MidOk(w, effects) && ApplyEffects(cfg, w, effects).crash.None?
    ensures Made(w, ApplyEffects(cfg, w, effects), AskOf(cfg.cwd, w.pump.machine, w.pump.pending, effects))
    ensures MilestonesOf(effects) != [] && MilestonesOf(effects)[0].Initialized? ==> w.pump.machine.phase == READY
  {
    hide Milestones, Forward, PresentRequests, SendPending, Owing, MidOk, Deliverable, AllRenderable, MilestonesOf, Body, Made, Completes,
         Surfaced, PromptDue, NewSession, Prompt;
    var met := Milestones(cfg, w, effects);
    MilestonesKeep(cfg, w, effects);
    MilestonesMake(cfg, w, effects);
    OwingBody(met, Surfaced(effects), Deliverable(effects));
    DeliverableRenderable(effects);
    ForwardKeeps(met, Deliverable(effects), [], Surfaced(effects));
    ForwardFrame(met, Deliverable(effects));
    var told := Forward(met, Deliverable(effects));
    if told.crash.None? {
      PresentShows(told, effects);
      PresentKeeps(told, effects);
      var shown := PresentRequests(told, effects);
      GoodBody(shown, [], []);
      SendPendingMakes(cfg, shown);
      PassedOn(w, met, shown);
      DueIs(cfg, w, shown, SendPending(cfg, shown), effects);
    } else {
      PresentCrashed(told, effects);
      SendPendingCrashed(cfg, told);
    }
  }

  lemma OwingBody(w: World, extra: seq<Permission>, owed: seq<Effect>)
    requires Owing(w, [], extra, owed)
    ensures Body(w)
  {
  }

  lemma PassedOn(w: World, met: World, told: World)
    requires told.life.wire == met.life.wire && told.pump == met.pump.(backlog := told.pump.backlog)
    ensures forall asked :: Made(w, met, asked) ==> Made(w, told, asked)
  {
  }

  lemma DueIs(cfg: Config, w: World, shown: World, last: World, effects: seq<Effect>)
    requires var ms := MilestonesOf(effects);
      Made(w, shown, if ms == [] then Asked(w.pump.machine, w.pump.pending, [])
                     else if ms[0].Initialized? then After(NewSession(w.pump.machine, cfg.cwd), w.pump.machine, w.pump.pending)
                     else PromptDue(w.pump.machine, w.pump.pending))
    requires Made(shown, last, PromptDue(shown.pump.machine, shown.pump.pending))
    requires MilestonesOf(effects) != [] && MilestonesOf(effects)[0].Initialized? ==> w.pump.machine.phase == READY
    ensures Made(w, if Completes(effects) then last else shown, AskOf(cfg.cwd, w.pump.machine, w.pump.pending, effects))
  {
    hide MilestonesOf, Completes;
    assert w.life.wire + [] == w.life.wire;
    assert forall a: seq<Message> :: w.life.wire + a + [] == w.life.wire + a;
  }

  // ---- Whole drains ----

  /** After wire bytes: the protocol of the lines, then what their effects are due. */
  lemma ReceiveMakes(cfg: Config, w: World, data: Bytes)
    requires WorldOk(w) && w.crash.None? && !w.ended && w.pump.alive && Receive(cfg, w, data).crash.None?
    ensures var w' := Receive(cfg, w, data); var drained := Codec.Drain(cfg.text, w.pump.decoder + data);
      var p := Protocol(w.pump.machine, drained.0); var asked := AskOf(cfg.cwd, p.machine, w.pump.pending, p.effects);
      && p.ok && !w'.ended && w'.pump.alive && w'.pump.decoder == drained.1
      && w'.pump.machine == asked.machine && w'.pump.pending == asked.pending
      && w'.life.wire == w.life.wire + p.out + asked.requests
      && (MilestonesOf(p.effects) != [] && MilestonesOf(p.effects)[0].Initialized? ==> p.machine.phase == READY)
  {
    hide MilestonesOf, Owing, FoldResults, ApplyEffects, MidOk, Codec.Drain, Protocol, AllRenderable, Interrupted, Behind, AskOf, SameStream;
    var drained := Codec.Drain(cfg.text, w.pump.decoder + data);
    var start := w.(pump := w.pump.(decoder := drained.1));
    DecoderAside(w, drained.1);
    FoldFollows(cfg, start, [], drained.0);
    var folded, p := FoldResults(cfg, start, drained.0), Protocol(w.pump.machine, drained.0);
    assert [] + p.effects == p.effects;
    ApplyMakes(cfg, folded.0, p.effects);
    ApplyRuns(cfg, folded.0, p.effects);
  }

  /** Nothing the agent sends ends the editor. */
  lemma ApplyRuns(cfg: Config, w: World, effects: seq<Effect>)
    requires MidOk(w, effects) && ApplyEffects(cfg, w, effects).crash.None?
    ensures !ApplyEffects(cfg, w, effects).ended
  {
    hide Milestones, Forward, PresentRequests, SendPending, Owing, MidOk, Deliverable, AllRenderable, Surfaced, Completes;
    var met := Milestones(cfg, w, effects);
    MilestonesKeep(cfg, w, effects);
    DeliverableRenderable(effects);
    ForwardKeeps(met, Deliverable(effects), [], Surfaced(effects));
    var told := Forward(met, Deliverable(effects));
    if told.crash.None? {
      PresentKeeps(told, effects);
      PresentRuns(told, effects);
      SendPendingKeeps(cfg, PresentRequests(told, effects), [], [], []);
    } else {
      PresentCrashed(told, effects);
      SendPendingCrashed(cfg, told);
    }
  }

  // ---- Drains of one or two answers ----

  lemma OneFrame(t: JsonText, m: Message, rest: Bytes)
    requires Legible(t, ToJson(m))
    ensures Codec.Drain(t, [] + (Encode(t, ToJson(m)) + rest))
            == ([DecodedFrame(ToJson(m))] + Codec.Drain(t, rest).0, Codec.Drain(t, rest).1)
    ensures ParseMessage(ToJson(m)) == Some(m)
  {
    hide Codec.Drain, Encode, Legible, ToJson, ParseMessage;
    EncodedLine(t, ToJson(m), rest);
    assert [] + (Encode(t, ToJson(m)) + rest) == Encode(t, ToJson(m)) + rest;
    ParseUndoesToJson(m);
  }

  lemma NoFrame(t: JsonText)
    ensures Codec.Drain(t, []) == ([], [])
  {
  }

  /** One line on its own. */
  lemma OneLine(t: JsonText, m: Message)
    requires Legible(t, ToJson(m))
    ensures Codec.Drain(t, [] + Encode(t, ToJson(m))) == ([DecodedFrame(ToJson(m))], [])
    ensures ParseMessage(ToJson(m)) == Some(m)
  {
    hide Codec.Drain, Encode, Legible, ToJson, ParseMessage;
    OneFrame(t, m, []);
    NoFrame(t);
    var line, frame := Encode(t, ToJson(m)), DecodedFrame(ToJson(m));
    assert line + [] == line && [frame] + [] == [frame];
  }

  /** Two lines in one chunk. */
  lemma TwoLines(t: JsonText, m: Message, n: Message)
    requires Legible(t, ToJson(m)) && Legible(t, ToJson(n))
    ensures Codec.Drain(t, [] + (Encode(t, ToJson(m)) + Encode(t, ToJson(n)))) == ([DecodedFrame(ToJson(m))] + [DecodedFrame(ToJson(n))], [])
    ensures ParseMessage(ToJson(m)) == Some(m) && ParseMessage(ToJson(n)) == Some(n)
  {
    hide Codec.Drain, Encode, Legible, ToJson, ParseMessage;
    OneFrame(t, m, Encode(t, ToJson(n)));
    OneLine(t, n);
    assert [] + Encode(t, ToJson(n)) == Encode(t, ToJson(n));
  }

  /** Anything but a request that the machine folds without replying. */
  lemma OneProtocol(m: Machine, message: Message)
    requires !message.Request? && ParseMessage(ToJson(message)) == Some(message)
    requires var r := Handle(m, message); r.Folded? && r.out == []
    ensures var r := Handle(m, message);
      Protocol1(m, DecodedFrame(ToJson(message))) == Folding(r.machine, [], [], r.effects, true)
  {
    hide Handle, ToJson, ParseMessage;
  }

  lemma OneLineProtocol(m: Machine, x: DecodeResult)
    requires Protocol1(m, x).ok
    ensures Protocol(m, [x]) == Protocol1(m, x)
  {
    hide Protocol1;
    assert [x][1..] == [];
    var first := Protocol1(m, x);
    assert Protocol(first.machine, []) == Folding(first.machine, [], [], [], true);
    assert first.out + [] == first.out && first.accepted + [] == first.accepted && first.effects + [] == first.effects;
  }

  lemma TwoProtocol(m: Machine, x: DecodeResult, y: DecodeResult)
    requires Protocol1(m, x).ok && Protocol1(Protocol1(m, x).machine, y).ok
    ensures var p := Protocol1(m, x); var q := Protocol1(p.machine, y);
      Protocol(m, [x] + [y]) == Folding(q.machine, p.out + q.out, p.accepted + q.accepted, p.effects + q.effects, true)
  {
    hide Protocol1;
    assert [x][1..] == [] && [y][1..] == [];
    ProtocolSplits(m, [x], [y]);
    var p := Protocol1(m, x);
    var q := Protocol1(p.machine, y);
    OneLineProtocol(m, x);
    OneLineProtocol(p.machine, y);
  }

  /** One such line alone in a chunk. */
  lemma OneAnswer(cfg: Config, w: World, m: Message)
    requires WorldOk(w) && w.crash.None? && !w.ended && w.pump.alive && w.pump.decoder == []
    requires !m.Request? && Legible(cfg.text, ToJson(m))
    requires var r := Handle(w.pump.machine, m); r.Folded? && r.out == [] && AllRenderable(r.effects)
    ensures var w' := Next(cfg, w, WireBytes(Encode(cfg.text, ToJson(m)))); var r := Handle(w.pump.machine, m);
      var asked := AskOf(cfg.cwd, r.machine, w.pump.pending, r.effects);
      && w'.crash.None? && WorldOk(w') && !w'.ended && w'.pump.alive && w'.pump.decoder == []
      && w'.pump.machine == asked.machine && w'.pump.pending == asked.pending && w'.life.wire == w.life.wire + asked.requests
  {
    hide WorldOk, Receive, Handle, Codec.Drain, Encode, Legible, ToJson, ParseMessage, AskOf, AllRenderable, Protocol, Protocol1;
    OneLine(cfg.text, m);
    OneProtocol(w.pump.machine, m);
    OneLineProtocol(w.pump.machine, DecodedFrame(ToJson(m)));
    var data := Encode(cfg.text, ToJson(m));
    ReceiveKeeps(cfg, w, data);
    ReceiveMakes(cfg, w, data);
    assert w.life.wire + [] == w.life.wire;
  }

  // ---- Keys that answer the agent ----

  /** Replies go out, effects are passed on, and the pump is otherwise the same. */
  lemma RepliesStay(cfg: Config, w: World, machine: Machine, out: seq<Message>, effects: seq<Effect>)
    requires Body(w)
    ensures var w' := Forward(SendAll(cfg, Produced(w.(pump := w.pump.(machine := machine)), effects), out), effects);
      w'.crash.None? ==>
        && Body(w') && w'.pump.machine == machine && w'.pump.pending == w.pump.pending && w'.pump.alive == w.pump.alive
        && w.life.wire <= w'.life.wire
  {
    hide SessionOk, DeliveryTarget, SendAll, Grows, Forward, AllRenderable;
    var moved := Produced(w.(pump := w.pump.(machine := machine)), effects);
    SendAllFrame(cfg, moved, out);
    var sent := SendAll(cfg, moved, out);
    ForwardFrame(sent, effects);
  }

  /** A submitted prompt starts a child if there is none, joins the queue and goes out if it can. */
  lemma SubmitMakes(cfg: Config, w: World, text: string, launch: Option<Fault>)
    requires Good(w, [], [])
    ensures var w' := Submit(cfg, w, text, launch); var m := w.pump.machine;
      if !w.pump.alive && launch.Some? then w'.pump == w.pump.(diagnostics := w'.pump.diagnostics)
      else
        && (!w.pump.alive ==> Start(m).Sent?)
        && var asked := PromptDue(if w.pump.alive then m else Start(m).machine, w.pump.pending + [text]);
           w'.pump.machine == asked.machine && w'.pump.pending == asked.pending
  {
    hide Body, Ledger, Coupled, SendRequest, SendPending, Log, Start, Waiting, PromptDue;
    GoodBody(w, [], []);
    if !w.pump.alive && launch.Some? {
      LogAside(cfg, w, LaunchFailed(launch.value));
    } else {
      var up := w.(pump := w.pump.(alive := true));
      BodyAgain(w, up);
      if !w.pump.alive {
        StartStep(cfg, w, text);
        StartSent(w);
        SendRequestFrame(cfg, up, Start(w.pump.machine));
      }
      var running := if w.pump.alive then w else SendRequest(cfg, up, Start(w.pump.machine));
      NoCrash(running);
      BodyAgain(running, Queued(running, text));
      SendPendingMakes(cfg, Queued(running, text));
    }
  }

  lemma BodyAgain(w: World, w': World)
    requires Body(w) && w'.session == w.session && w'.crash == w.crash
    requires w'.pump.transcript == w.pump.transcript && w'.pump.diagnostics == w.pump.diagnostics
    ensures Body(w')
  {
    hide SessionOk;
  }

  lemma StartSent(w: World)
    requires Good(w, [], []) && !w.pump.alive
    ensures Start(w.pump.machine).Sent?
  {
    hide Body, Ledger, Coupled, Waiting;
  }

  lemma ExecCrashed(w: World, c: Command)
    ensures w.crash.Some? ==> Exec(w, c) == w
  {
  }
}
