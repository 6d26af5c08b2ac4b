/** The agent pump as the program runs it, beside a live session. */
module LivePump {
  import opened Prelude
  import opened Buffers
  import opened Acp
  import opened Machine
  import opened Events
  import opened SessionSpec
  import opened SessionInvariants
  import opened Messages
  import opened Codec
  import opened PumpSpec
  import opened PumpInvariants
  import opened PumpRuns
  import opened MachineInvariants
  import opened PermissionQueue
  import opened LiveSession

  class AgentPump {
    const cfg: Config
    var machine: Machine
    var decoder: JsonRpcDecoder
    var alive: bool
    var pending: seq<string>
    var transcript: Option<BufferId>
    var diagnostics: Option<BufferId>
    var backlog: seq<Effect>
    /** Writes made so far; which of them fail is the channel's affair. */
    var writes: nat
    /** The exception on its way out, which makes everything after it do nothing. */
    var crash: Option<Crash>
    /** The editor loop's flag, set by the key that exits. */
    var ended: bool
    ghost var life: Life
    /** Where the pump started, and every input of the loop since. */
    ghost var origin: World
    ghost var heard: seq<Stimulus>

    ghost function Core(): Pump
      reads this, decoder
    {
      Pump(machine, decoder.buffer, alive, pending, transcript, diagnostics, backlog)
    }

    ghost function View(s: EditorSession): World
      reads this, decoder, s
    {
      World(Core(), s.View(), life, writes, ended, crash)
    }

    /** Pump and session together are the run of what the loop has heard. */
    ghost predicate Valid(s: EditorSession)
      reads this, decoder, s
    {
      s.Valid() && Retold(cfg, origin, heard, View(s))
    }

    /** A pump beside a session that has no permission prompt open or queued. */
    constructor (cfg: Config, s: EditorSession)
      requires s.Valid() && Waiting(s.Pr()) && Outstanding(s.Pr()) == []
      ensures fresh(decoder) && Valid(s) && View(s) == InitialWorld(s.View()) && this.cfg == cfg
      ensures origin == View(s) && heard == []
    {
      hide SessionOk, Recounted, Outstanding, WorldOk;
      this.cfg := cfg;
      origin, heard := InitialWorld(s.View()), [];
      machine, alive, pending, transcript, diagnostics, backlog := FRESH, false, [], None, None, [];
      decoder := new JsonRpcDecoder();
      writes, crash, ended, life := 0, None, false, NEW_LIFE;
      StartIsOk(s.View());
    }

    /** One input of the editor loop: a key, bytes from the child, or its death. */
    method Turn(s: EditorSession, st: Stimulus)
      requires Valid(s) && FromUser(st)
      modifies this, decoder, s
      ensures Valid(s) && (decoder == old(decoder) || fresh(decoder))
      ensures View(s) == Next(cfg, old(View(s)), st) && origin == old(origin) && heard == old(heard) + [st]
    {
      hide SessionOk, Recounted, Step, PumpSpec.AfterCommand, PumpSpec.Receive, PumpSpec.Exited, PumpSpec.Log, Retold;
      ghost var start, before := origin, heard;
      OneMoreTurn(cfg, origin, heard, View(s), st);
      if crash.None? && !ended {
        match st {
          case UserKey(c, fault, launch) => Key(s, c, fault, launch);
          case WireBytes(data) => Receive(s, data);
          case ChildStderr(data) => Diagnostics(s, data);
          case ChildExit(status) => Exited(s, status);
        }
      }
      origin, heard := start, before + [st];
    }

    /** Dispatch a key, then do what its events ask of the agent. */
    method Key(s: EditorSession, c: Command, fault: Option<Fault>, launch: Option<Fault>)
      requires s.Valid() && crash.None? && !ended
      modifies this, s
      ensures s.Valid() && decoder == old(decoder) && View(s) == PumpSpec.Key(cfg, old(View(s)), c, fault, launch)
    {
      hide SessionOk, Recounted, Step, PumpSpec.AfterCommand;
      var seen := |s.transcript|;
      ghost var events := Step(s.View(), c, fault).events;
      var raised := s.Dispatch(c, fault);
      if raised {
        RaisedLeavesAlone(old(s.View()), c, fault);
        crash := Some(MalformedPayload);
      } else {
        var updates := s.transcript[seen..];
        assert updates == events;
        ended := EditorExited in updates;
        AfterCommand(s, updates, launch);
      }
    }

    // ---- The session's side ----

    /** One dispatch; an exception stays in flight. */
    method Apply(s: EditorSession, c: Command)
      requires s.Valid()
      modifies this`crash, this`life, s
      ensures s.Valid() && View(s) == Exec(old(View(s)), c)
    {
      hide Step, SessionOk, Recounted;
      if crash.Some? {
        return;
      }
      var known := if c.DeliverSessionEffects? then DeliveryTarget(s.Ed(), c.target) else false;
      ghost var events := Step(s.View(), c, None).events;
      var raised := s.Dispatch(c, None);
      if raised {
        RaisedLeavesAlone(old(s.View()), c, None);
        crash := Some(if known then MalformedPayload else BadDeliveryTarget);
      } else {
        life := life.(delivered := life.delivered + DeliveredBy(events));
      }
    }

    /** Append to the diagnostics buffer, minting it on first use. */
    method Log(s: EditorSession, entry: LogEntry)
      requires s.Valid()
      modifies this`crash, this`life, this`diagnostics, s
      ensures s.Valid() && View(s) == PumpSpec.Log(cfg, old(View(s)), entry)
    {
      hide SessionOk, Recounted, Exec;
      if crash.Some? {
        return;
      }
      if diagnostics.None? {
        Apply(s, CreateGeneratedBuffer(DIAGNOSTICS_BUFFER));
        diagnostics := Lookup(s.generated, DIAGNOSTICS_BUFFER);
      }
      if diagnostics.None? {
        crash := Some(BadDeliveryTarget);
        return;
      }
      Apply(s, InsertAgentText(cfg.wordLog(entry), diagnostics.value));
    }

    // ---- The child's side ----

    /** Write an envelope; a broken pipe is logged, not raised. */
    method Write(s: EditorSession, message: Message)
      requires s.Valid()
      modifies this`crash, this`life, this`diagnostics, this`writes, s
      ensures s.Valid() && View(s) == Send(cfg, old(View(s)), message)
    {
      hide SessionOk, Recounted, PumpSpec.Log;
      if crash.Some? {
        return;
      }
      var failed := cfg.fails(writes);
      writes := writes + 1;
      life := life.(wire := life.wire + [message]);
      if failed { Log(s, WriteFailed); }
    }

    method WriteAll(s: EditorSession, messages: seq<Message>)
      requires s.Valid()
      modifies this`crash, this`life, this`diagnostics, this`writes, s
      ensures s.Valid() && View(s) == SendAll(cfg, old(View(s)), messages)
    {
      hide SessionOk, Recounted, Send;
      var i := 0;
      while i < |messages|
        invariant 0 <= i <= |messages| && s.Valid()
        invariant SendAll(cfg, View(s), messages[i..]) == SendAll(cfg, old(View(s)), messages)
      {
        assert messages[i..][1..] == messages[i + 1..];
        Write(s, messages[i]);
        i := i + 1;
      }
    }

    /** Make one of our own requests; out of phase it raises. */
    method Request(s: EditorSession, made: Sent)
      requires s.Valid()
      modifies this`crash, this`life, this`diagnostics, this`writes, this`machine, s
      ensures s.Valid() && View(s) == SendRequest(cfg, old(View(s)), made)
    {
      hide SessionOk, Recounted, Send;
      if crash.Some? {
        return;
      }
      if made.OutOfPhase? {
        crash := Some(OutOfPhaseCall);
        return;
      }
      machine := made.machine;
      Write(s, made.request);
    }

    /** Send the oldest held prompt if the protocol can carry one now. */
    method SendPending(s: EditorSession)
      requires s.Valid()
      modifies this`crash, this`life, this`diagnostics, this`writes, this`machine, this`pending, s
      ensures s.Valid() && View(s) == PumpSpec.SendPending(cfg, old(View(s)))
    {
      hide SessionOk, Recounted, SendRequest, Prompt;
      if crash.Some? || pending == [] || machine.phase != SESSION_ACTIVE {
        return;
      }
      var text := pending[0];
      pending := pending[1..];
      Request(s, Prompt(machine, text));
    }

    // ---- Effects ----

    /** To the transcript, or to the backlog while there is none. */
    method Pass(s: EditorSession, effects: seq<Effect>)
      requires s.Valid()
      modifies this`crash, this`life, this`backlog, s
      ensures s.Valid() && View(s) == Forward(old(View(s)), effects)
    {
      hide SessionOk, Recounted, Exec;
      if crash.Some? || effects == [] {
        return;
      }
      if transcript.None? {
        backlog := backlog + effects;
      } else {
        Apply(s, DeliverSessionEffects(effects, transcript.value));
      }
    }

    /** Mint the session's buffer, show it, and let go of what was held. */
    method Bind(s: EditorSession, sid: string)
      requires s.Valid()
      modifies this, s
      ensures s.Valid() && decoder == old(decoder) && View(s) == PumpSpec.Bind(cfg, old(View(s)), sid)
    {
      hide SessionOk, Recounted, Exec, Forward, PumpSpec.SendPending;
      Apply(s, CreateAgentBuffer(sid));
      if crash.Some? {
        return;
      }
      var id := Lookup(s.agents, sid);
      if id.None? {
        crash := Some(BadDeliveryTarget);
        return;
      }
      transcript := id;
      Apply(s, DisplayBuffer(id.value));
      var held := backlog;
      backlog := [];
      Pass(s, held);
      SendPending(s);
    }

    /** Answer the milestones as they come; the rest is for the transcript and the human. */
    method AnswerMilestones(s: EditorSession, effects: seq<Effect>) returns (deliverable: seq<Effect>, requests: seq<Permission>)
      requires s.Valid()
      modifies this, s
      ensures s.Valid() && decoder == old(decoder) && View(s) == Milestones(cfg, old(View(s)), effects)
      ensures deliverable == Deliverable(effects) && requests == Asked(effects)
    {
      hide SessionOk, Recounted, PumpSpec.Bind, SendRequest, NewSession, Milestones, Deliverable, Asked;
      deliverable, requests := [], [];
      var i := 0;
      while i < |effects|
        invariant 0 <= i <= |effects| && s.Valid() && decoder == old(decoder)
        invariant Milestones(cfg, View(s), effects[i..]) == Milestones(cfg, old(View(s)), effects)
        invariant deliverable + Deliverable(effects[i..]) == Deliverable(effects)
        invariant requests + Asked(effects[i..]) == Asked(effects)
      {
        var e := effects[i];
        MilestonesStep(cfg, View(s), effects, i);
        DeliverableStep(effects, i);
        if e.Initialized? {
          Request(s, NewSession(machine, cfg.cwd));
        } else if e.SessionEstablished? {
          Bind(s, e.sessionId);
        } else {
          deliverable := deliverable + [e];
          if e.PermissionRequested? { requests := requests + [e.request]; }
        }
        i := i + 1;
      }
      MilestonesDone(cfg, View(s));
      assert effects[i..] == [];
      assert deliverable + [] == deliverable && requests + [] == requests;
    }

    method AskHuman(s: EditorSession, requests: seq<Permission>)
      requires s.Valid()
      modifies this`crash, this`life, s
      ensures s.Valid() && View(s) == AskAll(old(View(s)), requests)
    {
      hide SessionOk, Recounted, Exec;
      var i := 0;
      while i < |requests|
        invariant 0 <= i <= |requests| && s.Valid()
        invariant AskAll(View(s), requests[i..]) == AskAll(old(View(s)), requests)
      {
        assert requests[i..][1..] == requests[i + 1..];
        Apply(s, PromptPermission(requests[i]));
        i := i + 1;
      }
    }

    /** Answer the milestones, deliver the rest, put the requests to the human. */
    method ApplyEffects(s: EditorSession, effects: seq<Effect>)
      requires s.Valid()
      modifies this, s
      ensures s.Valid() && decoder == old(decoder) && View(s) == PumpSpec.ApplyEffects(cfg, old(View(s)), effects)
    {
      hide SessionOk, Recounted, Forward, PumpSpec.SendPending, Milestones, Deliverable, PresentRequests, Completes, AskAll, Asked;
      var deliverable, requests := AnswerMilestones(s, effects);
      Pass(s, deliverable);
      PresentIsAsk(View(s), effects);
      AskHuman(s, requests);
      if Completes(effects) { SendPending(s); }
    }

    // ---- The loop's entry points ----

    /** The human submitted a prompt. */
    method Submit(s: EditorSession, text: string, launch: Option<Fault>)
      requires s.Valid()
      modifies this, s
      ensures s.Valid() && decoder == old(decoder) && View(s) == PumpSpec.Submit(cfg, old(View(s)), text, launch)
    {
      hide SessionOk, Recounted, PumpSpec.Log, SendRequest, PumpSpec.SendPending, Start;
      if crash.Some? {
        return;
      }
      if !alive {
        if launch.Some? {
          Log(s, LaunchFailed(launch.value));
          return;
        }
        alive := true;
        Request(s, Start(machine));
        if crash.Some? {
          return;
        }
      }
      pending := pending + [text];
      life := life.(submitted := life.submitted + [text]);
      SendPending(s);
    }

    /** Wire bytes: every complete line is folded, then their effects are acted on at once. */
    method Receive(s: EditorSession, data: Bytes)
      requires s.Valid()
      modifies this, decoder, s
      ensures s.Valid() && decoder == old(decoder) && View(s) == PumpSpec.Receive(cfg, old(View(s)), data)
    {
      hide SessionOk, Recounted, Handle, SendAll, ParseMessage, PumpSpec.ApplyEffects, Accepts, Codec.Drain, Behind, Interrupted, FoldResult;
      if crash.Some? || !alive {
        return;
      }
      decoder.Feed(data);
      var results, raised := decoder.Messages(cfg.text);
      if raised {
        crash := Some(MalformedPayload);
        return;
      }
      ghost var start := View(s);
      assert results[0..] == results && [] + FoldResults(cfg, start, results).1 == FoldResults(cfg, start, results).1;
      var effects: seq<Effect> := [];
      var i := 0;
      while i < |results|
        invariant 0 <= i <= |results| && s.Valid() && decoder == old(decoder)
        invariant crash.None?
        invariant var rest := FoldResults(cfg, View(s), results[i..]);
          (rest.0, effects + rest.1) == FoldResults(cfg, start, results)
      {
        FoldStep(cfg, View(s), results, i);
        ReadWhole(results, i);
        var produced: seq<Effect>;
        produced := Fold(s, results[i]);
        if crash.Some? {
          FoldCrashed(cfg, View(s), results[i + 1..]);
          return;
        }
        ghost var more := FoldResults(cfg, View(s), results[i + 1..]).1;
        assert effects + (produced + more) == (effects + produced) + more;
        effects := effects + produced;
        i := i + 1;
      }
      assert effects + [] == effects;
      ApplyEffects(s, effects);
    }

    /** One decoded line through the machine, its replies to the wire. */
    method Fold(s: EditorSession, result: DecodeResult) returns (produced: seq<Effect>)
      requires s.Valid() && !result.ReaderRaised?
      modifies this, s
      ensures s.Valid() && decoder == old(decoder)
      ensures (View(s), produced) == FoldResult(cfg, old(View(s)), result)
    {
      hide SessionOk, Recounted, Handle, SendAll, ParseMessage, Accepts;
      produced := [];
      if crash.Some? {
        return;
      }
      if result.DecodeFailure? {
        produced := [ProtocolError(InvalidJson(result.line))];
        life := life.(produced := life.produced + produced);
        return;
      }
      var parsed := ParseMessage(result.value);
      if parsed.None? {
        produced := [ProtocolError(InvalidEnvelope(result.value))];
        life := life.(produced := life.produced + produced);
        return;
      }
      var folded := Handle(machine, parsed.value);
      if !folded.Folded? {
        crash := Some(MalformedPayload);
        return;
      }
      AcceptsRequest(machine, parsed.value);
      life := life.(accepted := life.accepted + if Accepts(machine, parsed.value) then [parsed.value.id] else [],
                    produced := life.produced + folded.effects);
      machine := folded.machine;
      WriteAll(s, folded.out);
      produced := folded.effects;
    }

    /** The child is gone: say so, sweep its requests, start over. */
    method Exited(s: EditorSession, status: Option<int>)
      requires s.Valid()
      modifies this, s
      ensures s.Valid() && (decoder == old(decoder) || fresh(decoder))
      ensures View(s) == PumpSpec.Exited(cfg, old(View(s)), status)
    {
      hide SessionOk, Recounted, Forward, Exec, PumpSpec.Reset;
      var effects := [ProtocolError(AgentExit(status))];
      if crash.None? { life := life.(produced := life.produced + effects); }
      Pass(s, effects);
      Apply(s, AbortPendingPermissions);
      Reset(s);
    }

    /** Let go of the child; what was never delivered or sent goes to the log. */
    method Abandon(s: EditorSession)
      requires s.Valid()
      modifies this, s
      ensures s.Valid() && decoder == old(decoder) && View(s) == Leftovers(cfg, old(View(s)))
    {
      hide SessionOk, Recounted, PumpSpec.Log;
      alive := false;
      var held, unsent := backlog, pending;
      backlog := [];
      if held != [] { Log(s, Undelivered(held)); }
      if unsent != [] { Log(s, Unsent(unsent)); }
    }

    /** A fresh peer next time. */
    method Reset(s: EditorSession)
      requires s.Valid()
      modifies this, s
      ensures s.Valid() && (decoder == old(decoder) || fresh(decoder))
      ensures View(s) == PumpSpec.Reset(cfg, old(View(s)))
    {
      hide SessionOk, Recounted, Leftovers;
      if crash.Some? {
        return;
      }
      Abandon(s);
      if crash.Some? {
        return;
      }
      pending, machine, transcript, life := [], FRESH, None, NEW_LIFE;
      decoder := new JsonRpcDecoder();
    }

    /** Child stderr never reaches the wire decoder. */
    method Diagnostics(s: EditorSession, data: Bytes)
      requires s.Valid()
      modifies this, s
      ensures s.Valid() && decoder == old(decoder) && View(s) == PumpSpec.Log(cfg, old(View(s)), Stderr(data))
    {
      hide SessionOk, Recounted;
      Log(s, Stderr(data));
    }

    /** The human's answer goes to the machine and its response to the wire. */
    method Decide(s: EditorSession, id: RequestId, d: Decision)
      requires s.Valid()
      modifies this, s
      ensures s.Valid() && decoder == old(decoder) && View(s) == Decision1(cfg, old(View(s)), id, d)
    {
      hide SessionOk, Recounted, Resolve, SendAll, Forward;
      if crash.Some? {
        return;
      }
      var resolved := Resolve(machine, id, d);
      match resolved {
        case NotTracked =>
          life := life.(produced := life.produced + [ProtocolError(NotInFlight(id))]);
          Pass(s, [ProtocolError(NotInFlight(id))]);
        case Unhashable => crash := Some(MalformedPayload);
        case Folded(next, out, effects) =>
          machine := next;
          life := life.(produced := life.produced + effects);
          WriteAll(s, out);
          Pass(s, effects);
      }
    }

    /** `C-g` in a turn: tell the agent first, then clear the screen. */
    method QuitTurn(s: EditorSession)
      requires s.Valid()
      modifies this, s
      ensures s.Valid() && decoder == old(decoder) && View(s) == Quit(cfg, old(View(s)))
    {
      hide SessionOk, Recounted, Sweep, SendAll, Forward, Exec;
      if crash.Some? || machine.phase != PROMPT_IN_FLIGHT {
        return;
      }
      var cancelled := CancelTurn(machine);
      machine := cancelled.machine;
      life := life.(produced := life.produced + cancelled.effects);
      WriteAll(s, cancelled.out);
      Pass(s, cancelled.effects);
      Apply(s, AbortPendingPermissions);
    }

    /** Act on what a user's command asked of the agent. */
    method AfterCommand(s: EditorSession, events: seq<Event>, launch: Option<Fault>)
      requires s.Valid()
      modifies this, s
      ensures s.Valid() && decoder == old(decoder) && View(s) == PumpSpec.AfterCommand(cfg, old(View(s)), events, launch)
    {
      hide SessionOk, Recounted, PumpSpec.Submit, Decision1, Quit;
      var i := 0;
      while i < |events|
        invariant 0 <= i <= |events| && s.Valid() && decoder == old(decoder)
        invariant PumpSpec.AfterCommand(cfg, View(s), events[i..], launch) == PumpSpec.AfterCommand(cfg, old(View(s)), events, launch)
      {
        assert events[i..][1..] == events[i + 1..];
        match events[i] {
          case AgentPromptSubmitted(text) => Submit(s, text, launch);
          case PermissionDecided(id, d) => Decide(s, id, d);
          case KeyboardQuitEvent => QuitTurn(s);
          case _ =>
        }
        i := i + 1;
      }
    }
  }

  // ---- What the objects are ----

  /** A world is the run of these inputs from a good start. */
  ghost predicate Retold(cfg: Config, origin: World, heard: seq<Stimulus>, now: World) {
    WorldOk(origin) && (forall i :: 0 <= i < |heard| ==> FromUser(heard[i])) && now == RunWorld(cfg, origin, heard)
  }

  lemma {:induction false} TurnExtends(cfg: Config, w: World, heard: seq<Stimulus>, st: Stimulus)
    ensures RunWorld(cfg, w, heard + [st]) == Next(cfg, RunWorld(cfg, w, heard), st)
    decreases |heard|
  {
    hide Next;
    if heard == [] {
      assert [st][1..] == [];
      assert heard + [st] == [st];
    } else {
      assert (heard + [st])[0] == heard[0] && (heard + [st])[1..] == heard[1..] + [st];
      TurnExtends(cfg, Next(cfg, w, heard[0]), heard[1..], st);
    }
  }

  lemma OneMoreTurn(cfg: Config, origin: World, heard: seq<Stimulus>, now: World, st: Stimulus)
    requires Retold(cfg, origin, heard, now) && FromUser(st)
    ensures Retold(cfg, origin, heard + [st], Next(cfg, now, st))
  {
    hide Next, WorldOk, FromUser;
    TurnExtends(cfg, origin, heard, st);
  }

  /** Whatever the two objects have been through, while no exception is on its way out:
      what is on screen or queued is what the machine awaits, submitted prompts are sent
      or held in order, and of what came out of the machine everything but the
      milestones has reached the transcript or is held, in order. */
  lemma PumpKeepsAccount(p: AgentPump, s: EditorSession)
    requires p.Valid(s) && p.crash.None?
    ensures Outstanding(s.Pr()) == p.machine.incoming && RequestIds(p.life.wire) == FirstIds(p.machine.nextId)
    ensures p.life.submitted == SentPrompts(p.life.wire) + p.pending
    ensures Deliverable(p.life.produced) == p.life.delivered + p.backlog
    ensures multiset(p.life.accepted) == multiset(Answered(p.life.wire)) + multiset(Outstanding(s.Pr()))
    ensures (p.transcript.Some? <==> Live(p.machine.phase)) && (p.transcript.Some? ==> p.backlog == [])
  {
    hide SessionOk, RunWorld, Outstanding, Requests, RequestIds, SentPrompts, FirstIds, Answered, MachineOk, Deliverable, Recounted,
         FromUser, DeliveryTarget, AllRenderable;
    RunKeepsWorldOk(p.cfg, p.origin, p.heard);
    assert Ids([]) == [];
    assert p.life.delivered + p.backlog + [] == p.life.delivered + p.backlog;
    assert [] + Outstanding(s.Pr()) + [] == Outstanding(s.Pr());
  }

  // ---- What the loops need ----

  lemma RaisedLeavesAlone(s: Session, c: Command, fault: Option<Fault>)
    ensures Step(s, c, fault).raised ==> Step(s, c, fault) == Outcome(s, [], true)
  {
    hide Settle, Append, Create, InputKey, Backspace, Accept, Abort, Layout, Prompting, EditCurrent, Save, SettleOn, AllRenderable,
         DeliveryTarget;
    hide Arm; if Plain(c) && !(s.pr.input.Some? && !PassesGate(c)) { ArmSettles(s, c, fault); }
  }

  function Asked(effects: seq<Effect>): seq<Permission>
    decreases |effects|
  {
    if effects == [] then []
    else (if effects[0].PermissionRequested? then [effects[0].request] else []) + Asked(effects[1..])
  }

  function AskAll(w: World, requests: seq<Permission>): World
    decreases |requests|
  {
    if requests == [] then w else AskAll(Exec(w, PromptPermission(requests[0])), requests[1..])
  }

  lemma {:induction false} PresentIsAsk(w: World, effects: seq<Effect>)
    ensures PresentRequests(w, effects) == AskAll(w, Asked(effects))
    decreases |effects|
  {
    hide Exec;
    if effects != [] {
      if effects[0].PermissionRequested? {
        PresentIsAsk(Exec(w, PromptPermission(effects[0].request)), effects[1..]);
        assert Asked(effects)[1..] == Asked(effects[1..]);
      } else {
        PresentIsAsk(w, effects[1..]);
        assert Asked(effects) == Asked(effects[1..]);
      }
    }
  }

  lemma MilestonesStep(cfg: Config, w: World, effects: seq<Effect>, i: nat)
    requires i < |effects|
    ensures Milestones(cfg, w, effects[i..]) == Milestones(cfg, Milestone1(cfg, w, effects[i]), effects[i + 1..])
  {
    hide PumpSpec.Bind, SendRequest;
    assert effects[i..][1..] == effects[i + 1..];
  }

  lemma MilestonesDone(cfg: Config, w: World)
    ensures Milestones(cfg, w, []) == w && Deliverable([]) == [] && Asked([]) == []
  {
  }

  lemma DeliverableStep(effects: seq<Effect>, i: nat)
    requires i < |effects|
    ensures Deliverable(effects[i..]) == (if Milestone(effects[i]) then [] else [effects[i]]) + Deliverable(effects[i + 1..])
    ensures Asked(effects[i..]) == (if effects[i].PermissionRequested? then [effects[i].request] else []) + Asked(effects[i + 1..])
  {
    assert effects[i..][1..] == effects[i + 1..];
  }

  lemma ReadWhole(results: seq<DecodeResult>, i: nat)
    requires !Interrupted(results) && i < |results|
    ensures !results[i].ReaderRaised?
  {
  }

  lemma FoldStep(cfg: Config, w: World, results: seq<DecodeResult>, i: nat)
    requires i < |results|
    ensures var first := FoldResult(cfg, w, results[i]); var rest := FoldResults(cfg, first.0, results[i + 1..]);
      FoldResults(cfg, w, results[i..]) == (rest.0, first.1 + rest.1)
  {
    hide FoldResult;
    assert results[i..][1..] == results[i + 1..];
  }
}
