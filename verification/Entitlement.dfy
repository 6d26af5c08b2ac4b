/** Nothing is approved without asking that the human has not chosen to approve. */
module Entitlement {
  import opened Prelude
  import opened Acp
  import opened Transcript
  import opened Machine
  import opened MachineInvariants
  import opened Approvals
  import opened Events
  import opened SessionSpec
  import opened PermissionQueue
  import opened Messages
  import opened Codec
  import opened PumpSpec
  import opened PumpFrames
  import opened PumpInvariants
  import opened PumpRuns
  import opened Genesis
  import opened StreamChunks
  import opened Drains
  import opened Malformed

  function LogKey(log: seq<Choice>, pr: Prompts, c: Command): seq<Choice> {
    var d := Chosen(pr, c);
    if d.Some? && d.value.Selected? then log + [Choice(pr.choice.value.params, d.value.optionId)] else log
  }

  /** The options the human has chosen in this child's life, read off the keys. */
  function Log1(log: seq<Choice>, w: World, st: Stimulus): seq<Choice> {
    if w.crash.Some? || w.ended then log
    else match st
      case UserKey(c, _, _) => LogKey(log, w.session.pr, c)
      case ChildExit(_) => []
      case _ => log
  }

  function ChoicesMade(cfg: Config, log: seq<Choice>, w: World, inputs: seq<Stimulus>): seq<Choice>
    decreases |inputs|
  {
    if inputs == [] then log else ChoicesMade(cfg, Log1(log, w, inputs[0]), Next(cfg, w, inputs[0]), inputs[1..])
  }

  function Cache(w: World): seq<Identity> { w.pump.machine.approvals }

  // ---- What touches the cache ----

  lemma SentKeepsCache(m: Machine, text: string)
    ensures Prompt(m, text).Sent? ==> Prompt(m, text).machine.approvals == m.approvals
    ensures Start(m).Sent? ==> Start(m).machine.approvals == m.approvals
  {
  }

  lemma SubmitKeepsCache(cfg: Config, w: World, text: string, launch: Option<Fault>)
    requires Good(w, [], [])
    ensures Cache(Submit(cfg, w, text, launch)) == Cache(w)
  {
    hide Body, Ledger, Coupled, Submit, Start, Prompt, Waiting;
    SubmitMakes(cfg, w, text, launch);
    if w.pump.alive || launch.None? {
      SentKeepsCache(w.pump.machine, text);
      var m := if w.pump.alive then w.pump.machine else Start(w.pump.machine).machine;
      SentKeepsCache(m, (w.pump.pending + [text])[0]);
    }
  }

  lemma DecisionJustified(cfg: Config, w: World, id: RequestId, d: Decision, log: seq<Choice>)
    requires Good(w, [id], []) && Justified(Cache(w), log)
    ensures var w' := Decision1(cfg, w, id, d); var m := w.pump.machine;
      w'.crash.None? && id in m.params
      ==> Justified(Cache(w'), if d.Selected? then log + [Choice(m.params[id], d.optionId)] else log)
  {
    hide Body, SendAll, Ledger, Resolve, Coupled, Forward, Waiting, Produced, Owing, Justified, MachineOk;
    GoodBody(w, [id], []);
    OwesCoupled(w, [id], []);
    var m := w.pump.machine;
    ResolveCouples(m, w.session.pr, id, d);
    ResolveKeepsOk(m, id, d);
    var r := Resolve(m, id, d);
    if r.Folded? {
      RepliesStay(cfg, w, r.machine, r.out, r.effects);
      ResolveJustified(m, id, d, log);
    }
  }

  lemma QuitKeepsCache(cfg: Config, w: World)
    requires Good(w, [], []) && Outstanding(w.session.pr) == []
    ensures Quit(cfg, w).crash.None? ==> Cache(Quit(cfg, w)) == Cache(w)
  {
    hide Body, SendAll, Ledger, Coupled, Forward, Waiting, Produced, Owing, Cancel, Exec, MachineOk;
    GoodBody(w, [], []);
    OwesCoupled(w, [], []);
    var m := w.pump.machine;
    if m.phase == PROMPT_IN_FLIGHT {
      CancelAnswersAll(m);
      var r := Cancel(m);
      RepliesStay(cfg, w, r.machine, r.out, r.effects);
      var told := Forward(SendAll(cfg, Produced(w.(pump := w.pump.(machine := r.machine)), r.effects), r.out), r.effects);
      if told.crash.None? { AbortStep(told); } else { ExecCrashed(told, AbortPendingPermissions); }
    }
  }

  /** The request on screen is the one the machine has awaited longest. */
  lemma ScreenIsTracked(w: World)
    requires Good(w, [], []) && w.session.pr.choice.Some?
    ensures var p, m := w.session.pr.choice.value, w.pump.machine; p.id in m.params && m.params[p.id] == p.params
  {
    hide Body, Ledger, MachineOk, Waiting;
    var p := w.session.pr.choice.value;
    assert p in Requests(w.session.pr) + [];
  }

  /** What the pump does about one user command's events. */
  lemma ActionJustified(cfg: Config, w: World, next: World, c: Command, events: seq<Event>, launch: Option<Fault>, log: seq<Choice>)
    requires Good(w, [], []) && !w.ended && Good(next, Decided(events), []) && ActsFirst(events) && next.pump == w.pump
    requires events != [] && events[0].KeyboardQuitEvent? ==> w.session.pr.input.None? && next.session.pr == w.session.pr
    requires DecidesFirst(w.session.pr, events, Chosen(w.session.pr, c)) && Justified(Cache(w), log)
    ensures var w' := AfterCommand(cfg, next, events, launch); w'.crash.None? ==> Justified(Cache(w'), LogKey(log, w.session.pr, c))
  {
    hide Owing, AfterCommand, Decided, Submit, Decision1, Quit, ActsFirst, Outstanding, Justified, Chosen;
    if events == [] {
      NothingHappens(cfg, next, launch);
    } else {
      AfterTheFirst(cfg, next, events, launch);
      match events[0] {
        case AgentPromptSubmitted(text) => SubmitKeepsCache(cfg, next, text, launch);
        case PermissionDecided(id, d) =>
          ScreenIsTracked(w);
          DecisionJustified(cfg, next, id, d, log);
        case KeyboardQuitEvent =>
          NoPromptNothingOutstanding(w);
          QuitKeepsCache(cfg, next);
        case _ =>
      }
    }
  }

  lemma KeyJustified(cfg: Config, w: World, c: Command, fault: Option<Fault>, launch: Option<Fault>, log: seq<Choice>)
    requires Good(w, [], []) && !w.ended && (UserIssued(c) || c.ResizeFrame?) && Justified(Cache(w), log)
    ensures var w' := Key(cfg, w, c, fault, launch); 
      w'.crash.None? ==> Justified(Cache(w'), Log1(log, w, UserKey(c, fault, launch)))
  {
    hide Owing, Step, AfterCommand, Decided, Justified, Chosen, DecidesFirst, LogKey, ActsFirst;
    GoodBody(w, [], []);
    var r := Step(w.session, c, fault);
    if !r.raised {
      KeyCouples(w, c, fault);
      UserActsFirst(w.session, c, fault);
      KeyDecides(w.session, c, fault);
      ActionJustified(cfg, w, w.(session := r.session, ended := EditorExited in r.events), c, r.events, launch, log);
    }
  }

  lemma {:induction false} ProtocolKeepsCache(m: Machine, results: seq<DecodeResult>)
    requires MachineOk(m)
    ensures var p := Protocol(m, results); p.ok ==> p.machine.approvals == m.approvals && MachineOk(p.machine)
    decreases |results|
  {
    hide Handle, ParseMessage, Accepts, MachineOk, FoldsCleanly, Raises;
    if results != [] {
      if results[0].DecodedFrame? && ParseMessage(results[0].value).Some? {
        var message := ParseMessage(results[0].value).value;
        HandleKeepsOk(m, message);
        if Handle(m, message).Folded? {
          HandleKeepsApprovals(m, message);
          CleanMachine(m, message);
        }
      }
      var first := Protocol1(m, results[0]);
      if first.ok { ProtocolKeepsCache(first.machine, results[1..]); }
    }
  }

  /** The pump's own request keeps the cache, or opens a session with an empty one. */
  lemma AskKeepsCache(cwd: string, m: Machine, pending: seq<string>, effects: seq<Effect>)
    ensures var cache := AskOf(cwd, m, pending, effects).machine.approvals; cache == m.approvals || cache == []
  {
    hide MilestonesOf, Completes, SessionJson;
  }

  lemma ReceiveKeepsCache(cfg: Config, w: World, data: Bytes)
    requires WorldOk(w) && w.crash.None? && !w.ended
    ensures var w' := PumpSpec.Receive(cfg, w, data); w'.crash.None? ==> Cache(w') == Cache(w) || Cache(w') == []
  {
    hide PumpSpec.Receive, Owing, Codec.Drain, Protocol, MachineOk, AskOf;
    if w.pump.alive && PumpSpec.Receive(cfg, w, data).crash.None? {
      OwesCoupled(w, [], []);
      ReceiveMakes(cfg, w, data);
      var p := Protocol(w.pump.machine, Codec.Drain(cfg.text, w.pump.decoder + data).0);
      ProtocolKeepsCache(w.pump.machine, Codec.Drain(cfg.text, w.pump.decoder + data).0);
      AskKeepsCache(cfg.cwd, p.machine, w.pump.pending, p.effects);
    } else {
      DeadKeeps(cfg, w, data);
    }
  }

  lemma DeadKeeps(cfg: Config, w: World, data: Bytes)
    ensures !w.pump.alive ==> PumpSpec.Receive(cfg, w, data) == w
  {
  }

  lemma NextJustified(cfg: Config, w: World, st: Stimulus, log: seq<Choice>)
    requires WorldOk(w) && w.crash.None? && FromUser(st) && Justified(Cache(w), log)
    ensures Next(cfg, w, st).crash.None? ==> Justified(Cache(Next(cfg, w, st)), Log1(log, w, st))
  {
    hide Owing, Key, PumpSpec.Receive, Log, Forward, Exec, Leftovers, Justified, Chosen;
    NothingJustified();
    if !w.ended {
      match st {
        case UserKey(c, fault, launch) => KeyJustified(cfg, w, c, fault, launch, log);
        case WireBytes(data) => ReceiveKeepsCache(cfg, w, data); EmptyJustified(log);
        case ChildStderr(data) =>
          GoodBody(w, [], []);
          LogAside(cfg, w, Stderr(data));
        case ChildExit(status) =>
      }
    }
  }

  lemma EmptyJustified(log: seq<Choice>)
    ensures Justified([], log)
  {
  }

  lemma {:induction false} RunIsJustified(cfg: Config, w: World, inputs: seq<Stimulus>, log: seq<Choice>)
    requires WorldOk(w) && w.crash.None? && Justified(Cache(w), log)
    requires forall i :: 0 <= i < |inputs| ==> FromUser(inputs[i])
    ensures var w' := RunWorld(cfg, w, inputs); w'.crash.None? ==> Justified(Cache(w'), ChoicesMade(cfg, log, w, inputs))
    decreases |inputs|
  {
    hide Next, WorldOk, Justified, Log1, Cache;
    if inputs != [] {
      var next := Next(cfg, w, inputs[0]);
      NextJustified(cfg, w, inputs[0], log);
      NextKeeps(cfg, w, inputs[0]);
      if next.crash.None? {
        RunIsJustified(cfg, next, inputs[1..], Log1(log, w, inputs[0]));
      } else {
        CrashStays(cfg, next, inputs[1..]);
      }
    }
  }

  /** Whatever the human, the agent and the pipes have done, and wherever in a drain the
      request stands: one that is answered without asking has had a session-wide or
      permanent option of the same identity chosen at the keyboard in this child's life. */
  lemma {:induction false} UnaskedIsEntitled(cfg: Config, g: InitialBuffer, frame: Option<(nat, nat)>, wording: Wording,
                                             disk: map<string, string>, inputs: seq<Stimulus>, before: seq<DecodeResult>,
                                             id: RequestId, params: Json)
    requires ValidGenesis(g) && forall i :: 0 <= i < |inputs| ==> FromUser(inputs[i])
    requires var w := Reached(cfg, g, frame, wording, disk, inputs); var p := Protocol(w.pump.machine, before);
      && w.crash.None? && p.ok
      && var r := Handle(p.machine, Request(id, REQUEST_PERMISSION, params)); r.Folded? && Answered(r.out) != []
    ensures EntitledBy(ChoicesMade(cfg, [], InitialWorld(InitialSession(g, frame, wording, disk)), inputs), IdentityOf(params))
  {
    hide Reached, InitialSession, WorldOk, Protocol, ChoicesMade, Entitles, IdentityOf, HandleRequest, MachineOk;
    var start := InitialWorld(InitialSession(g, frame, wording, disk));
    InitialIsOk(g, frame, wording, disk);
    NothingJustified();
    RunIsJustified(cfg, start, inputs, []);
    ReachedIsOk(cfg, g, frame, wording, disk, inputs);
    var w := Reached(cfg, g, frame, wording, disk, inputs);
    ReachedIs(cfg, g, frame, wording, disk, inputs);
    WorldMachine(w);
    ProtocolKeepsCache(w.pump.machine, before);
    var m := Protocol(w.pump.machine, before).machine;
    AnsweredIsCached(m, id, params);
    var i :| 0 <= i < |m.approvals| && m.approvals[i] == IdentityOf(params);
    assert EntitledBy(ChoicesMade(cfg, [], start, inputs), m.approvals[i]);
  }

  lemma ReachedIs(cfg: Config, g: InitialBuffer, frame: Option<(nat, nat)>, wording: Wording, disk: map<string, string>,
                  inputs: seq<Stimulus>)
    ensures Reached(cfg, g, frame, wording, disk, inputs) == RunWorld(cfg, InitialWorld(InitialSession(g, frame, wording, disk)), inputs)
  {
    hide RunWorld, InitialSession;
  }

  lemma WorldMachine(w: World)
    requires WorldOk(w) && w.crash.None?
    ensures MachineOk(w.pump.machine)
  {
    hide Body, Ledger, Waiting, MachineOk;
  }

  lemma AnsweredIsCached(m: Machine, id: RequestId, params: Json)
    requires var r := HandleRequest(m, id, REQUEST_PERMISSION, params); r.Folded? && Answered(r.out) != []
    ensures IdentityOf(params) in m.approvals
  {
    hide IdentityOf, Options, SelectAuto, Resolve;
    assert Answered([]) == [];
  }
}
