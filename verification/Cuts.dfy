/** When the cut of the agent's stream shows: exactly while a request is unanswered and a prompt waits. */
module Cuts {
  import opened Prelude
  import opened Acp
  import opened Machine
  import opened MachineInvariants
  import opened SessionSpec
  import opened Messages
  import opened Codec
  import opened PumpSpec
  import opened PumpFrames
  import opened PumpInvariants
  import opened PumpRuns
  import opened StreamChunks
  import opened Drains

  /** A good result for each request of ours. */
  function GoodResult(methodName: string): Json {
    if methodName == SESSION_NEW then Obj(map["sessionId" := Str("s")])
    else if methodName == SESSION_PROMPT then Obj(map["stopReason" := Str("end_turn")])
    else Obj(map[])
  }

  function Answer(id: RequestId, methodName: string): Message { Response(id, GoodResult(methodName)) }

  /** Good answers under the ids in use print and read back. */
  ghost predicate Speaks(t: JsonText, last: nat) {
    forall n: nat, methodName: string :: n <= last ==> Legible(t, ToJson(Answer(IntId(n), methodName)))
  }

  // ---- One good answer ----

  lemma GoodAnswerFolds(m: Machine, id: RequestId)
    requires MachineOk(m) && id in m.outgoing
    ensures var r := Handle(m, Answer(id, m.outgoing[id]));
      && r.Folded? && r.out == [] && r.machine.outgoing == map[] && r.machine.nextId == m.nextId && |r.effects| == 1
      && (if m.phase == INITIALIZING then r.machine.phase == READY && r.effects[0].Initialized?
          else if m.phase == READY then r.machine.phase == SESSION_ACTIVE && r.effects[0].SessionEstablished?
          else r.machine.phase == SESSION_ACTIVE && r.effects[0].PromptCompleted?)
  {
    assert m.outgoing - {id} == map[];
    assert |INITIALIZE| == 10 && |SESSION_NEW| == 11 && |SESSION_PROMPT| == 14;
  }

  /** The pump's next request is then due at once. */
  lemma AskIsDue(cwd: string, m: Machine, pending: seq<string>, effects: seq<Effect>)
    requires pending != [] && m.outgoing == map[] && effects != [] && MilestonesOf(effects[1..]) == []
    requires || (m.phase == READY && effects[0].Initialized?)
             || (m.phase == SESSION_ACTIVE && (effects[0].SessionEstablished? || effects[0].PromptCompleted?))
    ensures var asked := AskOf(cwd, m, pending, effects);
      asked.machine.nextId == m.nextId + 1 && asked.machine.outgoing.Keys == {IntId(m.nextId)}
      && asked.machine.outgoing[IntId(m.nextId)] == (if m.phase == READY then SESSION_NEW else SESSION_PROMPT)
  {
    hide MilestonesOf, SessionJson;
    FirstEffect(effects);
    if effects[0].PromptCompleted? { assert Completes(effects); }
  }

  /** Whatever is asked after a drain, it is under the next id. */
  lemma AskIsNext(cwd: string, m: Machine, pending: seq<string>, effects: seq<Effect>)
    requires m.outgoing == map[]
    ensures AskOf(cwd, m, pending, effects).machine.outgoing.Keys <= {IntId(m.nextId)}
  {
    hide MilestonesOf, Completes, SessionJson;
  }

  lemma OutgoingIsOurs(m: Machine)
    requires MachineOk(m)
    ensures forall id :: id in m.outgoing ==> id.IntId? && 0 <= id.n < m.nextId
  {
    hide IncomingOk;
  }

  lemma Spoken(t: JsonText, last: nat, id: RequestId, methodName: string)
    requires Speaks(t, last) && id.IntId? && 0 <= id.n <= last
    ensures Legible(t, ToJson(Answer(id, methodName)))
  {
    hide Legible, ToJson;
  }

  // ---- Together or apart ----

  /** The answer to the request in flight, and one to the request it will make due. */
  function First(cfg: Config, w: World, id: RequestId): Bytes
    requires id in w.pump.machine.outgoing
  {
    Encode(cfg.text, ToJson(Answer(id, w.pump.machine.outgoing[id])))
  }

  function Second(cfg: Config, w: World): Bytes {
    Encode(cfg.text, ToJson(Answer(IntId(w.pump.machine.nextId),
                                   if w.pump.machine.phase == INITIALIZING then SESSION_NEW else SESSION_PROMPT)))
  }

  lemma RenderableEffects(effects: seq<Effect>)
    requires forall i :: 0 <= i < |effects| ==>
               effects[i].Initialized? || effects[i].SessionEstablished? || effects[i].PromptCompleted? || effects[i].ProtocolError?
    ensures AllRenderable(effects)
  {
  }

  ghost predicate Ready(cfg: Config, w: World, id: RequestId) {
    && WorldOk(w) && w.crash.None? && !w.ended && w.pump.alive && w.pump.decoder == []
    && id in w.pump.machine.outgoing && w.pump.pending != [] && Speaks(cfg.text, w.pump.machine.nextId)
  }

  lemma ReadyFacts(cfg: Config, w: World, id: RequestId)
    requires Ready(cfg, w, id)
    ensures MachineOk(w.pump.machine) && id in w.pump.machine.outgoing && id.IntId? && 0 <= id.n < w.pump.machine.nextId
    ensures Legible(cfg.text, ToJson(Answer(id, w.pump.machine.outgoing[id])))
    ensures forall methodName :: Legible(cfg.text, ToJson(Answer(IntId(w.pump.machine.nextId), methodName)))
    ensures IntId(w.pump.machine.nextId) !in w.pump.machine.outgoing
  {
    hide Owing, MachineOk, Legible, ToJson, Speaks;
    OwesCoupled(w, [], []);
    OutgoingIsOurs(w.pump.machine);
    Spoken(cfg.text, w.pump.machine.nextId, id, w.pump.machine.outgoing[id]);
    forall methodName ensures Legible(cfg.text, ToJson(Answer(IntId(w.pump.machine.nextId), methodName))) {
      Spoken(cfg.text, w.pump.machine.nextId, IntId(w.pump.machine.nextId), methodName);
    }
  }

  /** Apart: the pump asks in between, and the second answer is to that request. */
  lemma ApartIsAnswered(cfg: Config, w: World, id: RequestId)
    requires Ready(cfg, w, id)
    ensures var w' := Next(cfg, Next(cfg, w, WireBytes(First(cfg, w, id))), WireBytes(Second(cfg, w)));
      && w'.crash.None? && WorldOk(w') && IntId(w.pump.machine.nextId) !in w'.pump.machine.outgoing
  {
    hide Ready, WorldOk, MachineOk, Legible, Handle, Next, Encode, ToJson, AskOf, AllRenderable, MilestonesOf, Completes;
    ReadyFacts(cfg, w, id);
    ReadyRuns(cfg, w, id);
    var m := w.pump.machine;
    var k := IntId(m.nextId);
    GoodAnswerFolds(m, id);
    var r := Handle(m, Answer(id, m.outgoing[id]));
    RenderableEffects(r.effects);
    OneAnswer(cfg, w, Answer(id, m.outgoing[id]));
    NothingHappened();
    assert r.effects[1..] == [];
    AskIsDue(cfg.cwd, r.machine, w.pump.pending, r.effects);
    var w1 := Next(cfg, w, WireBytes(First(cfg, w, id)));
    var m1 := w1.pump.machine;
    WorldMachineOk(w1);
    GoodAnswerFolds(m1, k);
    var s := Handle(m1, Answer(k, m1.outgoing[k]));
    RenderableEffects(s.effects);
    OneAnswer(cfg, w1, Answer(k, m1.outgoing[k]));
    AskIsNext(cfg.cwd, s.machine, w1.pump.pending, s.effects);
    PhaseOf(m, id);
  }

  /** A request in flight is told by the phase. */
  lemma PhaseOf(m: Machine, id: RequestId)
    requires MachineOk(m) && id in m.outgoing
    ensures m.phase == INITIALIZING || m.phase == READY || m.phase == PROMPT_IN_FLIGHT
  {
    hide IncomingOk;
  }

  lemma WorldMachineOk(w: World)
    requires WorldOk(w) && w.crash.None?
    ensures MachineOk(w.pump.machine)
  {
    hide Owing, MachineOk;
    OwesCoupled(w, [], []);
  }

  lemma ReadyRuns(cfg: Config, w: World, id: RequestId)
    requires Ready(cfg, w, id)
    ensures WorldOk(w) && w.crash.None? && !w.ended && w.pump.alive && w.pump.decoder == [] && w.pump.pending != []
  {
    hide WorldOk, Speaks;
  }

  lemma StrayAnswer(m: Machine, k: RequestId, methodName: string)
    requires k !in m.outgoing
    ensures Handle(m, Answer(k, methodName)) == Report(m, UnknownResponse(k))
  {
  }

  lemma TogetherProtocol(m: Machine, id: RequestId, k: RequestId, methodName: string)
    requires MachineOk(m) && id in m.outgoing && k != id
    requires var a, b := Answer(id, m.outgoing[id]), Answer(k, methodName);
      ParseMessage(ToJson(a)) == Some(a) && ParseMessage(ToJson(b)) == Some(b)
    ensures var a, b := Answer(id, m.outgoing[id]), Answer(k, methodName); var r := Handle(m, a);
      r.Folded? && Protocol(m, [DecodedFrame(ToJson(a))] + [DecodedFrame(ToJson(b))])
                   == Folding(r.machine, [], [], r.effects + [ProtocolError(UnknownResponse(k))], true)
  {
    hide Handle, ToJson, ParseMessage, MachineOk, Protocol, Protocol1;
    var a, b := Answer(id, m.outgoing[id]), Answer(k, methodName);
    GoodAnswerFolds(m, id);
    var r := Handle(m, a);
    StrayAnswer(r.machine, k, methodName);
    OneProtocol(m, a);
    OneProtocol(r.machine, b);
    TwoProtocol(m, DecodedFrame(ToJson(a)), DecodedFrame(ToJson(b)));
  }

  /** Together: the pump has not asked yet, so the second answer is a stray, and the
      request goes out behind it. */
  lemma TogetherIsNot(cfg: Config, w: World, id: RequestId)
    requires Ready(cfg, w, id)
    ensures var w' := Next(cfg, w, WireBytes(First(cfg, w, id) + Second(cfg, w)));
      && w'.crash.None? && WorldOk(w') && IntId(w.pump.machine.nextId) in w'.pump.machine.outgoing
      && (w.pump.machine.phase == INITIALIZING ==> w'.pump.machine.phase == READY)
  {
    hide Ready, WorldOk, MachineOk, Legible, Handle, Receive, Encode, ToJson, ParseMessage, AskOf, AllRenderable, MilestonesOf, Completes,
         Protocol, Codec.Drain;
    ReadyFacts(cfg, w, id);
    ReadyRuns(cfg, w, id);
    var m := w.pump.machine;
    var k, method' := IntId(m.nextId), if m.phase == INITIALIZING then SESSION_NEW else SESSION_PROMPT;
    GoodAnswerFolds(m, id);
    PhaseOf(m, id);
    var r := Handle(m, Answer(id, m.outgoing[id]));
    TwoLines(cfg.text, Answer(id, m.outgoing[id]), Answer(k, method'));
    TogetherProtocol(m, id, k, method');
    var effects, data := r.effects + [ProtocolError(UnknownResponse(k))], First(cfg, w, id) + Second(cfg, w);
    RenderableEffects(effects);
    ReceiveKeeps(cfg, w, data);
    ReceiveMakes(cfg, w, data);
    MilestoneOfOne(ProtocolError(UnknownResponse(k)));
    assert effects[1..] == [ProtocolError(UnknownResponse(k))];
    AskIsDue(cfg.cwd, r.machine, w.pump.pending, effects);
    AskKeepsReady(cfg.cwd, r.machine, w.pump.pending, effects);
  }

  lemma AskKeepsReady(cwd: string, m: Machine, pending: seq<string>, effects: seq<Effect>)
    ensures m.phase == READY ==> AskOf(cwd, m, pending, effects).machine.phase == READY
  {
    hide MilestonesOf, Completes, SessionJson;
  }

  // ---- Exactly when ----

  /** Two outcomes that cannot be told apart from outside. */
  predicate Alike(one: World, other: World) {
    (one.crash.None? <==> other.crash.None?) && (one.crash.None? ==> See(one) == See(other))
  }

  /** Some stream tells where it was cut. */
  ghost predicate CutShows(cfg: Config, w: World) {
    exists a: Bytes, b: Bytes :: !Alike(Next(cfg, w, WireBytes(a + b)), RunWorld(cfg, w, [WireBytes(a), WireBytes(b)]))
  }

  lemma TwoInputs(cfg: Config, w: World, a: Stimulus, b: Stimulus)
    ensures RunWorld(cfg, w, [a, b]) == Next(cfg, Next(cfg, w, a), b)
  {
    hide Next;
    assert [a, b][1..] == [b] && [b][1..] == [];
    assert RunWorld(cfg, Next(cfg, w, a), [b]) == Next(cfg, Next(cfg, w, a), b);
  }

  /** With a request unanswered and a prompt held, two good answers in one chunk leave the
      second request unanswered, in two chunks answered; in the handshake the chunks
      even decide whether there is a session. */
  lemma CutTellsApart(cfg: Config, w: World, id: RequestId)
    requires Ready(cfg, w, id)
    ensures var a, b := First(cfg, w, id), Second(cfg, w); var k := IntId(w.pump.machine.nextId);
      var one, two := Next(cfg, w, WireBytes(a + b)), RunWorld(cfg, w, [WireBytes(a), WireBytes(b)]);
      && one.crash.None? && two.crash.None? && k in one.pump.machine.outgoing && k !in two.pump.machine.outgoing
      && !Alike(one, two)
      && (w.pump.machine.phase == INITIALIZING ==> one.pump.transcript.None?)
  {
    hide Ready, Owing, Next, MachineOk, TextOf, FoldIn;
    ReadyFacts(cfg, w, id);
    TogetherIsNot(cfg, w, id);
    ApartIsAnswered(cfg, w, id);
    TwoInputs(cfg, w, WireBytes(First(cfg, w, id)), WireBytes(Second(cfg, w)));
    BoundTells(Next(cfg, w, WireBytes(First(cfg, w, id) + Second(cfg, w))));
  }

  lemma BoundTells(w: World)
    requires WorldOk(w) && w.crash.None?
    ensures w.pump.transcript.Some? <==> Live(w.pump.machine.phase)
  {
    hide Body, Ledger, Coupled;
  }

  lemma UncutIsOneChunk(cfg: Config, w: World, a: Bytes, b: Bytes)
    requires WorldOk(w) && w.crash.None? && !w.ended && Quiet(w.pump)
    ensures Alike(Next(cfg, w, WireBytes(a + b)), RunWorld(cfg, w, [WireBytes(a), WireBytes(b)]))
  {
    hide WorldOk, Next, RunWorld, See, Quiet;
    var chunks := [a, b];
    ChunksLeaveNoTrace(cfg, w, chunks);
    assert chunks[1..] == [b] && [b][1..] == [];
    assert Joined(chunks) == a + b by { assert Joined([b]) == b + [] == b; }
    assert Pieces([b]) == [WireBytes(b)];
    assert Pieces(chunks) == [WireBytes(a), WireBytes(b)];
  }

  /** Some stream's cut shows if and only if a request of the pump's is unanswered and a
      prompt is held; at other times no stream's does, in however many chunks. */
  lemma CutsShowExactly(cfg: Config, w: World)
    requires WorldOk(w) && w.crash.None? && !w.ended && w.pump.alive && w.pump.decoder == []
    requires Speaks(cfg.text, w.pump.machine.nextId)
    ensures CutShows(cfg, w) <==> w.pump.machine.outgoing != map[] && w.pump.pending != []
  {
    hide WorldOk, Next, RunWorld, Alike, Speaks;
    if w.pump.machine.outgoing != map[] && w.pump.pending != [] {
      var id :| id in w.pump.machine.outgoing;
      CutTellsApart(cfg, w, id);
    } else {
      forall a: Bytes, b: Bytes
        ensures Alike(Next(cfg, w, WireBytes(a + b)), RunWorld(cfg, w, [WireBytes(a), WireBytes(b)]))
      {
        UncutIsOneChunk(cfg, w, a, b);
      }
    }
  }
}
