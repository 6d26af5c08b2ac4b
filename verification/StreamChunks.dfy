/** A bound session sees a byte stream, not its chunks. */
module StreamChunks {
  import opened Prelude
  import opened Buffers
  import opened Acp
  import opened Transcript
  import opened Machine
  import opened MachineInvariants
  import opened Events
  import opened SessionSpec
  import opened SessionInvariants
  import opened SessionRuns
  import opened PermissionQueue
  import opened Messages
  import opened Codec
  import opened PumpSpec
  import opened PumpFrames
  import opened PumpInvariants
  import opened PumpRuns

  // ---- The protocol alone ----

  lemma {:induction false} ProtocolSplits(m: Machine, a: seq<DecodeResult>, b: seq<DecodeResult>)
    ensures var first := Protocol(m, a); var second := Protocol(first.machine, b); var whole := Protocol(m, a + b);
      && (whole.ok <==> first.ok && second.ok)
      && (whole.ok ==> whole == Folding(second.machine, first.out + second.out, first.accepted + second.accepted,
                                        first.effects + second.effects, true))
    decreases |a|
  {
    hide Protocol1;
    if a == [] {
      assert a + b == b;
    } else {
      assert (a + b)[0] == a[0] && (a + b)[1..] == a[1..] + b;
      if Protocol1(m, a[0]).ok { ProtocolSplits(Protocol1(m, a[0]).machine, a[1..], b); }
    }
  }

  // ---- What the user sees of the session ----

  /** The pump (but for where diagnostics go), the child's life, the prompts and the
      transcript. */
  datatype Seen = Seen(pump: Pump, life: Life, pr: Prompts, text: string, fold: TranscriptFold)

  function TextOf(w: World): string {
    if w.pump.transcript.Some? then BufOf(w.session.ed, w.pump.transcript.value).value.text else ""
  }

  function FoldIn(w: World): TranscriptFold {
    if w.pump.transcript.Some? then FoldOf(w.session.ed, w.pump.transcript.value) else FRESH_FOLD
  }

  function See(w: World): Seen {
    Seen(w.pump.(diagnostics := None), w.life, w.session.pr, TextOf(w), FoldIn(w))
  }

  function Presented(pr: Prompts, requests: seq<Permission>): Prompts
    decreases |requests|
  {
    if requests == [] then pr
    else
      Presented(if pr.input.Some? then pr.(queue := pr.queue + [requests[0]]) else OpenChoice(pr, requests[0]).0,
                requests[1..])
  }

  lemma {:induction false} PresentedSplits(pr: Prompts, a: seq<Permission>, b: seq<Permission>)
    ensures Presented(pr, a + b) == Presented(Presented(pr, a), b)
    decreases |a|
  {
    if a == [] {
      assert a + b == b;
    } else {
      assert (a + b)[0] == a[0] && (a + b)[1..] == a[1..] + b;
      PresentedSplits(if pr.input.Some? then pr.(queue := pr.queue + [a[0]]) else OpenChoice(pr, a[0]).0, a[1..], b);
    }
  }

  /** Effects as seen from outside: in the transcript, or held until there is one; the
      requests among them on screen or queued. */
  function Told(words: Wording, s: Seen, effects: seq<Effect>): Seen {
    var asked := Presented(s.pr, Surfaced(effects));
    if s.pump.transcript.None? then s.(pump := s.pump.(backlog := s.pump.backlog + effects), pr := asked)
    else
      s.(life := s.life.(delivered := s.life.delivered + effects), pr := asked,
         text := s.text + Rendered(words, s.fold, effects), fold := FoldAfter(words, s.fold, effects))
  }

  function Drawn(s: Seen, decoder: Bytes, p: Folding): Seen {
    s.(pump := s.pump.(decoder := decoder, machine := p.machine),
       life := s.life.(wire := s.life.wire + p.out, accepted := s.life.accepted + p.accepted,
                       produced := s.life.produced + p.effects))
  }

  /** A drain as seen from outside; `None` when something in it raises. */
  function Drained(words: Wording, s: Seen, decoder: Bytes, p: Folding): Option<Seen> {
    if !p.ok || !AllRenderable(p.effects) then None else Some(Told(words, Drawn(s, decoder, p), p.effects))
  }

  function Received(t: JsonText, words: Wording, s: Seen, data: Bytes): Option<Seen> {
    var drained := Codec.Drain(t, s.pump.decoder + data);
    Drained(words, s, drained.1, Protocol(s.pump.machine, drained.0))
  }

  /** Two chunks or one: the same to see. */
  lemma ReceivedSplits(t: JsonText, words: Wording, s: Seen, a: Bytes, b: Bytes)
    ensures var first := Received(t, words, s, a);
      Received(t, words, s, a + b) == if first.None? then None else Received(t, words, first.value, b)
  {
    hide Codec.Drain, Protocol, Told, Drawn, AllRenderable;
    var first := Codec.Drain(t, s.pump.decoder + a);
    assert s.pump.decoder + a + b == s.pump.decoder + (a + b);
    DrainSplits(t, s.pump.decoder + a, b);
    var second := Codec.Drain(t, first.1 + b);
    ProtocolSplits(s.pump.machine, first.0, second.0);
    var p := Protocol(s.pump.machine, first.0);
    var q := Protocol(p.machine, second.0);
    ToldDrawn(words, s, first.1, p);
    if p.ok && q.ok {
      RenderableJoins(p.effects, q.effects);
      TellingSplits(words, s, first.1, second.1, p, q);
    }
  }

  lemma ToldDrawn(words: Wording, s: Seen, decoder: Bytes, p: Folding)
    ensures var t := Told(words, Drawn(s, decoder, p), p.effects); t.pump.decoder == decoder && t.pump.machine == p.machine
  {
  }

  lemma TellingSplits(words: Wording, s: Seen, d: Bytes, d': Bytes, p: Folding, q: Folding)
    ensures var whole := Folding(q.machine, p.out + q.out, p.accepted + q.accepted, p.effects + q.effects, true);
      Told(words, Drawn(s, d', whole), whole.effects)
      == Told(words, Drawn(Told(words, Drawn(s, d, p), p.effects), d', q), q.effects)
  {
    hide Rendered, FoldAfter, Presented, Surfaced;
    RenderingConcatenates(words, s.fold, p.effects, q.effects);
    MilestonesConcatenate(p.effects, q.effects);
    PresentedSplits(s.pr, Surfaced(p.effects), Surfaced(q.effects));
    LifeConcatenates(s, p, q);
    assert s.text + Rendered(words, s.fold, p.effects) + Rendered(words, FoldAfter(words, s.fold, p.effects), q.effects)
           == s.text + (Rendered(words, s.fold, p.effects) + Rendered(words, FoldAfter(words, s.fold, p.effects), q.effects));
  }

  lemma LifeConcatenates(s: Seen, p: Folding, q: Folding)
    ensures s.life.wire + p.out + q.out == s.life.wire + (p.out + q.out)
    ensures s.life.accepted + p.accepted + q.accepted == s.life.accepted + (p.accepted + q.accepted)
    ensures s.life.produced + p.effects + q.effects == s.life.produced + (p.effects + q.effects)
    ensures s.life.delivered + p.effects + q.effects == s.life.delivered + (p.effects + q.effects)
    ensures s.pump.backlog + p.effects + q.effects == s.pump.backlog + (p.effects + q.effects)
  {
  }

  // ---- The pump shows exactly that ----

  /** The same transcript, saying the same; the rest may differ. */
  ghost predicate SameStream(w: World, w': World) {
    && w.pump.transcript == w'.pump.transcript
    && (w.pump.transcript.Some? ==>
          w.session.ed.wording == w'.session.ed.wording && TextOf(w) == TextOf(w') && FoldIn(w) == FoldIn(w'))
  }

  lemma CreationSpares(s: Session, c: Command, id: BufferId)
    requires c.CreateGeneratedBuffer? && id in s.ed.bufs
    ensures var ed := Step(s, c, None).session.ed;
      BufOf(ed, id) == BufOf(s.ed, id) && ed.folds == s.ed.folds && ed.wording == s.ed.wording
  {
    hide FreshName, SettleOn;
    FreshNameIsFresh(c.name, s.ed.bufs.Keys);
    var m := Minted(s.ed, c);
    SettlingSpares(m.0, m.1);
  }

  lemma InsertionSpares(s: Session, c: Command, id: BufferId)
    requires c.InsertAgentText? && c.target != id
    ensures var ed := Step(s, c, None).session.ed;
      BufOf(ed, id) == BufOf(s.ed, id) && ed.folds == s.ed.folds && ed.wording == s.ed.wording
  {
    hide Append, SettleOn;
    AppendSpares(s.ed, c.target, c.agentText, id);
    SettlingSpares(Append(s.ed, c.target, c.agentText).0, c.target);
  }

  lemma AppendSpares(ed: Editor, target: BufferId, text: string, id: BufferId)
    ensures var at := Append(ed, target, text).0;
      && at.folds == ed.folds && at.wording == ed.wording && at.current == ed.current
      && (target != id ==> BufOf(at, id) == BufOf(ed, id))
      && BufOf(at, target).value.text == BufOf(ed, target).value.text + text
  {
    hide Append;
    AppendFrame(ed, target, text);
    assert BufOf(ed, target).value.text + "" == BufOf(ed, target).value.text;
  }

  lemma SettlingSpares(ed: Editor, id: BufferId)
    ensures var at := SettleOn(ed, id); at.bufs == ed.bufs && at.folds == ed.folds && at.wording == ed.wording
  {
    SettleOnFrame(ed, id);
  }

  /** Diagnostics never reach the transcript. */
  lemma LogSpares(cfg: Config, w: World, entry: LogEntry)
    requires Body(w)
    ensures SameStream(w, Log(cfg, w, entry))
  {
    hide SessionOk, DeliveryTarget, Step, Grows, BufOf;
    LogAside(cfg, w, entry);
    AsideBody(w, Log(cfg, w, entry));
    if w.pump.transcript.Some? { LogSparesStream(cfg, w, entry); }
  }

  lemma LogSparesStream(cfg: Config, w: World, entry: LogEntry)
    requires Body(w) && w.pump.transcript.Some? && Body(Log(cfg, w, entry))
    ensures SameStream(w, Log(cfg, w, entry))
  {
    hide SessionOk, DeliveryTarget, Step, Grows, BufOf;
    TargetsAccept(w);
    InBufs(w);
    var id := w.pump.transcript.value;
    if w.pump.diagnostics.None? {
      var c := CreateGeneratedBuffer(DIAGNOSTICS_BUFFER);
      ExecPeer(w, c);
      CreationBinds(w.session, c);
      CreationSpares(w.session, c, id);
      var made := Exec(w, c);
      var d := made.session.ed.generated[DIAGNOSTICS_BUFFER];
      var ready := made.(pump := made.pump.(diagnostics := Some(d)));
      assert Body(ready);
      TargetsAccept(ready);
      InsertionSpares(ready.session, InsertAgentText(cfg.wordLog(entry), d), id);
    } else {
      InsertionSpares(w.session, InsertAgentText(cfg.wordLog(entry), w.pump.diagnostics.value), id);
    }
  }

  lemma InBufs(w: World)
    requires Body(w) && w.pump.transcript.Some?
    ensures w.pump.transcript.value in w.session.ed.bufs
  {
    hide SessionOk;
    TargetsAccept(w);
  }

  lemma SendSpares(cfg: Config, w: World, message: Message)
    requires Body(w)
    ensures SameStream(w, Send(cfg, w, message))
  {
    hide Log, SessionOk, DeliveryTarget, BufOf;
    var sent := w.(life := w.life.(wire := w.life.wire + [message]), writes := w.writes + 1);
    LogSpares(cfg, sent, WriteFailed);
  }

  lemma {:induction false} SendAllSpares(cfg: Config, w: World, messages: seq<Message>)
    requires Body(w)
    ensures SameStream(w, SendAll(cfg, w, messages))
    decreases |messages|
  {
    hide Send, Body, BufOf;
    if messages != [] {
      var next := Send(cfg, w, messages[0]);
      SendSpares(cfg, w, messages[0]);
      SendFrame(cfg, w, messages[0]);
      AsideBody(w.(life := w.life.(wire := w.life.wire + [messages[0]])), next);
      SendAllSpares(cfg, next, messages[1..]);
    }
  }

  /** Folding lines follows the protocol, and shows nothing yet. */
  ghost predicate Follows(w: World, w': World, p: Folding) {
    && w'.pump == w.pump.(machine := p.machine, diagnostics := w'.pump.diagnostics)
    && w'.life == w.life.(wire := w.life.wire + p.out, accepted := w.life.accepted + p.accepted,
                          produced := w.life.produced + p.effects)
    && w'.session.pr == w.session.pr && SameStream(w, w') && w'.ended == w.ended
  }

  lemma FollowsTrans(a: World, b: World, c: World, p: Folding, q: Folding)
    requires Follows(a, b, p) && Follows(b, c, q)
    ensures Follows(a, c, Folding(q.machine, p.out + q.out, p.accepted + q.accepted, p.effects + q.effects, q.ok))
  {
    assert a.life.wire + p.out + q.out == a.life.wire + (p.out + q.out);
    assert a.life.accepted + p.accepted + q.accepted == a.life.accepted + (p.accepted + q.accepted);
    assert a.life.produced + p.effects + q.effects == a.life.produced + (p.effects + q.effects);
  }

  lemma FoldResultFollows(cfg: Config, w: World, result: DecodeResult)
    requires Body(w)
    ensures var r := FoldResult(cfg, w, result); var p := Protocol1(w.pump.machine, result);
      && (r.0.crash.None? <==> p.ok)
      && (p.ok ==> r.1 == p.effects && Follows(w, r.0, p))
  {
    hide SendAll, Handle, ParseMessage, SessionOk, DeliveryTarget, BufOf, Accepts, Grows;
    var p := Protocol1(w.pump.machine, result);
    assert w.life.wire + [] == w.life.wire && w.life.accepted + [] == w.life.accepted;
    if p.ok && result.DecodedFrame? && ParseMessage(result.value).Some? {
      var moved := Produced(w.(pump := w.pump.(machine := p.machine), life := w.life.(accepted := w.life.accepted + p.accepted)),
                            p.effects);
      SendAllFrame(cfg, moved, p.out);
      SendAllSpares(cfg, moved, p.out);
    }
  }

  lemma {:induction false} FoldFollows(cfg: Config, w: World, acc: seq<Effect>, results: seq<DecodeResult>)
    requires MidOk(w, acc)
    ensures var r := FoldResults(cfg, w, results); var p := Protocol(w.pump.machine, results);
      && (r.0.crash.None? <==> p.ok)
      && (p.ok ==> r.1 == p.effects && Follows(w, r.0, p) && MidOk(r.0, acc + r.1))
    decreases |results|
  {
    hide MidOk, FoldResult, Protocol1, Body, BufOf;
    MidBody(w, acc);
    if results == [] {
      assert w.life.wire + [] == w.life.wire && w.life.accepted + [] == w.life.accepted;
      assert w.life.produced + [] == w.life.produced && acc + [] == acc;
    } else {
      FoldResultFollows(cfg, w, results[0]);
      FoldResultKeeps(cfg, w, acc, results[0]);
      var first, p := FoldResult(cfg, w, results[0]), Protocol1(w.pump.machine, results[0]);
      if p.ok {
        FoldFollows(cfg, first.0, acc + first.1, results[1..]);
        var rest, q := FoldResults(cfg, first.0, results[1..]), Protocol(p.machine, results[1..]);
        if q.ok {
          FollowsTrans(w, first.0, rest.0, p, q);
          assert acc + first.1 + rest.1 == acc + (first.1 + rest.1);
        }
      } else {
        FoldCrashed(cfg, first.0, results[1..]);
      }
    }
  }

  lemma {:induction false} AllDeliverable(effects: seq<Effect>)
    requires MilestonesOf(effects) == []
    ensures Deliverable(effects) == effects
    decreases |effects|
  {
    if effects != [] { AllDeliverable(effects[1..]); }
  }

  lemma DeliveryShows(s: Session, effects: seq<Effect>, id: BufferId)
    requires DeliveryTarget(s.ed, id) && AllRenderable(effects)
    ensures var ed := Step(s, DeliverSessionEffects(effects, id), None).session.ed;
      && BufOf(ed, id).value.text == BufOf(s.ed, id).value.text + Rendered(s.ed.wording, FoldOf(s.ed, id), effects)
      && FoldOf(ed, id) == FoldAfter(s.ed.wording, FoldOf(s.ed, id), effects) && ed.wording == s.ed.wording
  {
    hide Rendered, FoldAfter, AllRenderable, Append, SettleOn;
    var fold := FoldOf(s.ed, id);
    var at, text := s.ed.(folds := s.ed.folds[id := FoldAfter(s.ed.wording, fold, effects)]), Rendered(s.ed.wording, fold, effects);
    AppendSpares(at, id, text, id);
    SettlingSpares(Append(at, id, text).0, id);
  }

  lemma DeliverShows(w: World, effects: seq<Effect>)
    requires Body(w) && w.pump.transcript.Some?
    ensures var w' := Forward(w, effects);
      && (w'.crash.None? <==> AllRenderable(effects))
      && (w'.crash.None? ==>
            && Body(w') && w'.pump == w.pump && w'.session.pr == w.session.pr && w'.ended == w.ended
            && w'.life == w.life.(delivered := w.life.delivered + effects)
            && w'.session.ed.wording == w.session.ed.wording
            && TextOf(w') == TextOf(w) + Rendered(w.session.ed.wording, FoldIn(w), effects)
            && FoldIn(w') == FoldAfter(w.session.ed.wording, FoldIn(w), effects))
  {
    hide SessionOk, Step, BufOf, DeliveryTarget, Grows, FoldOf;
    TargetsAccept(w);
    var id := w.pump.transcript.value;
    assert w.life.delivered + [] == w.life.delivered;
    if effects != [] {
      ForwardFrame(w, effects);
      PeerRaises(w.session, DeliverSessionEffects(effects, id));
      if AllRenderable(effects) { DeliveryShows(w.session, effects, id); }
    } else {
      assert TextOf(w) + "" == TextOf(w);
    }
  }

  lemma PromptShows(s: Session, request: Permission, id: BufferId)
    ensures var r := Step(s, PromptPermission(request), None);
      && r.session.pr == Presented(s.pr, [request]) && BufOf(r.session.ed, id).value.text == BufOf(s.ed, id).value.text
      && r.session.ed.folds == s.ed.folds && r.session.ed.wording == s.ed.wording && !r.raised
  {
    assert [request][1..] == [];
    assert Presented(s.pr, [request]) ==
      if s.pr.input.Some? then s.pr.(queue := s.pr.queue + [request]) else OpenChoice(s.pr, request).0;
  }

  lemma OneShows(w: World, request: Permission, rest: seq<Permission>)
    requires Good(w, [], [request] + rest) && !w.ended
    ensures var w' := Exec(w, PromptPermission(request));
      && w'.crash.None? && Good(w', [], rest) && w'.pump == w.pump && w'.life == w.life && !w'.ended && SameStream(w, w')
      && w'.session.pr == Presented(w.session.pr, [request])
  {
    hide Owing, Step, BufOf, Presented, FoldOf;
    GoodBody(w, [], [request] + rest);
    PresentOne(w, request, rest);
    NothingBlocks(w, [request] + rest);
    PromptPermissionStep1(w, request);
    var id := if w.pump.transcript.Some? then w.pump.transcript.value else "";
    PromptShows(w.session, request, id);
    assert w.session.ed.folds == Exec(w, PromptPermission(request)).session.ed.folds;
    SameFold(w.session.ed, Exec(w, PromptPermission(request)).session.ed, id);
  }

  lemma SameFold(ed: Editor, ed': Editor, id: BufferId)
    requires ed.folds == ed'.folds
    ensures FoldOf(ed, id) == FoldOf(ed', id)
  {
  }

  lemma NoBlock(w: World, extra: seq<Permission>)
    requires Good(w, [], extra)
    ensures w.crash.None?
  {
  }

  lemma StreamJoins(a: World, b: World, c: World)
    ensures SameStream(a, a)
    ensures SameStream(a, b) && SameStream(b, c) ==> SameStream(a, c)
  {
    hide TextOf, FoldIn;
  }

  lemma {:induction false} PresentShows(w: World, effects: seq<Effect>)
    requires Good(w, [], Surfaced(effects)) && !w.ended
    ensures var w' := PresentRequests(w, effects);
      && w'.crash.None? && w'.pump == w.pump && w'.life == w.life && SameStream(w, w')
      && w'.session.pr == Presented(w.session.pr, Surfaced(effects))
    decreases |effects|
  {
    hide Owing, Exec, SameStream, Presented;
    NoBlock(w, Surfaced(effects));
    if effects == [] {
      NothingPresented(w.session.pr);
      StreamJoins(w, w, w);
    } else if effects[0].PermissionRequested? {
      var request, rest := effects[0].request, Surfaced(effects[1..]);
      OneShows(w, request, rest);
      var next := Exec(w, PromptPermission(request));
      PresentShows(next, effects[1..]);
      PresentedSplits(w.session.pr, [request], rest);
      StreamJoins(w, next, PresentRequests(next, effects[1..]));
    } else {
      assert Surfaced(effects) == Surfaced(effects[1..]);
      PresentShows(w, effects[1..]);
    }
  }

  lemma NothingBlocks(w: World, extra: seq<Permission>)
    requires Good(w, [], extra) && !w.ended
    ensures Body(w) && Waiting(w.session.pr)
  {
  }

  lemma NothingPresented(pr: Prompts)
    ensures Presented(pr, []) == pr
  {
  }

  lemma PromptPermissionStep1(w: World, request: Permission)
    requires Body(w) && Waiting(w.session.pr)
    ensures Exec(w, PromptPermission(request)).life == w.life
  {
    hide SessionOk, Step, Waiting, Grows;
    PromptPermissionStep(w.session, request);
    assert w.life.delivered + [] == w.life.delivered;
  }

  // ---- Chunking is invisible ----

  lemma BoundStage(w: World, effects: seq<Effect>)
    requires MidOk(w, effects) && w.pump.transcript.Some?
    ensures MilestonesOf(effects) == [] && Body(w)
  {
    hide Body, Ledger, Coupled, Waiting, MilestonesOf;
  }

  /** Nothing the pump could say next waits on these effects. */
  predicate NothingDue(pump: Pump, effects: seq<Effect>) {
    MilestonesOf(effects) == [] && (pump.pending == [] || pump.machine.phase != SESSION_ACTIVE || !Completes(effects))
  }

  /** Acting on effects the pump has no answer to. */
  lemma ApplyShows(cfg: Config, w: World, effects: seq<Effect>)
    requires MidOk(w, effects) && NothingDue(w.pump, effects)
    ensures var w' := ApplyEffects(cfg, w, effects);
      && (w'.crash.None? <==> AllRenderable(effects))
      && (w'.crash.None? ==>
            && See(w') == Told(w.session.ed.wording, See(w), effects) && !w'.ended
            && (w.pump.transcript.Some? ==> w'.session.ed.wording == w.session.ed.wording))
  {
    hide Forward, PresentRequests, Owing, Body, MidOk, Milestones, Deliverable, Surfaced, MilestonesOf, SameStream, Told,
         Presented, AllRenderable, Completes, TextOf, FoldIn;
    MidBody(w, effects);
    MilestonesAreFew(cfg, w, effects);
    MilestonesKeep(cfg, w, effects);
    AllDeliverable(effects);
    MidRuns(w, effects);
    ForwardKeeps(w, effects, [], Surfaced(effects));
    var told := Forward(w, effects);
    if told.crash.None? {
      ForwardShows(w, effects);
      PresentShows(told, effects);
      PresentRuns(told, effects);
      SeenAfter(w, told, PresentRequests(told, effects), effects);
    } else {
      PresentCrashed(told, effects);
    }
  }

  lemma ForwardShows(w: World, effects: seq<Effect>)
    requires Body(w) && Forward(w, effects).crash.None?
    ensures var w' := Forward(w, effects);
      && w'.session.pr == w.session.pr && w'.pump.transcript == w.pump.transcript && w'.ended == w.ended
      && (w.pump.transcript.None? ==>
            w'.life == w.life && w'.pump == w.pump.(backlog := w.pump.backlog + effects))
      && (w.pump.transcript.Some? ==>
            && w'.pump == w.pump && w'.life == w.life.(delivered := w.life.delivered + effects)
            && w'.session.ed.wording == w.session.ed.wording
            && TextOf(w') == TextOf(w) + Rendered(w.session.ed.wording, FoldIn(w), effects)
            && FoldIn(w') == FoldAfter(w.session.ed.wording, FoldIn(w), effects))
  {
    hide Body, Forward, Rendered, FoldAfter, TextOf, FoldIn, AllRenderable;
    ForwardFrame(w, effects);
    if w.pump.transcript.Some? { DeliverShows(w, effects); }
  }

  lemma SeenAfter(w: World, told: World, w': World, effects: seq<Effect>)
    requires told.session.pr == w.session.pr && told.pump.transcript == w.pump.transcript
    requires w.pump.transcript.None? ==> told.life == w.life && told.pump == w.pump.(backlog := w.pump.backlog + effects)
    requires w.pump.transcript.Some? ==>
               && told.pump == w.pump && told.life == w.life.(delivered := w.life.delivered + effects)
               && told.session.ed.wording == w.session.ed.wording
               && TextOf(told) == TextOf(w) + Rendered(w.session.ed.wording, FoldIn(w), effects)
               && FoldIn(told) == FoldAfter(w.session.ed.wording, FoldIn(w), effects)
    requires w'.pump == told.pump && w'.life == told.life && SameStream(told, w')
    requires w'.session.pr == Presented(told.session.pr, Surfaced(effects))
    ensures See(w') == Told(w.session.ed.wording, See(w), effects)
    ensures w.pump.transcript.Some? ==> w'.session.ed.wording == w.session.ed.wording
  {
    hide Presented, Surfaced, Rendered, FoldAfter, BufOf, FoldOf;
  }

  lemma MidRuns(w: World, effects: seq<Effect>)
    requires MidOk(w, effects)
    ensures !w.ended && w.pump.alive
  {
  }

  // A pump that has nothing to answer: none of its requests is unanswered, or no prompt waits.

  predicate Quiet(pump: Pump) { pump.alive && (pump.machine.outgoing == map[] || pump.pending == []) }

  lemma NoCompletion(m: Machine, message: Message)
    requires m.outgoing == map[] && Handle(m, message).Folded?
    ensures !Completes(Handle(m, message).effects)
  {
    hide KindOf, Options, IdentityOf, SelectAuto, Resolve, UpdateEffects;
    if message.Request? { RequestCompletesNothing(m, message.id, message.methodName, message.params); }
    if message.Notification? { UpdateCompletesNothing(m, message.methodName, message.params); }
  }

  lemma RequestCompletesNothing(m: Machine, id: RequestId, methodName: string, params: Json)
    requires HandleRequest(m, id, methodName, params).Folded?
    ensures !Completes(HandleRequest(m, id, methodName, params).effects)
  {
    hide KindOf, Options, IdentityOf, SelectAuto;
  }

  lemma UpdateCompletesNothing(m: Machine, methodName: string, params: Json)
    requires HandleNotification(m, methodName, params).Folded?
    ensures !Completes(HandleNotification(m, methodName, params).effects)
  {
  }

  lemma CompletesJoins(a: seq<Effect>, b: seq<Effect>)
    ensures Completes(a + b) <==> Completes(a) || Completes(b)
  {
    if Completes(a) { var i :| 0 <= i < |a| && a[i].PromptCompleted?; assert (a + b)[i] == a[i]; }
    if Completes(b) { var i :| 0 <= i < |b| && b[i].PromptCompleted?; assert (a + b)[|a| + i] == b[i]; }
  }

  lemma QuietLine(m: Machine, result: DecodeResult)
    requires MachineOk(m) && m.outgoing == map[] && Protocol1(m, result).ok
    ensures var p := Protocol1(m, result);
      && MachineOk(p.machine) && p.machine.outgoing == map[] && p.machine.phase == m.phase
      && MilestonesOf(p.effects) == [] && !Completes(p.effects)
  {
    hide Handle, ParseMessage, MachineOk, Accepts, FoldsCleanly, MilestonesOf;
    match result {
      case DecodeFailure(line) => MilestoneOfOne(ProtocolError(InvalidJson(line)));
      case DecodedFrame(value) =>
        match ParseMessage(value)
        case None => MilestoneOfOne(ProtocolError(InvalidEnvelope(value)));
        case Some(message) =>
          HandleKeepsOk(m, message);
          HandleStages(m, message);
          NoCompletion(m, message);
          FoldsOk(m, message);
    }
  }

  lemma FoldsOk(m: Machine, message: Message)
    requires Handle(m, message).Folded? && FoldsCleanly(m, message, Handle(m, message))
    ensures MachineOk(Handle(m, message).machine)
  {
    hide Handle, MachineOk;
  }

  /** While nothing of ours is unanswered, the agent can neither reach a milestone nor
      complete a turn. */
  lemma {:induction false} QuietProtocol(m: Machine, results: seq<DecodeResult>)
    requires MachineOk(m) && m.outgoing == map[] && Protocol(m, results).ok
    ensures var p := Protocol(m, results);
      p.machine.outgoing == map[] && p.machine.phase == m.phase && MilestonesOf(p.effects) == [] && !Completes(p.effects)
    decreases |results|
  {
    hide Protocol1, MachineOk, MilestonesOf, Completes;
    NothingHappened();
    CompletesNothing();
    if results != [] {
      QuietLine(m, results[0]);
      var first := Protocol1(m, results[0]);
      QuietProtocol(first.machine, results[1..]);
      var rest := Protocol(first.machine, results[1..]);
      MilestonesConcatenate(first.effects, rest.effects);
      CompletesJoins(first.effects, rest.effects);
    }
  }

  lemma CompletesNothing()
    ensures !Completes([])
  {
  }

  /** What a quiet pump makes of a drain is a function of the bytes and of what is seen. */
  lemma ReceiveShows(cfg: Config, w: World, data: Bytes)
    requires WorldOk(w) && w.crash.None? && !w.ended && Quiet(w.pump)
    ensures var w' := Receive(cfg, w, data); var seen := Received(cfg.text, w.session.ed.wording, See(w), data);
      && (w'.crash.None? <==> seen.Some?)
      && (w'.crash.None? ==>
            && See(w') == seen.value && !w'.ended && Quiet(w'.pump)
            && (w.pump.transcript.Some? ==> w'.session.ed.wording == w.session.ed.wording))
  {
    hide Owing, FoldResults, ApplyEffects, MidOk, Codec.Drain, Protocol, TextOf, FoldIn, Rendered, FoldAfter, Presented, Surfaced,
         AllRenderable, Interrupted, Behind, MachineOk, MilestonesOf, Completes;
    OwesCoupled(w, [], []);
    var drained := Codec.Drain(cfg.text, w.pump.decoder + data);
    var p := Protocol(w.pump.machine, drained.0);
    if Interrupted(drained.0) {
      InterruptedFails(w.pump.machine, drained.0);
    } else {
      var start := w.(pump := w.pump.(decoder := drained.1));
      DecoderAside(w, drained.1);
      FoldFollows(cfg, start, [], drained.0);
      var folded := FoldResults(cfg, start, drained.0);
      assert [] + p.effects == p.effects;
      if p.ok {
        QuietStays(w, start, folded.0, drained.0);
        ApplyShows(cfg, folded.0, p.effects);
        DrawnFollows(w, start, folded.0, p);
      }
    }
  }

  lemma QuietStays(w: World, start: World, folded: World, results: seq<DecodeResult>)
    requires Good(w, [], []) && Quiet(w.pump) && start.pump == w.pump.(decoder := start.pump.decoder)
    requires var p := Protocol(w.pump.machine, results); p.ok && Follows(start, folded, p) && MidOk(folded, p.effects)
    ensures var p := Protocol(w.pump.machine, results);
      NothingDue(folded.pump, p.effects) && Quiet(folded.pump.(machine := p.machine))
  {
    hide Body, Ledger, Coupled, Waiting, Protocol, MilestonesOf, Completes, SameStream, AllRenderable, MidOk;
    var p := Protocol(w.pump.machine, results);
    OwesCoupled(w, [], []);
    if w.pump.machine.outgoing == map[] {
      QuietProtocol(w.pump.machine, results);
    } else {
      BoundStage(folded, p.effects);
    }
  }

  lemma DrawnFollows(w: World, start: World, folded: World, p: Folding)
    requires start == w.(pump := w.pump.(decoder := start.pump.decoder)) && Follows(start, folded, p)
    ensures See(folded) == Drawn(See(w), start.pump.decoder, p)
    ensures w.pump.transcript.Some? ==> folded.session.ed.wording == w.session.ed.wording
    ensures folded.pump.transcript == w.pump.transcript
  {
    hide BufOf, FoldOf;
  }

  lemma {:induction false} PresentRuns(w: World, effects: seq<Effect>)
    ensures PresentRequests(w, effects).ended == w.ended && PresentRequests(w, effects).pump == w.pump
    decreases |effects|
  {
    hide Step;
    if effects != [] {
      PresentRuns(if effects[0].PermissionRequested? then Exec(w, PromptPermission(effects[0].request)) else w, effects[1..]);
    }
  }

  function Pieces(chunks: seq<Bytes>): seq<Stimulus>
    decreases |chunks|
  {
    if chunks == [] then [] else [WireBytes(chunks[0])] + Pieces(chunks[1..])
  }

  lemma {:induction false} CrashStays(cfg: Config, w: World, inputs: seq<Stimulus>)
    requires w.crash.Some?
    ensures RunWorld(cfg, w, inputs) == w
    decreases |inputs|
  {
    if inputs != [] { CrashStays(cfg, w, inputs[1..]); }
  }

  lemma OutsideWords(t: JsonText, words: Wording, other: Wording, s: Seen, data: Bytes)
    ensures s.pump.transcript.None? ==> Received(t, words, s, data) == Received(t, other, s, data)
  {
    hide Codec.Drain, Protocol, AllRenderable;
  }

  /** While none of the pump's requests is unanswered, or no prompt waits, a stream of
      bytes in any chunks leaves the same machine, the same bytes on the wire, the same
      requests on screen and queued and the same transcript or backlog as the stream in
      one piece; one raises exactly when the other does. */
  lemma {:induction false} ChunksLeaveNoTrace(cfg: Config, w: World, chunks: seq<Bytes>)
    requires WorldOk(w) && w.crash.None? && !w.ended && Quiet(w.pump)
    requires chunks != []
    ensures var one := Next(cfg, w, WireBytes(Joined(chunks))); var many := RunWorld(cfg, w, Pieces(chunks));
      && (one.crash.None? <==> many.crash.None?)
      && (one.crash.None? ==> See(one) == See(many))
    decreases |chunks|
  {
    hide WorldOk, Receive, See, Received, Quiet;
    var whole, words := Joined(chunks), w.session.ed.wording;
    ReceiveShows(cfg, w, whole);
    ReceiveShows(cfg, w, chunks[0]);
    ReceiveKeeps(cfg, w, chunks[0]);
    var first := Next(cfg, w, WireBytes(chunks[0]));
    assert Pieces(chunks)[0] == WireBytes(chunks[0]) && Pieces(chunks)[1..] == Pieces(chunks[1..]);
    if chunks[1..] == [] {
      assert chunks[0] + [] == chunks[0];
    } else {
      ReceivedSplits(cfg.text, words, See(w), chunks[0], Joined(chunks[1..]));
      if first.crash.None? {
        ChunksLeaveNoTrace(cfg, first, chunks[1..]);
        ReceiveShows(cfg, first, Joined(chunks[1..]));
        SeenTranscript(cfg.text, words, w, first, chunks[0]);
        OutsideWords(cfg.text, words, first.session.ed.wording, See(first), Joined(chunks[1..]));
      } else {
        CrashStays(cfg, first, Pieces(chunks[1..]));
      }
    }
  }

  lemma SeenTranscript(t: JsonText, words: Wording, w: World, w': World, data: Bytes)
    requires Received(t, words, See(w), data) == Some(See(w'))
    ensures See(w').pump.transcript == w.pump.transcript
  {
    hide Codec.Drain, Protocol, AllRenderable, TextOf, FoldIn, Rendered, FoldAfter, Presented, Surfaced;
  }

}
