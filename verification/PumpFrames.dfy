/** What the pump's building blocks touch, and what they leave alone. */
module PumpFrames {
  import opened Prelude
  import opened Buffers
  import opened Acp
  import opened Transcript
  import opened Events
  import opened SessionSpec
  import opened SessionInvariants
  import opened SessionRuns
  import opened PumpSpec

  /** The buffers the pump writes to exist and accept deliveries. */
  ghost predicate TargetsOk(w: World) {
    && (w.pump.transcript.Some? ==> w.pump.transcript.value in w.session.ed.agents.Values)
    && (w.pump.diagnostics.Some? ==> w.pump.diagnostics.value in w.session.ed.generated.Values)
  }

  ghost predicate Body(w: World) { w.crash.None? && SessionOk(w.session) && TargetsOk(w) }

  /** Nothing but a malformed payload ever raises. */
  predicate Fine(w: World) { w.crash.None? || w.crash == Some(MalformedPayload) }

  /** The prompts, the pump and the child's life are as they were; only buffers grew
      and the diagnostics buffer may have been minted. */
  ghost predicate Aside(w: World, w': World) {
    && Body(w') && w'.session.pr == w.session.pr && Grows(w.session.ed, w'.session.ed)
    && w'.pump == w.pump.(diagnostics := w'.pump.diagnostics) && w'.life == w.life && w'.ended == w.ended
  }

  // ---- Single dispatches ----

  predicate PeerCommand(c: Command) {
    c.InsertAgentText? || c.CreateAgentBuffer? || c.CreateGeneratedBuffer? || c.DisplayBuffer? || c.DeliverSessionEffects?
  }

  lemma {:induction false} NothingDelivered(events: seq<Event>)
    requires forall i :: 0 <= i < |events| ==> !events[i].AgentTranscriptUpdated?
    ensures DeliveredBy(events) == []
    decreases |events|
  {
    if events != [] {
      assert !events[0].AgentTranscriptUpdated?;
      NothingDelivered(events[1..]);
    }
  }

  lemma PeerEvents(s: Session, c: Command)
    requires PeerCommand(c)
    ensures var r := Step(s, c, None);
      && r.session.pr == s.pr
      && (c.DeliverSessionEffects? && !r.raised ==> DeliveredBy(r.events) == c.effects)
      && (!c.DeliverSessionEffects? ==> DeliveredBy(r.events) == [])
  {
    hide Settle, Split, Put, SettleOn, Rendered, FoldAfter, AllRenderable, FreshName;
    var r := Step(s, c, None);
    if c.DeliverSessionEffects? {
      if !r.raised {
        assert r.events[0] == AgentTranscriptUpdated(c.effects, r.events[0].rendered, c.target);
        NothingDelivered(r.events[1..]);
      }
    } else if c.DisplayBuffer? {
      DisplayEvents(s.ed, c.target);
      NothingDelivered(r.events);
    } else {
      NothingDelivered(r.events);
    }
  }

  lemma DisplayEvents(ed: Editor, id: BufferId)
    ensures forall i :: 0 <= i < |Display(ed, id).1| ==> !Display(ed, id).1[i].AgentTranscriptUpdated?
  {
  }

  lemma PeerRaises(s: Session, c: Command)
    requires PeerCommand(c)
    ensures Step(s, c, None).raised <==>
              match c
              case InsertAgentText(_, id) => !DeliveryTarget(s.ed, id)
              case DeliverSessionEffects(effects, id) => !DeliveryTarget(s.ed, id) || !AllRenderable(effects)
              case DisplayBuffer(id) => id !in s.ed.bufs
              case _ => Nameless(s.ed, c)
  {
    hide Settle, Split, Display, Append, SettleOn, Rendered, FoldAfter, AllRenderable, Create;
  }

  /** A chunk whose text is not a string cannot be appended: rendering is not total. */
  lemma RenderingIsNotTotal(s: Session, id: BufferId)
    ensures Step(s, DeliverSessionEffects([AgentTextChunk(Int(1))], id), None).raised
  {
    PeerRaises(s, DeliverSessionEffects([AgentTextChunk(Int(1))], id));
    assert !Renderable([AgentTextChunk(Int(1))][0]);
  }

  lemma GrowthKeepsTargets(w: World, ed': Editor)
    requires TargetsOk(w) && Grows(w.session.ed, ed')
    ensures TargetsOk(w.(session := w.session.(ed := ed')))
  {
  }

  /** The pump writes to two different buffers, and both accept deliveries. */
  lemma TargetsAccept(w: World)
    requires Body(w)
    ensures w.pump.transcript.Some? ==> DeliveryTarget(w.session.ed, w.pump.transcript.value)
    ensures w.pump.diagnostics.Some? ==> DeliveryTarget(w.session.ed, w.pump.diagnostics.value)
    ensures w.pump.transcript.Some? ==> w.pump.transcript != w.pump.diagnostics
  {
    hide BufsOk, ChainsOk, PathsOk, WindowsOk, NoDuplicates, DeliveryTarget, Synced, PromptsOk, PendingOk;
  }

  /** A peer dispatch with a good target cannot fail, except on an unrenderable chunk. */
  lemma ExecPeer(w: World, c: Command)
    requires Body(w) && PeerCommand(c)
    requires c.InsertAgentText? || c.DeliverSessionEffects? ==> DeliveryTarget(w.session.ed, c.target)
    requires c.DisplayBuffer? ==> c.target in w.session.ed.bufs
    requires !Nameless(w.session.ed, c)
    ensures var w' := Exec(w, c);
      && Fine(w')
      && (w'.crash.Some? <==> c.DeliverSessionEffects? && !AllRenderable(c.effects))
      && (w'.crash.None? ==>
            && Body(w') && w'.session.pr == w.session.pr && Grows(w.session.ed, w'.session.ed)
            && w'.session == Step(w.session, c, None).session
            && w'.pump == w.pump && w'.ended == w.ended && w'.writes == w.writes
            && w'.life == w.life.(delivered := w.life.delivered + if c.DeliverSessionEffects? then c.effects else []))
  {
    hide Step, SessionOk, Grows, DeliveryTarget, AllRenderable;
    PeerEvents(w.session, c);
    PeerRaises(w.session, c);
    StepKeepsSessionOk(w.session, c, None);
    var ed, ed' := w.session.ed, Step(w.session, c, None).session.ed;
    GrowthKeepsTargets(w, ed');
  }

  lemma GrowsTrans(a: Editor, b: Editor, c: Editor)
    requires Grows(a, b) && Grows(b, c)
    ensures Grows(a, c)
  {
  }

  lemma MintedBinds(s: Session, c: Command)
    requires (c.CreateAgentBuffer? || c.CreateGeneratedBuffer?) && !Nameless(s.ed, c)
    ensures var ed := Step(s, c, None).session.ed;
      && (c.CreateAgentBuffer? ==> c.acpSession in ed.agents)
      && (c.CreateGeneratedBuffer? ==> c.name in ed.generated)
  {
    hide FreshName, SettleOn;
    var m := Minted(s.ed, c);
    SettleOnFrame(m.0, m.1);
  }

  lemma BoundAccept(s: Session)
    requires SessionOk(s)
    ensures forall k :: k in s.ed.agents ==> DeliveryTarget(s.ed, s.ed.agents[k])
    ensures forall k :: k in s.ed.generated ==> DeliveryTarget(s.ed, s.ed.generated[k])
  {
    hide BufsOk, ChainsOk, PathsOk, WindowsOk, NoDuplicates, Synced, PromptsOk, PendingOk, DeliveryTarget;
  }

  /** Creating binds the requested name, to a buffer that accepts deliveries. */
  lemma CreationBinds(s: Session, c: Command)
    requires SessionOk(s) && (c.CreateAgentBuffer? || c.CreateGeneratedBuffer?) && !Nameless(s.ed, c)
    ensures var ed := Step(s, c, None).session.ed;
      && (c.CreateAgentBuffer? ==> c.acpSession in ed.agents && DeliveryTarget(ed, ed.agents[c.acpSession]))
      && (c.CreateGeneratedBuffer? ==> c.name in ed.generated && DeliveryTarget(ed, ed.generated[c.name]))
  {
    hide SessionOk, Grows, FreshName, SettleOn, Core, Synced, Step, DeliveryTarget;
    StepKeepsSessionOk(s, c, None);
    MintedBinds(s, c);
    var ed := Step(s, c, None).session.ed;
    BoundAccept(Step(s, c, None).session);
  }

  // ---- The log and the wire ----

  lemma LogAside(cfg: Config, w: World, entry: LogEntry)
    requires Body(w)
    ensures Aside(w, Log(cfg, w, entry))
  {
    hide Exec, SessionOk, DeliveryTarget, Grows, Step;
    if w.pump.diagnostics.None? {
      var made := Exec(w, CreateGeneratedBuffer(DIAGNOSTICS_BUFFER));
      ExecPeer(w, CreateGeneratedBuffer(DIAGNOSTICS_BUFFER));
      CreationBinds(w.session, CreateGeneratedBuffer(DIAGNOSTICS_BUFFER));
      var id := made.session.ed.generated[DIAGNOSTICS_BUFFER];
      var ready := made.(pump := made.pump.(diagnostics := Some(id)));
      ExecPeer(ready, InsertAgentText(cfg.wordLog(entry), id));
      GrowsTrans(w.session.ed, made.session.ed, Log(cfg, w, entry).session.ed);
    } else {
      TargetsAccept(w);
      ExecPeer(w, InsertAgentText(cfg.wordLog(entry), w.pump.diagnostics.value));
    }
  }

  /** Writing adds to the wire, whether the write succeeds or fails. */
  lemma SendFrame(cfg: Config, w: World, message: Message)
    requires Body(w)
    ensures Aside(w.(life := w.life.(wire := w.life.wire + [message])), Send(cfg, w, message))
  {
    hide Log, SessionOk, DeliveryTarget;
    var sent := w.(life := w.life.(wire := w.life.wire + [message]), writes := w.writes + 1);
    assert Grows(w.session.ed, w.session.ed) by { GrowsRefl(w.session.ed); }
    LogAside(cfg, sent, WriteFailed);
  }

  lemma AsideTrans(a: World, b: World, c: World)
    requires Aside(a, b) && Aside(b, c)
    ensures Aside(a, c)
  {
    hide Body, Grows;
    GrowsTrans(a.session.ed, b.session.ed, c.session.ed);
  }

  /** Doing something aside and then more to the wire is doing more to the wire aside. */
  lemma AsideWire(a: World, b: World, more: seq<Message>)
    requires Aside(a, b)
    ensures Aside(a.(life := a.life.(wire := a.life.wire + more)), b.(life := b.life.(wire := b.life.wire + more)))
  {
    hide SessionOk, Grows, DeliveryTarget;
  }

  lemma {:induction false} SendAllFrame(cfg: Config, w: World, messages: seq<Message>)
    requires Body(w)
    ensures Aside(w.(life := w.life.(wire := w.life.wire + messages)), SendAll(cfg, w, messages))
    decreases |messages|
  {
    hide Send, Aside, Body;
    if messages == [] {
      assert w.life.wire + [] == w.life.wire;
      AsideRefl(w);
    } else {
      var next := Send(cfg, w, messages[0]);
      SendFrame(cfg, w, messages[0]);
      AsideBody(w.(life := w.life.(wire := w.life.wire + [messages[0]])), next);
      SendAllFrame(cfg, next, messages[1..]);
      AsideWire(w.(life := w.life.(wire := w.life.wire + [messages[0]])), next, messages[1..]);
      assert w.life.wire + [messages[0]] + messages[1..] == w.life.wire + messages by {
        assert messages == [messages[0]] + messages[1..];
      }
      AsideTrans(w.(life := w.life.(wire := w.life.wire + messages)),
                 next.(life := next.life.(wire := next.life.wire + messages[1..])), SendAll(cfg, w, messages));
    }
  }

  lemma AsideRefl(w: World)
    requires Body(w)
    ensures Aside(w, w)
  {
    GrowsRefl(w.session.ed);
  }

  lemma AsideBody(w: World, w': World)
    requires Aside(w, w')
    ensures Body(w')
  {
  }

  lemma NoneRenderable()
    ensures AllRenderable([])
  {
  }

  /** Effects go to the transcript at once, or wait in the backlog. */
  lemma ForwardFrame(w: World, effects: seq<Effect>)
    requires Body(w)
    ensures var w' := Forward(w, effects);
      && Fine(w')
      && (w'.crash.Some? <==> w.pump.transcript.Some? && !AllRenderable(effects))
      && (w'.crash.None? ==>
            && Body(w') && w'.session.pr == w.session.pr && Grows(w.session.ed, w'.session.ed) && w'.ended == w.ended
            && (w.pump.transcript.None? ==>
                  w'.life == w.life && w'.pump == w.pump.(backlog := w.pump.backlog + effects))
            && (w.pump.transcript.Some? ==>
                  w'.life == w.life.(delivered := w.life.delivered + effects) && w'.pump == w.pump))
  {
    hide Exec, SessionOk, DeliveryTarget, AllRenderable, Grows;
    GrowsRefl(w.session.ed);
    NoneRenderable();
    if effects == [] {
      assert w.life.delivered + effects == w.life.delivered && w.pump.backlog + effects == w.pump.backlog;
    } else if w.pump.transcript.Some? {
      TargetsAccept(w);
      ExecPeer(w, DeliverSessionEffects(effects, w.pump.transcript.value));
    }
  }
}
