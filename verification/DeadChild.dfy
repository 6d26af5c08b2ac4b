/** What a child leaves behind when it dies: nothing is dropped without a word. */
module DeadChild {
  import opened Prelude
  import opened Buffers
  import opened Acp
  import opened Machine
  import opened Events
  import opened SessionSpec
  import opened SessionInvariants
  import opened SessionRuns
  import opened PermissionQueue
  import opened PumpSpec
  import opened PumpFrames
  import opened PumpInvariants
  import opened PumpRuns
  import opened StreamChunks

  /** The text of a buffer, empty where there is none. */
  function TextIn(w: World, id: BufferId): string { BufOf(w.session.ed, id).value.text }

  lemma InsertionShows(s: Session, text: string, id: BufferId)
    requires DeliveryTarget(s.ed, id)
    ensures BufOf(Step(s, InsertAgentText(text, id), None).session.ed, id).value.text == BufOf(s.ed, id).value.text + text
  {
    hide Append, SettleOn;
    AppendSpares(s.ed, id, text, id);
    SettlingSpares(Append(s.ed, id, text).0, id);
  }

  /** Minting the diagnostics buffer adds an empty one or finds the old one. */
  lemma MintingShows(s: Session, name: string)
    requires name != ""
    ensures var ed := Step(s, CreateGeneratedBuffer(name), None).session.ed;
      name in ed.generated && BufOf(ed, ed.generated[name]).value.text == BufOf(s.ed, ed.generated[name]).value.text
  {
    hide FreshName, SettleOn;
    var m := Minted(s.ed, CreateGeneratedBuffer(name));
    FreshNameIsFresh(name, s.ed.bufs.Keys);
    SettlingSpares(m.0, m.1);
    SettleOnFrame(m.0, m.1);
  }

  /** One entry is appended to the diagnostics, and nothing else is. */
  lemma LogShows(cfg: Config, w: World, entry: LogEntry)
    requires Body(w)
    ensures var w' := Log(cfg, w, entry);
      && Body(w') && w'.pump.diagnostics.Some? && (w.pump.diagnostics.Some? ==> w'.pump.diagnostics == w.pump.diagnostics)
      && w'.pump == w.pump.(diagnostics := w'.pump.diagnostics) && w'.life == w.life
      && TextIn(w', w'.pump.diagnostics.value) == TextIn(w, w'.pump.diagnostics.value) + cfg.wordLog(entry)
  {
    hide SessionOk, DeliveryTarget, Step, Grows, BufOf;
    LogAside(cfg, w, entry);
    AsideBody(w, Log(cfg, w, entry));
    TargetsAccept(w);
    var c := CreateGeneratedBuffer(DIAGNOSTICS_BUFFER);
    if w.pump.diagnostics.None? {
      ExecPeer(w, c);
      MintingShows(w.session, DIAGNOSTICS_BUFFER);
      CreationBinds(w.session, c);
      var made := Exec(w, c);
      var d := made.session.ed.generated[DIAGNOSTICS_BUFFER];
      InsertionShows(made.session, cfg.wordLog(entry), d);
    } else {
      InsertionShows(w.session, cfg.wordLog(entry), w.pump.diagnostics.value);
    }
  }

  /** What a reset has to say. */
  function Testament(cfg: Config, held: seq<Effect>, unsent: seq<string>): string {
    (if held == [] then "" else cfg.wordLog(Undelivered(held))) + (if unsent == [] then "" else cfg.wordLog(Unsent(unsent)))
  }

  lemma LeftoversShow(cfg: Config, w: World)
    requires Body(w) && (w.pump.backlog != [] || w.pump.pending != [])
    ensures var w' := Leftovers(cfg, w);
      && Body(w') && w'.pump.diagnostics.Some?
      && w'.pump == w.pump.(alive := false, backlog := [], diagnostics := w'.pump.diagnostics)
      && TextIn(w', w'.pump.diagnostics.value)
         == TextIn(w, w'.pump.diagnostics.value) + Testament(cfg, w.pump.backlog, w.pump.pending)
  {
    hide SessionOk, Log, TextIn, TargetsOk;
    var held, unsent := w.pump.backlog, w.pump.pending;
    var closed := w.(pump := w.pump.(alive := false, backlog := []));
    BodyOf(w, closed);
    var id := Leftovers(cfg, w).pump.diagnostics;
    if held == [] {
      LogShows(cfg, closed, Unsent(unsent));
      SameTexts(w, closed, id.value);
      assert "" + cfg.wordLog(Unsent(unsent)) == cfg.wordLog(Unsent(unsent));
    } else {
      LogShows(cfg, closed, Undelivered(held));
      var told := Log(cfg, closed, Undelivered(held));
      if unsent != [] { LogShows(cfg, told, Unsent(unsent)); }
      SameTexts(w, closed, id.value);
      assert cfg.wordLog(Undelivered(held)) + "" == cfg.wordLog(Undelivered(held));
    }
  }

  lemma SameTexts(w: World, w': World, id: BufferId)
    ensures w.session == w'.session ==> TextIn(w, id) == TextIn(w', id)
  {
  }

  lemma ClearingKeepsTexts(s: Session, id: BufferId)
    ensures BufOf(Step(s, AbortPendingPermissions, None).session.ed, id).value.text == BufOf(s.ed, id).value.text
    ensures !Step(s, AbortPendingPermissions, None).raised
  {
  }

  lemma ClearedTexts(w: World, id: BufferId)
    ensures TextIn(Exec(w, AbortPendingPermissions), id) == TextIn(w, id)
  {
    hide Step;
    ClearingKeepsTexts(w.session, id);
  }

  /** A child that dies before its session is bound: everything that came out of the
      machine in its life (the milestones apart), its death, and every prompt never
      sent are appended to the diagnostics in order. */
  lemma EarlyDeathIsTold(cfg: Config, w: World, status: Option<int>)
    requires WorldOk(w) && w.crash.None? && w.pump.transcript.None?
    ensures var w' := Exited(cfg, w, status); 
        var held := Deliverable(w.life.produced) + [ProtocolError(AgentExit(status))];
      && w'.crash.None? && w'.pump.diagnostics.Some?
      && TextIn(w', w'.pump.diagnostics.value)
         == TextIn(w, w'.pump.diagnostics.value) + Testament(cfg, held, w.pump.pending)
      && w'.pump.backlog == [] && w'.pump.pending == [] && !w'.pump.alive && w'.pump.machine == FRESH
  {
    hide SessionOk, TextIn, Leftovers, Owing, Testament, Exec, TargetsOk, Deliverable;
    GoodBody(w, [], []);
    UnboundHolds(w);
    var effects := [ProtocolError(AgentExit(status))];
    var made := Forward(Produced(w, effects), effects);
    assert made.session == w.session && made.pump == w.pump.(backlog := w.pump.backlog + effects);
    BodyOf(w, made);
    AbortStep(made);
    var cleared := Exec(made, AbortPendingPermissions);
    LeftoversShow(cfg, cleared);
    var id := Leftovers(cfg, cleared).pump.diagnostics.value;
    ClearedTexts(made, id);
    SameTexts(w, made, id);
    SameTexts(Leftovers(cfg, cleared), Exited(cfg, w, status), id);
  }

  /** Before there is a transcript the backlog is all that was produced. */
  lemma UnboundHolds(w: World)
    requires Good(w, [], []) && w.pump.transcript.None?
    ensures w.pump.backlog == Deliverable(w.life.produced)
  {
    hide Body, Counts, Coupled, Waiting, Deliverable, AllRenderable;
    assert [] + w.pump.backlog + [] == w.pump.backlog;
  }

  lemma BodyOf(w: World, w': World)
    requires Body(w) && w'.session == w.session && w'.crash == w.crash
    requires w'.pump.transcript == w.pump.transcript && w'.pump.diagnostics == w.pump.diagnostics
    ensures Body(w')
  {
  }
}
