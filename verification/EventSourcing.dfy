/** The transcript is enough: folding it reproduces the session. */
module EventSourcing {
  import opened Prelude
  import opened Buffers
  import opened Acp
  import opened Transcript
  import opened Events
  import opened Editing
  import opened EditingInvariants
  import opened SessionSpec
  import opened SessionInvariants
  import opened SessionRuns

  /** What the transcript accounts for. */
  datatype Shape = Shape(
    texts: map<BufferId, string>, order: seq<BufferId>, current: BufferId, windowCount: nat, focused: nat)

  /** A shape and the contents of the files still to be visited, in order. */
  datatype Replay = Replay(shape: Shape, contents: seq<string>)

  function ShapeOf(ed: Editor): Shape {
    Shape(map id | id in ed.bufs :: ed.bufs[id].value.text, ed.order, ed.current, |ed.windows|, ed.focused)
  }

  function Rewrite(v: Shape, start: int, length: int, text: string): Shape {
    if v.current in v.texts
    then v.(texts := v.texts[v.current := Splice(v.texts[v.current], start, length, text)])
    else v
  }

  /** One event, read without the session. */
  function Fold(r: Replay, e: Event): Replay {
    var v := r.shape;
    match e
    case TextInserted(text, before, _) => r.(shape := Rewrite(v, before, 0, text))
    case TextYanked(text, before, _) => r.(shape := Rewrite(v, before, 0, text))
    case TextKilled(_, before, after) => r.(shape := Rewrite(v, before, after - before, ""))
    case RegionKilled(_, before, after) => r.(shape := Rewrite(v, before, after - before, ""))
    case TextYankPopped(replaced, text, before, _) => r.(shape := Rewrite(v, before, |replaced|, text))
    case TextUndone(start, removed, inserted) => r.(shape := Rewrite(v, start, |removed|, inserted))
    case TextRedone(start, removed, inserted) => r.(shape := Rewrite(v, start, |removed|, inserted))
    case AgentTextInserted(text, _, _, id) =>
      if id in v.texts then r.(shape := v.(texts := v.texts[id := v.texts[id] + text])) else r
    case BufferCreated(id, path) =>
      if path.Some? && r.contents != []
      then Replay(v.(texts := v.texts[id := r.contents[0]], order := v.order + [id]), r.contents[1..])
      else r.(shape := v.(texts := v.texts[id := ""], order := v.order + [id]))
    case BufferSelected(id) => r.(shape := v.(current := id))
    case WindowSplit(count) => r.(shape := v.(windowCount := count))
    case WindowFocusChanged(index, id) => r.(shape := v.(focused := index, current := id))
    case WindowsCollapsed => r.(shape := v.(windowCount := 1, focused := 0))
    case _ => r
  }

  function FoldAll(r: Replay, events: seq<Event>): Replay
    decreases |events|
  {
    if events == [] then r else FoldAll(Fold(r, events[0]), events[1..])
  }

  lemma {:induction false} FoldConcatenates(r: Replay, a: seq<Event>, b: seq<Event>)
    ensures FoldAll(r, a + b) == FoldAll(FoldAll(r, a), b)
    decreases |a|
  {
    hide Fold;
    if a == [] {
      assert a + b == b;
    } else {
      assert (a + b)[0] == a[0] && (a + b)[1..] == a[1..] + b;
      FoldConcatenates(Fold(r, a[0]), a[1..], b);
    }
  }

  /** What the file port gave the dispatch, when it visit a file. */
  function ReadBy(s: Session, c: Command, fault: Option<Fault>): seq<string> {
    if c.MinibufferAccept? && s.pr.choice.None? && s.pr.kind == Some(FindFileKind) && s.pr.input.Some?
       && s.pr.input.value != "" && Visiting(s.ed, s.ed.order, s.pr.input.value).None?
    then
      match ResolveVisit(s.ed.disk, s.pr.input.value, fault)
      case VisitOpened(text, _) => [text]
      case VisitRejected(_) => []
    else []
  }

  function ReadsOfRun(s: Session, inputs: seq<Input>): seq<string>
    decreases |inputs|
  {
    if inputs == [] then []
    else ReadBy(s, inputs[0].command, inputs[0].fault)
         + ReadsOfRun(StepInput(s, inputs[0]).session, inputs[1..])
  }

  /** The recorded events lead from one editor to the other, consuming `contents`. */
  ghost predicate Explains(ed: Editor, contents: seq<string>, events: seq<Event>, ed': Editor) {
    forall rest: seq<string> ::
      FoldAll(Replay(ShapeOf(ed), contents + rest), events) == Replay(ShapeOf(ed'), rest)
  }

  lemma SilentExplains(ed: Editor, ed': Editor)
    requires ShapeOf(ed) == ShapeOf(ed')
    ensures Explains(ed, [], [], ed')
  {
    hide ShapeOf;
    forall rest: seq<string> ensures FoldAll(Replay(ShapeOf(ed), [] + rest), []) == Replay(ShapeOf(ed'), rest) {
      assert [] + rest == rest;
    }
  }

  lemma OneExplains(ed: Editor, contents: seq<string>, e: Event, ed': Editor)
    requires forall rest: seq<string> :: Fold(Replay(ShapeOf(ed), contents + rest), e) == Replay(ShapeOf(ed'), rest)
    ensures Explains(ed, contents, [e], ed')
  {
    hide ShapeOf, Fold;
    forall rest: seq<string> ensures FoldAll(Replay(ShapeOf(ed), contents + rest), [e]) == Replay(ShapeOf(ed'), rest) {
      assert [e][0] == e && [e][1..] == [];
    }
  }

  lemma ExplainsChain(ed: Editor, contents: seq<string>, a: seq<Event>, mid: Editor, contents': seq<string>,
                      b: seq<Event>, ed': Editor)
    requires Explains(ed, contents, a, mid) && Explains(mid, contents', b, ed')
    ensures Explains(ed, contents + contents', a + b, ed')
  {
    hide ShapeOf, FoldAll;
    forall rest: seq<string> ensures FoldAll(Replay(ShapeOf(ed), contents + contents' + rest), a + b) == Replay(ShapeOf(ed'), rest) {
      assert contents + contents' + rest == contents + (contents' + rest);
      FoldConcatenates(Replay(ShapeOf(ed), contents + contents' + rest), a, b);
    }
  }

  /** The usual case: nothing was read. */
  lemma ExplainsThen(ed: Editor, a: seq<Event>, mid: Editor, b: seq<Event>, ed': Editor)
    requires Explains(ed, [], a, mid) && Explains(mid, [], b, ed')
    ensures Explains(ed, [], a + b, ed')
  {
    hide Explains;
    ExplainsChain(ed, [], a, mid, [], b, ed');
    var none: seq<string> := [];
    assert none + none == none;
  }

  /** Events the fold ignores. */
  predicate Ignored(e: Event) {
    e.PointMoved? || e.MarkSet? || e.RegionCopied? || e.MarkExchanged? || e.KeyboardQuitEvent? || e.BufferSaved?
    || e.SaveFailed? || e.EditorExited? || e.ProcessOutputRecorded? || e.MinibufferOpened? || e.MinibufferAborted?
    || e.PermissionDecided? || e.BufferOpened? || e.FrameResized? || e.OpenFailed? || e.Message? || e.SaveDeclined?
    || e.ExitRefused? || e.AgentPromptSubmitted? || e.BufferDisplayed? || e.AgentTranscriptUpdated?
  }

  lemma {:induction false} IgnoredFold(r: Replay, events: seq<Event>)
    requires forall i :: 0 <= i < |events| ==> Ignored(events[i])
    ensures FoldAll(r, events) == r
    decreases |events|
  {
    if events != [] { assert Ignored(events[0]); IgnoredFold(r, events[1..]); }
  }

  lemma IgnoredExplain(ed: Editor, events: seq<Event>, ed': Editor)
    requires forall i :: 0 <= i < |events| ==> Ignored(events[i])
    requires ShapeOf(ed) == ShapeOf(ed')
    ensures Explains(ed, [], events, ed')
  {
    hide ShapeOf, Fold, Ignored;
    forall rest: seq<string> ensures FoldAll(Replay(ShapeOf(ed), [] + rest), events) == Replay(ShapeOf(ed'), rest) {
      assert [] + rest == rest;
      IgnoredFold(Replay(ShapeOf(ed), rest), events);
    }
  }

  // ---- Edits ----

  /** Every edit's event says how the text changed. */
  lemma EventTellsText(l: Local, e: EditCommand)
    requires LocalOk(l)
    ensures var r := EditStep(l, e);
      if r.events == [] then r.local.value.text == l.value.text
      else |r.events| == 1 && TellsText(l.value.text, r.events[0], r.local.value.text)
  {
    hide UndoChain, RedoChain, Splice, Bookkeep, MakeGroup;
  }

  predicate TellsText(before: string, e: Event, after: string) {
    match e
    case TextInserted(text, at, _) => after == Splice(before, at, 0, text)
    case TextYanked(text, at, _) => after == Splice(before, at, 0, text)
    case TextKilled(_, at, end) => after == Splice(before, at, end - at, "")
    case RegionKilled(_, at, end) => after == Splice(before, at, end - at, "")
    case TextYankPopped(replaced, text, at, _) => after == Splice(before, at, |replaced|, text)
    case TextUndone(at, removed, inserted) => after == Splice(before, at, |removed|, inserted)
    case TextRedone(at, removed, inserted) => after == Splice(before, at, |removed|, inserted)
    case _ => Ignored(e) && after == before
  }

  lemma FoldTells(v: Shape, text: string, e: Event, after: string)
    requires v.current in v.texts && v.texts[v.current] == text && TellsText(text, e, after)
    ensures forall contents: seq<string> ::
              Fold(Replay(v, contents), e) == Replay(v.(texts := v.texts[v.current := after]), contents)
  {
    hide Splice;
    if Ignored(e) { assert v.texts[v.current := after] == v.texts; }
  }

  lemma EditExplained(ed: Editor, e: EditCommand)
    requires EditorOk(ed)
    ensures var r := EditCurrent(ed, e); Explains(ed, [], r.1, r.0)
  {
    hide EditStep, UndoChain, RedoChain, PathsOk, WindowsOk, NoDuplicates, TellsText, Explains, Fold;
    var b := Current(ed);
    assert BufOk(b);
    var l := Local(b.value, b.st, ed.ring);
    EventTellsText(l, e);
    EditShape(ed, e);
    var r, ed' := EditStep(l, e), EditCurrent(ed, e).0;
    assert ShapeOf(ed).texts[ed.current] == b.value.text;
    if r.events == [] {
      assert ShapeOf(ed).texts[ed.current := b.value.text] == ShapeOf(ed).texts;
      SilentExplains(ed, ed');
    } else {
      FoldTells(ShapeOf(ed), b.value.text, r.events[0], r.local.value.text);
      assert r.events == [r.events[0]];
      ReadNothing(ed, r.events[0], ed');
    }
  }

  lemma ReadNothing(ed: Editor, e: Event, ed': Editor)
    requires forall contents: seq<string> :: Fold(Replay(ShapeOf(ed), contents), e) == Replay(ShapeOf(ed'), contents)
    ensures Explains(ed, [], [e], ed')
  {
    hide ShapeOf, Fold;
    forall rest: seq<string> ensures Fold(Replay(ShapeOf(ed), [] + rest), e) == Replay(ShapeOf(ed'), rest) {
      assert [] + rest == rest;
    }
    OneExplains(ed, [], e, ed');
  }

  lemma EditShape(ed: Editor, e: EditCommand)
    requires ed.current in ed.bufs
    ensures var r := EditCurrent(ed, e).0; var b := Current(ed);
      ShapeOf(r) == ShapeOf(ed).(texts := ShapeOf(ed).texts[ed.current :=
                       EditStep(Local(b.value, b.st, ed.ring), e).local.value.text])
  {
    hide EditStep;
  }

  // ---- The other steps ----

  lemma SettleShape(ed: Editor, c: Command, events: seq<Event>)
    requires ed.current in ed.bufs
    ensures ShapeOf(Settle(ed, c, events)) == ShapeOf(ed)
  {
    hide Settle;
    SettleFrame(ed, c, events);
    assert ShapeOf(Settle(ed, c, events)).texts == ShapeOf(ed).texts;
  }

  lemma SettleExplained(ed: Editor, contents: seq<string>, events: seq<Event>, mid: Editor, c: Command)
    requires Explains(ed, contents, events, mid) && mid.current in mid.bufs
    ensures Explains(ed, contents, events, Settle(mid, c, events))
  {
    hide ShapeOf, Settle, FoldAll;
    SettleShape(mid, c, events);
  }

  lemma SelectExplained(ed: Editor, id: BufferId)
    requires ed.current in ed.bufs
    ensures Explains(ed, [], Select(ed, id).1, Select(ed, id).0)
  {
    var ed' := Select(ed, id).0;
    assert ShapeOf(ed').texts == ShapeOf(ed).texts;
    if id == ed.current { SilentExplains(ed, ed'); }
    else { OneExplains(ed, [], BufferSelected(id), ed'); }
  }

  lemma CreateExplained(ed: Editor, name: string, b: Buf)
    requires b.value.filePath.None? ==> b.value.text == ""
    ensures var r := Create(ed, name, b);
      Explains(ed, if b.value.filePath.Some? then [b.value.text] else [], r.2, r.0)
  {
    hide FreshName;
    var r := Create(ed, name, b);
    var contents := if b.value.filePath.Some? then [b.value.text] else [];
    assert ShapeOf(r.0).texts == ShapeOf(ed).texts[r.1 := b.value.text];
    forall rest: seq<string> ensures Fold(Replay(ShapeOf(ed), contents + rest), r.2[0]) == Replay(ShapeOf(r.0), rest) {
      if b.value.filePath.None? { assert contents + rest == rest; }
      else { assert (contents + rest)[1..] == rest; }
    }
    OneExplains(ed, contents, r.2[0], r.0);
  }

  lemma OpenExplained(ed: Editor, path: string, fault: Option<Fault>)
    requires Core(ed)
    ensures var r := OpenFile(ed, path, fault);
      Explains(ed, OpenReads(ed, path, fault), r.1, r.0)
  {
    hide Core, Select, Create, Basename, ResolveVisit, Explains, Visiting, ShapeOf;
    CoreHasCurrent(ed);
    match Visiting(ed, ed.order, path)
    case Some(id) => SelectExplained(ed, id);
    case None =>
      match ResolveVisit(ed.disk, path, fault)
      case VisitRejected(error) => IgnoredExplain(ed, [OpenFailed(path, error)], ed);
      case VisitOpened(text, eol) =>
        var b := VisitedBuf(path, VisitOpened(text, eol));
        var made := Create(ed, Basename(path), b);
        var visit := [BufferOpened(path, |text|)];
        CreateExplained(ed, Basename(path), b);
        CreateKeepsCurrent(ed, Basename(path), b);
        GrowsCreate(ed, Basename(path), b);
        IgnoredExplain(made.0, visit, made.0);
        ExplainsChain(ed, [text], made.2, made.0, [], visit, made.0);
        SelectExplained(made.0, made.1);
        assert [text] + [] == [text];
        ExplainsChain(ed, [text], made.2 + visit, made.0, [], Select(made.0, made.1).1, Select(made.0, made.1).0);
  }

  function OpenReads(ed: Editor, path: string, fault: Option<Fault>): seq<string> {
    if Visiting(ed, ed.order, path).Some? then []
    else match ResolveVisit(ed.disk, path, fault)
      case VisitOpened(text, _) => [text]
      case VisitRejected(_) => []
  }

  lemma SwitchExplained(ed: Editor, name: string)
    requires ed.current in ed.bufs
    ensures Explains(ed, [], SwitchTo(ed, name).1, SwitchTo(ed, name).0)
  {
    hide Select, Create, Explains, ShapeOf;
    SilentExplains(ed, ed);
    SelectExplained(ed, name);
    if name != "" && name !in ed.bufs {
      var made := Create(ed, name, BLANK);
      CreateExplained(ed, name, BLANK);
      CreateKeepsCurrent(ed, name, BLANK);
      GrowsCreate(ed, name, BLANK);
      SelectExplained(made.0, made.1);
      ExplainsThen(ed, made.2, made.0, Select(made.0, made.1).1, Select(made.0, made.1).0);
    }
  }

  lemma AcceptedExplained(ed: Editor, kind: Option<PromptKind>, text: string, fault: Option<Fault>)
    requires Core(ed)
    ensures var r := Accepted(ed, kind, text, fault);
      Explains(ed, if kind != Some(AgentKind) && kind != Some(SwitchKind) && text != "" then OpenReads(ed, text, fault) else [],
               r.1, r.0)
  {
    hide Core, OpenFile, SwitchTo, OpenReads, Explains, ShapeOf;
    CoreHasCurrent(ed);
    SilentExplains(ed, ed);
    if kind == Some(AgentKind) {
      if text != "" { IgnoredExplain(ed, [AgentPromptSubmitted(text)], ed); }
    } else if kind == Some(SwitchKind) {
      SwitchExplained(ed, if text != "" then text else if |ed.mru| > 1 then ed.mru[1] else "");
    } else if text != "" {
      OpenExplained(ed, text, fault);
    }
  }

  lemma SaveExplained(ed: Editor, id: BufferId, fault: Option<Fault>)
    requires id in ed.bufs
    ensures Explains(ed, [], Save(ed, id, fault).1, Save(ed, id, fault).0)
  {
    var r := Save(ed, id, fault);
    assert ShapeOf(r.0).texts == ShapeOf(ed).texts;
    IgnoredExplain(ed, r.1, r.0);
  }

  lemma SplitExplained(ed: Editor, speak: bool)
    requires ed.focused < |ed.windows|
    ensures Explains(ed, [], Split(ed, speak).1, Split(ed, speak).0)
  {
    var r := Split(ed, speak);
    if r.1 == [] { SilentExplains(ed, r.0); }
    else if r.1[0].Message? { IgnoredExplain(ed, r.1, r.0); }
    else { OneExplains(ed, [], r.1[0], r.0); }
  }

  /** Leaving and arriving write positions and chains, never texts. */
  lemma OtherShape(ed: Editor)
    requires ed.current in ed.bufs && |ed.windows| >= 2
    requires forall i :: 0 <= i < |ed.windows| ==> ed.windows[i].buffer in ed.bufs
    ensures var next := (ed.focused + 1) % |ed.windows|;
      ShapeOf(Other(ed).0) == ShapeOf(ed).(focused := next, current := ed.windows[next].buffer)
  {
    hide Other;
    OtherFrame(ed);
    assert ShapeOf(Other(ed).0).texts == ShapeOf(ed).texts;
  }

  lemma OtherExplained(ed: Editor)
    requires EditorOk(ed)
    ensures Explains(ed, [], Other(ed).1, Other(ed).0)
  {
    hide BufsOk, ChainsOk, PathsOk, ShapeOf, Explains, Arrive, Leave, ToFront;
    if |ed.windows| < 2 { SilentExplains(ed, ed); }
    else {
      OtherShape(ed);
      ReadNothing(ed, Other(ed).1[0], Other(ed).0);
    }
  }

  lemma DisplayExplained(ed: Editor, id: BufferId)
    requires ed.focused < |ed.windows|
    ensures Explains(ed, [], Display(ed, id).1, Display(ed, id).0)
  {
    hide Split, Explains;
    SilentExplains(ed, ed);
    SplitExplained(ed, false);
    var split := if |ed.windows| == 1 then Split(ed, false) else (ed, []);
    if |split.0.windows| >= 2 {
      var at := (ed.focused + 1) % |split.0.windows|;
      var r := Display(ed, id);
      IgnoredExplain(split.0, [BufferDisplayed(id, at)], r.0);
      ExplainsThen(ed, split.1, split.0, [BufferDisplayed(id, at)], r.0);
    }
  }

  lemma DeleteOthersExplained(ed: Editor)
    requires ed.focused < |ed.windows|
    ensures Explains(ed, [], DeleteOthers(ed).1, DeleteOthers(ed).0)
  {
    var r := DeleteOthers(ed);
    if r.1 == [] { SilentExplains(ed, r.0); } else { OneExplains(ed, [], r.1[0], r.0); }
  }

  lemma LayoutExplained(ed: Editor, c: Command)
    requires EditorOk(ed)
    requires c.DisplayBuffer? || c.SplitWindow? || c.OtherWindow? || c.DeleteOtherWindows? || c.ResizeFrame?
    ensures Explains(ed, [], Layout(ed, c).1, Layout(ed, c).0)
  {
    hide Core, Split, Display, Other, DeleteOthers, Explains;
    match c {
      case SplitWindow => SplitExplained(ed, true);
      case OtherWindow => OtherExplained(ed);
      case DeleteOtherWindows => DeleteOthersExplained(ed);
      case ResizeFrame(w, h) => IgnoredExplain(ed, [FrameResized(w, h)], Layout(ed, c).0);
      case DisplayBuffer(id) => DisplayExplained(ed, id);
      case _ =>
    }
  }

  lemma SettleOnShape(ed: Editor, id: BufferId)
    ensures ShapeOf(SettleOn(ed, id)) == ShapeOf(ed)
  {
    assert ShapeOf(SettleOn(ed, id)).texts == ShapeOf(ed).texts;
  }

  lemma AppendShape(ed: Editor, id: BufferId, text: string)
    requires id in ed.bufs
    ensures var r := Append(ed, id, text); var before := |ed.bufs[id].value.text|;
      && id in ShapeOf(ed).texts && ShapeOf(ed).texts[id] == ed.bufs[id].value.text
      && r.0.current == ed.current
      && (text == "" ==> r == (ed, []))
      && (text != "" ==>
            && r.1 == [AgentTextInserted(text, before, before + |text|, id)]
            && ShapeOf(r.0) == ShapeOf(ed).(texts := ShapeOf(ed).texts[id := ed.bufs[id].value.text + text]))
  {
    hide Append;
    AppendFrame(ed, id, text);
    assert text != "" ==> ShapeOf(Append(ed, id, text).0).texts == ShapeOf(ed).texts[id := ed.bufs[id].value.text + text];
  }

  lemma AppendExplained(ed: Editor, id: BufferId, text: string)
    requires id in ed.bufs
    ensures Explains(ed, [], Append(ed, id, text).1, SettleOn(Append(ed, id, text).0, id))
  {
    hide SettleOn, Explains, Append, ShapeOf;
    var r := Append(ed, id, text);
    SettleOnShape(r.0, id);
    AppendShape(ed, id, text);
    if text == "" {
      SilentExplains(ed, SettleOn(r.0, id));
    } else {
      ReadNothing(ed, r.1[0], SettleOn(r.0, id));
    }
  }

  lemma DeliverExplained(s: Session, c: Command)
    requires c.DeliverSessionEffects? || c.InsertAgentText?
    ensures Explains(s.ed, [], Deliver(s, c).events, Deliver(s, c).session.ed)
  {
    hide Rendered, FoldAfter, AllRenderable, Append, SettleOn, Explains, FoldAll;
    var ed := s.ed;
    SilentExplains(ed, ed);
    if DeliveryTarget(ed, c.target) {
      if c.InsertAgentText? {
        AppendExplained(ed, c.target, c.agentText);
      } else if AllRenderable(c.effects) {
        var text := Rendered(ed.wording, FoldOf(ed, c.target), c.effects);
        var at := ed.(folds := ed.folds[c.target := FoldAfter(ed.wording, FoldOf(ed, c.target), c.effects)]);
        var told := [AgentTranscriptUpdated(c.effects, text, c.target)];
        IgnoredExplain(ed, told, at);
        AppendExplained(at, c.target, text);
        ExplainsThen(ed, told, at, Append(at, c.target, text).1, SettleOn(Append(at, c.target, text).0, c.target));
      }
    }
  }

  lemma MintExplained(s: Session, c: Command)
    requires c.CreateAgentBuffer? || c.CreateGeneratedBuffer?
    ensures Explains(s.ed, [], Mint(s, c).events, Mint(s, c).session.ed)
  {
    hide Create, Explains;
    var ed := s.ed;
    var known := if c.CreateAgentBuffer? then Lookup(ed.agents, c.acpSession) else Lookup(ed.generated, c.name);
    var r := Mint(s, c).session.ed;
    if known.Some? || Nameless(ed, c) {
      SilentExplains(ed, r);
    } else {
      var name := if c.CreateAgentBuffer? then AGENT_NAME else c.name;
      var made := Create(ed, name, GENERATED_BLANK);
      CreateExplained(ed, name, GENERATED_BLANK);
      IgnoredExplain(made.0, [], r);
      ExplainsThen(ed, made.2, made.0, [], r);
      assert made.2 + [] == made.2;
    }
  }

  lemma DrainIgnored(pr: Prompts)
    ensures forall i :: 0 <= i < |Drain(pr).1| ==> Ignored(Drain(pr).1[i])
  {
  }

  lemma DecideIgnored(pr: Prompts, d: Decision)
    requires pr.choice.Some?
    ensures var events := Decide(pr, pr.choice.value, d).1; forall i :: 0 <= i < |events| ==> Ignored(events[i])
  {
    hide Drain;
    DrainIgnored(pr.(choice := None, input := None, prompt := NoLabel));
  }

  lemma ExitKeyIgnored(s: Session, key: string, fault: Option<Fault>)
    ensures var events := ExitKey(s, key, fault).1; forall i :: 0 <= i < |events| ==> Ignored(events[i])
  {
    hide Drain, AnyModified, Put;
    DrainIgnored(ClosePrompt(s.pr));
  }

  /** Exit prompts and choices record only what the fold ignores. */
  lemma PromptEventsIgnored(s: Session, c: Command, fault: Option<Fault>)
    requires !(c.MinibufferAccept? && s.pr.choice.None? && !ExitPrompt(s.pr) && s.pr.input.Some?)
    requires c.MinibufferInput? || c.MinibufferBackspace? || c.MinibufferAccept? || c.MinibufferAbort?
    ensures forall i :: 0 <= i < |Step(s, c, fault).events| ==> Ignored(Step(s, c, fault).events[i])
  {
    hide Settle, KeyDecision, AcceptDecision, Step, Decide, ExitKey, Drain;
    ArmSettles(s, c, fault);
    if s.pr.choice.Some? {
      DecideIgnored(s.pr, Cancelled);
      DecideIgnored(s.pr, AcceptDecision(s.pr.choice.value));
      if c.MinibufferInput? && KeyDecision(s.pr.choice.value, c.key).Answer? {
        DecideIgnored(s.pr, KeyDecision(s.pr.choice.value, c.key).decision);
      }
    } else if c.MinibufferInput? {
      ExitKeyIgnored(s, c.key, fault);
    } else {
      DrainIgnored(ClosePrompt(s.pr));
      DrainIgnored(ClosePrompt(s.pr.(exitPending := [])));
    }
  }

  lemma AcceptExplained(s: Session, fault: Option<Fault>)
    requires SessionOk(s)
    requires s.pr.choice.None? && !ExitPrompt(s.pr) && s.pr.input.Some?
    ensures Explains(s.ed, ReadBy(s, MinibufferAccept, fault), Step(s, MinibufferAccept, fault).events,
                     Step(s, MinibufferAccept, fault).session.ed)
  {
    hide Core, Accepted, Settle, Drain, Synced, Explains, ShapeOf, Ignored, ResolveVisit, Visiting, PendingOk, ReadBy;
    var pr := s.pr;
    var done := Accepted(s.ed, pr.kind, pr.input.value, fault);
    var drained := Drain(ClosePrompt(pr));
    AcceptedExplained(s.ed, pr.kind, pr.input.value, fault);
    AcceptedEditor(s.ed, pr.kind, pr.input.value, fault);
    CoreHasCurrent(done.0);
    DrainIgnored(ClosePrompt(pr));
    IgnoredExplain(done.0, drained.1, done.0);
    AcceptReads(s, fault);
    var contents := ReadBy(s, MinibufferAccept, fault);
    ExplainsChain(s.ed, contents, done.1, done.0, [], drained.1, done.0);
    assert contents + [] == contents;
    SettleExplained(s.ed, contents, done.1 + drained.1, done.0, MinibufferAccept);
  }

  lemma AcceptReads(s: Session, fault: Option<Fault>)
    requires PromptsOk(s.pr) && s.pr.choice.None? && !ExitPrompt(s.pr) && s.pr.input.Some?
    ensures var (kind, text) := (s.pr.kind, s.pr.input.value);
      ReadBy(s, MinibufferAccept, fault)
      == if kind != Some(AgentKind) && kind != Some(SwitchKind) && text != "" then OpenReads(s.ed, text, fault) else []
  {
    hide Visiting, ResolveVisit;
    match s.pr.kind.value
    case FindFileKind =>
    case SwitchKind =>
    case AgentKind =>
    case SaveKind =>
    case ExitAnywayKind =>
  }

  lemma MinibufferExplained(s: Session, c: Command, fault: Option<Fault>)
    requires SessionOk(s)
    requires !(c.MinibufferAccept? && s.pr.choice.None? && !ExitPrompt(s.pr) && s.pr.input.Some?)
    requires c.MinibufferInput? || c.MinibufferBackspace? || c.MinibufferAccept? || c.MinibufferAbort?
    ensures Explains(s.ed, [], Step(s, c, fault).events, Step(s, c, fault).session.ed)
  {
    hide PromptsOk, Core, Save, Settle, KeyDecision, AcceptDecision, Drain, Synced, Decide, AdvanceExit, Explains, ShapeOf, Ignored, Step;
    CoreHasCurrent(s.ed);
    ArmSettles(s, c, fault);
    PromptEventsIgnored(s, c, fault);
    var pr, r := s.pr, Arm(s, c, fault);
    if c.MinibufferInput? && pr.choice.None? && ExitPrompt(pr) {
      var mid := ExitKey(s, c.key, fault).0.ed;
      ExitKeyEditor(s, c.key, fault);
      CoreHasCurrent(mid);
      if pr.exitPending != [] { SaveShape(s.ed, pr.exitPending[0].0, fault); }
      IgnoredExplain(s.ed, r.events, mid);
      SettleExplained(s.ed, [], r.events, mid, c);
    } else {
      IgnoredExplain(s.ed, r.events, s.ed);
      if r.raised { SilentExplains(s.ed, s.ed); } else { SettleExplained(s.ed, [], r.events, s.ed, c); }
    }
  }

  lemma SaveShape(ed: Editor, id: BufferId, fault: Option<Fault>)
    requires id in ed.bufs
    ensures ShapeOf(Save(ed, id, fault).0) == ShapeOf(ed)
  {
    assert ShapeOf(Save(ed, id, fault).0).texts == ShapeOf(ed).texts;
  }

  lemma LayoutStepExplained(s: Session, c: Command, fault: Option<Fault>)
    requires SessionOk(s)
    requires c.DisplayBuffer? || c.SplitWindow? || c.OtherWindow? || c.DeleteOtherWindows? || c.ResizeFrame?
    ensures Explains(s.ed, [], Step(s, c, fault).events, Step(s, c, fault).session.ed)
  {
    hide Core, Layout, Settle, Synced, Explains, ShapeOf;
    SilentExplains(s.ed, s.ed);
    if !(c.DisplayBuffer? && c.target !in s.ed.bufs) {
      LayoutExplained(s.ed, c);
      LayoutKeepsCore(s.ed, c);
      var l := Layout(s.ed, c);
      CoreHasCurrent(l.0);
      SettleExplained(s.ed, [], l.1, l.0, c);
    }
  }

  lemma PromptingIgnored(ed: Editor, pr: Prompts, c: Command)
    ensures forall i :: 0 <= i < |Prompting(ed, pr, c).1| ==> Ignored(Prompting(ed, pr, c).1[i])
  {
    hide AtRisk, AnyModified;
  }

  lemma StepExplained(s: Session, c: Command, fault: Option<Fault>)
    requires SessionOk(s)
    ensures Explains(s.ed, ReadBy(s, c, fault), Step(s, c, fault).events, Step(s, c, fault).session.ed)
  {
    hide Core, EditCurrent, Save, Deliver, Mint, InputKey, Backspace, Accept, Abort, Layout, Prompting, Settle,
         Synced, Explains, ShapeOf, Ignored, ReadBy, PendingOk;
    OnlyAcceptReads(s, c, fault);
    CoreHasCurrent(s.ed);
    if s.pr.input.Some? && !PassesGate(c) {
      SilentExplains(s.ed, s.ed);
    } else {
      match c {
        case Edit(e) => EditExplained(s.ed, e);
        case SaveBuffer =>
          SaveExplained(s.ed, s.ed.current, fault);
          SaveKeepsCore(s.ed, s.ed.current, fault);
          var r := Save(s.ed, s.ed.current, fault);
          CoreHasCurrent(r.0);
          SettleExplained(s.ed, [], r.1, r.0, c);
        case DeliverSessionEffects(_, _) => DeliverExplained(s, c);
        case InsertAgentText(_, _) => DeliverExplained(s, c);
        case CreateAgentBuffer(_) => MintExplained(s, c);
        case CreateGeneratedBuffer(_) => MintExplained(s, c);
        case MinibufferInput(_) => MinibufferExplained(s, c, fault);
        case MinibufferBackspace => MinibufferExplained(s, c, fault);
        case MinibufferAccept =>
          if s.pr.choice.None? && !ExitPrompt(s.pr) && s.pr.input.Some? { AcceptExplained(s, fault); }
          else { SilentAccept(s, fault); MinibufferExplained(s, c, fault); }
        case MinibufferAbort => MinibufferExplained(s, c, fault);
        case DisplayBuffer(_) => LayoutStepExplained(s, c, fault);
        case SplitWindow => LayoutStepExplained(s, c, fault);
        case OtherWindow => LayoutStepExplained(s, c, fault);
        case DeleteOtherWindows => LayoutStepExplained(s, c, fault);
        case ResizeFrame(_, _) => LayoutStepExplained(s, c, fault);
        case DeliverProcessOutput =>
          ProcessIgnored();
          IgnoredExplain(s.ed, [ProcessOutputRecorded], s.ed);
          SettleExplained(s.ed, [], [ProcessOutputRecorded], s.ed, c);
        case _ =>
          PromptingIgnored(s.ed, s.pr, c);
          IgnoredExplain(s.ed, Prompting(s.ed, s.pr, c).1, s.ed);
          SettleExplained(s.ed, [], Prompting(s.ed, s.pr, c).1, s.ed, c);
      }
    }
  }

  lemma ProcessIgnored()
    ensures Ignored(ProcessOutputRecorded)
  {
  }

  lemma SilentAccept(s: Session, fault: Option<Fault>)
    requires PromptsOk(s.pr) && !(s.pr.choice.None? && !ExitPrompt(s.pr) && s.pr.input.Some?)
    ensures ReadBy(s, MinibufferAccept, fault) == []
  {
  }

  lemma OnlyAcceptReads(s: Session, c: Command, fault: Option<Fault>)
    ensures !c.MinibufferAccept? ==> ReadBy(s, c, fault) == []
  {
  }

  /** Folding the transcript of any run, given the contents of the files it
      visits, gives the buffers' texts, the buffer set, the current buffer, the
      number of windows and the focused one. */
  lemma {:induction false} TranscriptReproducesRun(s: Session, inputs: seq<Input>)
    requires SessionOk(s)
    ensures FoldAll(Replay(ShapeOf(s.ed), ReadsOfRun(s, inputs)), Recorded(s, inputs))
            == Replay(ShapeOf(Run(s, inputs).ed), [])
    decreases |inputs|
  {
    hide Step, SessionOk, ShapeOf, Fold, ReadBy;
    if inputs != [] {
      var c, fault := inputs[0].command, inputs[0].fault;
      var r := StepInput(s, inputs[0]);
      StepKeepsSessionOk(s, c, fault);
      StepExplained(s, c, fault);
      var rest := ReadsOfRun(r.session, inputs[1..]);
      FoldConcatenates(Replay(ShapeOf(s.ed), ReadBy(s, c, fault) + rest), r.events, Recorded(r.session, inputs[1..]));
      TranscriptReproducesRun(r.session, inputs[1..]);
    }
  }
}
