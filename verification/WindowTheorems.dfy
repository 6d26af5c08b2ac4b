/** Windows and buffer switching: what comes back, and what is never moved. */
module WindowTheorems {
  import opened Prelude
  import opened Buffers
  import opened Transcript
  import opened Events
  import opened SessionSpec
  import opened SessionInvariants
  import opened SessionRuns
  import opened Genesis

  // ---- C-x o ----

  /** A stored place, drawn back into a text that has shrunk since. */
  function Clamped(ed: Editor, w: WindowValue): WindowValue {
    var n := |BufOf(ed, w.buffer).value.text|;
    WindowValue(w.buffer, Clamp(w.point, n), if w.mark.None? then None else Some(Clamp(w.mark.value, n)))
  }

  /** One dispatched `C-x o`. */
  function Hop(ed: Editor): Editor {
    var r := Other(ed);
    Settle(r.0, OtherWindow, r.1)
  }

  function Hops(ed: Editor, n: nat): Editor
    decreases n
  {
    if n == 0 then ed else Hops(Hop(ed), n - 1)
  }

  ghost predicate SameTexts(ed: Editor, ed': Editor) {
    ed'.bufs.Keys == ed.bufs.Keys && forall id :: id in ed.bufs ==> ed'.bufs[id].value.text == ed.bufs[id].value.text
  }

  /** A hop shows the next window's buffer where that window left it, or at the end of
      a text that has shrunk; it moves no other window and no text. */
  lemma HopArrives(ed: Editor)
    requires EditorOk(ed) && |ed.windows| >= 2
    ensures var r := Hop(ed); var next := (ed.focused + 1) % |ed.windows|; var w := Clamped(ed, ed.windows[next]);
      && EditorOk(r) && r.windows == ed.windows[next := w] && r.focused == next
      && r.current == w.buffer && Current(r).value.point == w.point && Current(r).value.mark == w.mark
      && SameTexts(ed, r)
  {
    hide Core, Settle, Other, BreakChains, Clamp;
    CoreHasCurrent(ed);
    HasWindows(ed);
    OtherKeepsCore(ed);
    var mid := Other(ed);
    SettleKeeps(mid.0, OtherWindow, mid.1);
    OtherFrame(ed);
    OtherArrives(ed);
    SettleFrame(mid.0, OtherWindow, mid.1);
    SettleWindows(mid.0, OtherWindow, mid.1);
  }

  lemma HasWindows(ed: Editor)
    requires Core(ed)
    ensures ed.focused < |ed.windows| && forall i :: 0 <= i < |ed.windows| ==> ed.windows[i].buffer in ed.bufs
  {
  }

  lemma OtherArrives(ed: Editor)
    requires ed.current in ed.bufs && |ed.windows| >= 2
    ensures var r := Other(ed).0; var w := Clamped(ed, ed.windows[(ed.focused + 1) % |ed.windows|]);
      Current(r).value.point == w.point && Current(r).value.mark == w.mark
  {
    hide ToFront, BreakChains, Clamp;
  }

  lemma SyncWindows(ed: Editor)
    requires ed.focused < |ed.windows|
    ensures var r, v := SyncFocused(ed), Current(ed).value;
      && r.windows == ed.windows[ed.focused := WindowValue(ed.windows[ed.focused].buffer, v.point, v.mark)]
      && Current(r).value == v
  {
  }

  /** Settling rewrites the focused window only, with the current buffer's point and mark. */
  lemma SettleWindows(ed: Editor, c: Command, events: seq<Event>)
    requires ed.focused < |ed.windows|
    ensures var r, v := Settle(ed, c, events), Current(ed).value;
      && r.windows == ed.windows[ed.focused := WindowValue(ed.windows[ed.focused].buffer, v.point, v.mark)]
      && Current(r).value == v
  {
    hide Acts, UserIssued, BreakChains, SyncFocused;
    var b := Current(ed);
    var mid := if UserIssued(c) && Acts(events) then Put(ed, ed.current, b.(st := BreakChains(b.st))) else ed;
    assert Current(mid).value == b.value && mid.windows == ed.windows && mid.focused == ed.focused;
    SyncWindows(mid);
  }

  /** Hops from `focused` to window `i`, at least one. */
  function Ahead(focused: int, i: int, size: int): int { if i > focused then i - focused else i - focused + size }

  lemma ClampedAgain(ed: Editor, ed': Editor, w: WindowValue)
    requires SameTexts(ed, ed') && w.buffer in ed.bufs
    ensures Clamped(ed', w) == Clamped(ed, w) && Clamped(ed, Clamped(ed, w)) == Clamped(ed, w)
  {
  }

  lemma AheadAfter(focused: nat, i: nat, size: nat)
    requires focused < size && i < size && size >= 2
    ensures var next := (focused + 1) % size;
      Ahead(next, i, size) == if i == next then size else Ahead(focused, i, size) - 1
    ensures 1 <= Ahead(focused, i, size) <= size && (i == (focused + 1) % size <==> Ahead(focused, i, size) == 1)
  {
    assert (focused + 1) % size == if focused + 1 == size then 0 else focused + 1;
  }

  /** `n` hops visit the `n` windows after the focused one, and draw back their places. */
  lemma {:induction false} HopsWalk(ed: Editor, n: nat)
    requires EditorOk(ed) && |ed.windows| >= 2
    ensures var r := Hops(ed, n);
      && EditorOk(r) && SameTexts(ed, r) && |r.windows| == |ed.windows| && r.focused == Turn(ed.focused, n, |ed.windows|)
      && forall i :: 0 <= i < |ed.windows| ==>
           r.windows[i] == if Ahead(ed.focused, i, |ed.windows|) <= n then Clamped(ed, ed.windows[i]) else ed.windows[i]
    decreases n
  {
    hide Core, Synced, Hop, Clamped, Ahead;
    CoreWindowsIn(ed);
    var size := |ed.windows|;
    if n == 0 {
      forall i | 0 <= i < size ensures Ahead(ed.focused, i, size) >= 1 { AheadAfter(ed.focused, i, size); }
    } else {
      HopArrives(ed);
      HopsWalk(Hop(ed), n - 1);
      var mid, r, next := Hop(ed), Hops(ed, n), (ed.focused + 1) % size;
      forall i | 0 <= i < size
        ensures r.windows[i] == if Ahead(ed.focused, i, size) <= n then Clamped(ed, ed.windows[i]) else ed.windows[i]
      {
        AheadAfter(ed.focused, i, size);
        ClampedAgain(ed, mid, ed.windows[i]);
        ClampedKeepsBuffer(ed, ed.windows[i]);
        ClampedAgain(ed, mid, Clamped(ed, ed.windows[i]));
      }
    }
  }

  lemma ClampedKeepsBuffer(ed: Editor, w: WindowValue)
    ensures Clamped(ed, w).buffer == w.buffer
  {
  }

  lemma CoreWindowsIn(ed: Editor)
    requires EditorOk(ed)
    ensures ed.focused < |ed.windows| && forall i :: 0 <= i < |ed.windows| ==> ed.windows[i].buffer in ed.bufs
  {
  }

  /** As many hops as there are windows come back: the same focus, the same buffer at the
      same point and mark, the same texts, and every window where it was, drawn back into
      its text if that had shrunk. */
  lemma HopsComeAround(ed: Editor)
    requires EditorOk(ed) && |ed.windows| >= 2
    ensures var r := Hops(ed, |ed.windows|);
      && r.focused == ed.focused && r.current == ed.current && SameTexts(ed, r)
      && Current(r).value.point == Current(ed).value.point && Current(r).value.mark == Current(ed).value.mark
      && |r.windows| == |ed.windows| && forall i :: 0 <= i < |ed.windows| ==> r.windows[i] == Clamped(ed, ed.windows[i])
  {
    hide Clamped, Ahead, Hops;
    var size := |ed.windows|;
    HopsWalk(ed, size);
    CoreWindowsIn(ed);
    Full(ed.focused, size);
    forall i | 0 <= i < size ensures Ahead(ed.focused, i, size) <= size { AheadAfter(ed.focused, i, size); }
    FocusIsFresh(ed);
    FocusIsSynced(ed);
    FocusIsSynced(Hops(ed, size));
  }

  lemma FocusIsFresh(ed: Editor)
    requires EditorOk(ed)
    ensures ed.focused < |ed.windows| && Clamped(ed, ed.windows[ed.focused]) == ed.windows[ed.focused]
  {
    assert BufOk(ed.bufs[ed.current]);
  }

  lemma FocusIsSynced(ed: Editor)
    requires EditorOk(ed)
    ensures ed.focused < |ed.windows|
    ensures ed.windows[ed.focused] == WindowValue(ed.current, Current(ed).value.point, Current(ed).value.mark)
  {
  }

  /** The index after `n` steps around. */
  function Turn(i: int, n: nat, size: nat): int
    requires size > 0
    decreases n
  {
    if n == 0 then i else Turn((i + 1) % size, n - 1, size)
  }

  lemma Full(i: int, size: nat)
    requires 0 <= i < size
    ensures Turn(i, size, size) == i
  {
    TurnWraps(i, size, size);
  }

  lemma {:induction false} TurnWraps(i: int, n: nat, size: nat)
    requires 0 <= i < size && n <= size
    ensures Turn(i, n, size) == if i + n >= size then i + n - size else i + n
    decreases n
  {
    if n > 0 {
      assert (i + 1) % size == if i + 1 == size then 0 else i + 1;
      TurnWraps((i + 1) % size, n - 1, size);
    }
  }

  // ---- Splitting and collapsing ----

  /** Showing a buffer never moves focus: the focused window, the current buffer, its
      point and every buffer stay as they are. */
  lemma DisplayKeepsFocus(ed: Editor, id: BufferId)
    requires EditorOk(ed)
    ensures var r := Display(ed, id).0;
      && r.focused == ed.focused && r.current == ed.current && r.bufs == ed.bufs
      && ed.focused < |r.windows| && r.windows[ed.focused] == ed.windows[ed.focused]
      && (r != ed ==> exists i :: 0 <= i < |r.windows| && i != ed.focused && r.windows[i] == WindowValue(id, 0, None))
  {
    hide Core;
    HasWindows(ed);
    SplitKeepsFocus(ed);
    hide Split;
    var r := Display(ed, id).0;
    var split := if |ed.windows| == 1 then Split(ed, false).0 else ed;
    if |split.windows| >= 2 {
      var at := (ed.focused + 1) % |split.windows|;
      assert at != ed.focused by { NextDiffers(ed.focused, |split.windows|); }
      assert r.windows[at] == WindowValue(id, 0, None);
    }
  }

  lemma SplitKeepsFocus(ed: Editor)
    requires ed.focused < |ed.windows|
    ensures var r := Split(ed, false).0;
      && r == ed.(windows := r.windows) && |r.windows| >= |ed.windows| && r.windows[ed.focused] == ed.windows[ed.focused]
  {
  }

  lemma NextDiffers(i: int, size: nat)
    requires 0 <= i < size && size >= 2
    ensures 0 <= (i + 1) % size < size && (i + 1) % size != i
  {
  }

  /** Agent output drags no reader: a place in the buffer that was not at its end keeps
      the text before it and stays; one at the end follows the stream. */
  lemma OutputDragsNobody(ed: Editor, id: BufferId, text: string, i: nat)
    requires i < |ed.windows| && ed.windows[i].buffer == id && i != ed.focused
    requires var w := ed.windows[i]; 0 <= w.point <= |BufOf(ed, id).value.text|
    ensures var before, r := BufOf(ed, id).value.text, Append(ed, id, text).0;
      var after, p, q := BufOf(r, id).value.text, ed.windows[i].point, r.windows[i].point;
      && after == before + text
      && (p < |before| ==> q == p && after[..q] == before[..p])
      && (p == |before| ==> q == |after|)
      && r.windows[i].mark == ed.windows[i].mark
  {
    assert BufOf(ed, id).value.text + "" == BufOf(ed, id).value.text;
  }

  // ---- C-x b ----

  /** The most recently used buffer is the current one; none is listed twice. */
  ghost predicate MruOk(ed: Editor) {
    && ed.mru != [] && ed.mru[0] == ed.current && NoDuplicates(ed.mru)
    && forall i :: 0 <= i < |ed.mru| ==> ed.mru[i] in ed.bufs
  }

  lemma {:induction false} WithoutFacts(mru: seq<BufferId>, id: BufferId)
    requires NoDuplicates(mru)
    ensures NoDuplicates(Without(mru, id)) && forall x :: x in Without(mru, id) <==> x in mru && x != id
    decreases |mru|
  {
    if mru != [] {
      assert forall j :: 0 <= j < |mru[1..]| ==> mru[1..][j] == mru[j + 1] && mru[0] != mru[j + 1];
      WithoutFacts(mru[1..], id);
      if mru[0] != id {
        var rest := Without(mru[1..], id);
        assert forall j :: 0 <= j < |rest| ==> rest[j] in rest;
      }
    }
  }

  lemma FrontKeepsMru(ed: Editor, ed': Editor, id: BufferId)
    requires MruOk(ed) && ed'.current == id && ed'.mru == ToFront(ed.mru, id) && id in ed'.bufs && ed.bufs.Keys <= ed'.bufs.Keys
    ensures MruOk(ed')
  {
    WithoutFacts(ed.mru, id);
    var rest := Without(ed.mru, id);
    assert ed'.mru == [id] + rest;
    assert forall i :: 0 <= i < |rest| ==> rest[i] in rest;
    forall i | 0 <= i < |ed'.mru| ensures ed'.mru[i] in ed'.bufs {
      if i > 0 { assert rest[i - 1] in ed.mru; }
    }
  }

  /** A step leaves the list alone or moves the buffer it ends on to its front. */
  ghost predicate KeepsMru(ed: Editor, ed': Editor) {
    && ed.bufs.Keys <= ed'.bufs.Keys
    && (|| (ed'.mru == ed.mru && ed'.current == ed.current)
        || (ed'.mru == ToFront(ed.mru, ed'.current) && ed'.current in ed'.bufs))
  }

  lemma KeepsMeansOk(ed: Editor, ed': Editor)
    requires MruOk(ed) && KeepsMru(ed, ed')
    ensures MruOk(ed')
  {
    hide ToFront;
    if !(ed'.mru == ed.mru && ed'.current == ed.current) { FrontKeepsMru(ed, ed', ed'.current); }
  }

  lemma SettleKeepsMru(ed: Editor, mid: Editor, c: Command, events: seq<Event>)
    requires KeepsMru(ed, mid) && mid.current in mid.bufs
    ensures KeepsMru(ed, Settle(mid, c, events))
  {
    hide Settle, ToFront;
    SettleFrame(mid, c, events);
  }

  lemma SelectKeepsMru(ed: Editor, mid: Editor, id: BufferId)
    requires ed.bufs.Keys <= mid.bufs.Keys && mid.mru == ed.mru && mid.current == ed.current
    requires mid.current in mid.bufs && id in mid.bufs
    ensures KeepsMru(ed, Select(mid, id).0) && Select(mid, id).0.current in Select(mid, id).0.bufs
  {
    hide ToFront, BreakChains;
  }

  lemma AcceptedKeepsMru(ed: Editor, kind: Option<PromptKind>, text: string, fault: Option<Fault>)
    requires EditorOk(ed)
    ensures var r := Accepted(ed, kind, text, fault).0; KeepsMru(ed, r) && r.current in r.bufs
  {
    hide Core, OpenFile, SwitchTo, ToFront, Synced;
    CoreHasCurrent(ed);
    SwitchKeepsMru(ed, if text != "" then text else if |ed.mru| > 1 then ed.mru[1] else "");
    OpenKeepsMru(ed, text, fault);
  }

  lemma SwitchKeepsMru(ed: Editor, name: string)
    requires EditorOk(ed)
    ensures var r := SwitchTo(ed, name).0; KeepsMru(ed, r) && r.current in r.bufs
  {
    hide Core, Select, FreshName, ToFront, Synced;
    CoreHasCurrent(ed);
    if name in ed.bufs { SelectKeepsMru(ed, ed, name); }
    var blank := Create(ed, name, BLANK);
    SelectKeepsMru(ed, blank.0, blank.1);
  }

  lemma OpenKeepsMru(ed: Editor, path: string, fault: Option<Fault>)
    requires EditorOk(ed)
    ensures var r := OpenFile(ed, path, fault).0; KeepsMru(ed, r) && r.current in r.bufs
  {
    hide Select, FreshName, Basename, ResolveVisit, ToFront, Core, Synced;
    CoreHasCurrent(ed);
    CoreOrder(ed);
    VisitingFinds(ed, ed.order, path);
    match Visiting(ed, ed.order, path)
    case Some(id) => SelectKeepsMru(ed, ed, id);
    case None =>
      var v := ResolveVisit(ed.disk, path, fault);
      if v.VisitOpened? {
        var made := Create(ed, Basename(path), VisitedBuf(path, v));
        SelectKeepsMru(ed, made.0, made.1);
      }
  }

  lemma CoreOrder(ed: Editor)
    requires Core(ed)
    ensures forall id :: id in ed.order <==> id in ed.bufs
  {
  }

  lemma EditKeepsMru(ed: Editor, e: EditCommand)
    requires ed.current in ed.bufs
    ensures KeepsMru(ed, EditCurrent(ed, e).0)
  {
  }

  lemma OtherKeepsMru(ed: Editor)
    requires ed.current in ed.bufs && forall i :: 0 <= i < |ed.windows| ==> ed.windows[i].buffer in ed.bufs
    ensures KeepsMru(ed, Other(ed).0) && Other(ed).0.current in Other(ed).0.bufs
  {
    hide ToFront, Clamp, BreakChains;
  }

  lemma LayoutKeepsMru(ed: Editor, c: Command)
    requires EditorOk(ed)
    ensures KeepsMru(ed, Layout(ed, c).0) && Layout(ed, c).0.current in Layout(ed, c).0.bufs
  {
    hide Core, Split, Display, Other, DeleteOthers, ToFront, Synced;
    CoreHasCurrent(ed);
    HasWindows(ed);
    OtherKeepsMru(ed);
    RestKeepsMru(ed, c);
  }

  lemma RestKeepsMru(ed: Editor, c: Command)
    requires ed.current in ed.bufs
    ensures KeepsMru(ed, Split(ed, true).0) && Split(ed, true).0.current in Split(ed, true).0.bufs
    ensures KeepsMru(ed, DeleteOthers(ed).0) && DeleteOthers(ed).0.current in DeleteOthers(ed).0.bufs
    ensures c.DisplayBuffer? ==> var r := Display(ed, c.target).0; KeepsMru(ed, r) && r.current in r.bufs
  {
  }

  lemma SaveKeepsMru(ed: Editor, id: BufferId, fault: Option<Fault>)
    requires ed.current in ed.bufs
    ensures KeepsMru(ed, Save(ed, id, fault).0) && Save(ed, id, fault).0.current in Save(ed, id, fault).0.bufs
  {
  }

  lemma PeerKeepsMru(s: Session, c: Command)
    requires s.ed.current in s.ed.bufs
    ensures c.DeliverSessionEffects? || c.InsertAgentText? ==> KeepsMru(s.ed, Deliver(s, c).session.ed)
    ensures c.CreateAgentBuffer? || c.CreateGeneratedBuffer? ==> KeepsMru(s.ed, Mint(s, c).session.ed)
  {
    hide Append, SettleOn, Rendered, FoldAfter, FreshName, ToFront, AllRenderable;
    if c.DeliverSessionEffects? || c.InsertAgentText? {
      DeliveredKeepsMru(s.ed, c);
      SettleOnFrame(Delivered(s.ed, c).0, c.target);
    } else if c.CreateAgentBuffer? || c.CreateGeneratedBuffer? {
      SettleOnFrame(Minted(s.ed, c).0, Minted(s.ed, c).1);
    }
  }

  lemma DeliveredKeepsMru(ed: Editor, c: Command)
    requires c.DeliverSessionEffects? || c.InsertAgentText?
    ensures var r := Delivered(ed, c).0; r.mru == ed.mru && r.current == ed.current && ed.bufs.Keys <= r.bufs.Keys
  {
    hide Append, Rendered, FoldAfter;
    if c.InsertAgentText? {
      AppendFrame(ed, c.target, c.agentText);
    } else {
      var fold := FoldOf(ed, c.target);
      AppendFrame(ed.(folds := ed.folds[c.target := FoldAfter(ed.wording, fold, c.effects)]), c.target,
                  Rendered(ed.wording, fold, c.effects));
    }
  }

  lemma ArmKeepsMru(s: Session, c: Command, fault: Option<Fault>)
    requires SessionOk(s) && Plain(c)
    ensures var r := Arm(s, c, fault).session.ed; KeepsMru(s.ed, r) && r.current in r.bufs
  {
    hide Core, Synced, Accepted, Save, Layout, AdvanceExit, AtRisk, KeyDecision, AcceptDecision, Decide, SessionSpec.Drain, KeepsMru;
    CoreHasCurrent(s.ed);
    SameKeepsMru(s.ed);
    SaveKeepsMru(s.ed, s.ed.current, fault);
    LayoutKeepsMru(s.ed, c);
    if s.pr.exitPending != [] { SaveKeepsMru(s.ed, s.pr.exitPending[0].0, fault); }
    if s.pr.input.Some? { AcceptedKeepsMru(s.ed, s.pr.kind, s.pr.input.value, fault); }
  }

  lemma SameKeepsMru(ed: Editor)
    ensures KeepsMru(ed, ed)
  {
  }

  lemma StepKeepsMru(s: Session, c: Command, fault: Option<Fault>)
    requires SessionOk(s)
    ensures KeepsMru(s.ed, Step(s, c, fault).session.ed)
  {
    hide Core, Synced, EditCurrent, Deliver, Mint, Arm, KeepsMru, Settle, PromptsOk, PendingOk;
    CoreHasCurrent(s.ed);
    SameKeepsMru(s.ed);
    PeerKeepsMru(s, c);
    if c.Edit? { EditKeepsMru(s.ed, c.edit); }
    if Plain(c) && !(s.pr.input.Some? && !PassesGate(c)) {
      ArmSettles(s, c, fault);
      ArmKeepsMru(s, c, fault);
      SettleKeepsMru(s.ed, Arm(s, c, fault).session.ed, c, Arm(s, c, fault).events);
    }
  }

  lemma {:induction false} RunKeepsMru(s: Session, inputs: seq<Input>)
    requires SessionOk(s) && MruOk(s.ed)
    ensures SessionOk(Run(s, inputs)) && MruOk(Run(s, inputs).ed)
    decreases |inputs|
  {
    hide SessionOk, Step, MruOk, KeepsMru;
    if inputs != [] {
      var i := inputs[0];
      StepKeepsSessionOk(s, i.command, i.fault);
      StepKeepsMru(s, i.command, i.fault);
      KeepsMeansOk(s.ed, StepInput(s, i).session.ed);
      RunKeepsMru(StepInput(s, i).session, inputs[1..]);
    }
  }

  /** `C-x b RET` twice comes back: in every reachable state with two used buffers the
      default is the other one, and from there the default is this one again. */
  lemma {:induction false} SwitchingTwiceComesBack(g: InitialBuffer, frame: Option<(nat, nat)>, wording: Wording,
                                                   disk: map<string, string>, inputs: seq<Input>)
    requires ValidGenesis(g)
    requires |Run(InitialSession(g, frame, wording, disk), inputs).ed.mru| >= 2
    ensures var ed := Run(InitialSession(g, frame, wording, disk), inputs).ed;
      var there := Accepted(ed, Some(SwitchKind), "", None).0; var back := Accepted(there, Some(SwitchKind), "", None).0;
      && there.current == ed.mru[1] != ed.current
      && back.current == ed.current && back.mru == ed.mru
      && forall id :: id in ed.bufs ==> id in back.bufs && back.bufs[id].value == ed.bufs[id].value
  {
    hide Run, InitialSession, SessionOk;
    var start := InitialSession(g, frame, wording, disk);
    GenesisStartsOk(g, frame, wording, disk);
    assert MruOk(start.ed) by { StartsWithOne(g, frame, wording, disk); }
    RunKeepsMru(start, inputs);
    NoneIsNameless(Run(start, inputs));
    TwiceComesBack(Run(start, inputs).ed);
  }

  lemma StartsWithOne(g: InitialBuffer, frame: Option<(nat, nat)>, wording: Wording, disk: map<string, string>)
    ensures MruOk(InitialSession(g, frame, wording, disk).ed)
  {
  }

  lemma NoneIsNameless(s: Session)
    requires SessionOk(s) && MruOk(s.ed)
    ensures s.ed.current in s.ed.bufs && "" !in s.ed.mru
  {
  }

  lemma SelectMru(ed: Editor, id: BufferId)
    requires id != ed.current
    ensures Select(ed, id).0.mru == ToFront(ed.mru, id)
  {
    hide ToFront, BreakChains;
  }

  /** Bringing the second to the front swaps the first two. */
  lemma SecondToFront(mru: seq<BufferId>)
    requires |mru| >= 2 && mru[0] != mru[1]
    ensures ToFront(mru, mru[1]) == [mru[1], mru[0]] + mru[2..]
  {
    assert Without(mru, mru[1]) == [mru[0]] + Without(mru[1..], mru[1]);
    assert Without(mru[1..], mru[1]) == mru[1..][1..] == mru[2..];
  }

  lemma TwiceComesBack(ed: Editor)
    requires MruOk(ed) && |ed.mru| >= 2 && ed.current in ed.bufs
    requires "" !in ed.mru
    ensures var there := SwitchTo(ed, ed.mru[1]).0; var back := SwitchTo(there, there.mru[1]).0;
      && there.current == ed.mru[1] != ed.current && |there.mru| >= 2
      && back.current == ed.current && back.mru == ed.mru
      && forall id :: id in ed.bufs ==> id in back.bufs && back.bufs[id].value == ed.bufs[id].value
  {
    hide Select;
    var a, b, rest := ed.mru[0], ed.mru[1], ed.mru[2..];
    assert a in ed.mru && b in ed.mru;
    assert ed.mru == [a, b] + rest;
    SecondToFront(ed.mru);
    SelectFrame(ed, b);
    SelectMru(ed, b);
    var there := Select(ed, b).0;
    SecondToFront(there.mru);
    SelectFrame(there, a);
    SelectMru(there, a);
  }
}
