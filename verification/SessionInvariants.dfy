/** What every dispatch keeps, over every run of a session. */
module SessionInvariants {
  import opened Prelude
  import opened LineEndings
  import opened Buffers
  import opened Transcript
  import opened Events
  import opened Editing
  import opened EditingInvariants
  import opened SessionSpec

  // ---- The invariant ----

  ghost predicate BufOk(b: Buf) {
    && BufferOk(b.value, b.st)
    && (b.st.kind == Ordinary ==> CleanIsSaved(b.value, b.st))
    && (b.st.kind == Generated ==> b.value.filePath == None)
  }

  predicate Unchained(st: BufferState) {
    !st.lastWasKill && !st.yankActive && !st.descending
  }

  ghost predicate NamesOk(ed: Editor) {
    && NoDuplicates(ed.order)
    && (forall id :: id in ed.order <==> id in ed.bufs)
    && ed.current in ed.bufs
    && (forall k :: k in ed.agents ==> DeliveryTarget(ed, ed.agents[k]))
    && (forall k :: k in ed.generated ==> DeliveryTarget(ed, ed.generated[k]))
    && ed.agents.Values !! ed.generated.Values
    && "" !in ed.bufs
  }

  ghost predicate WindowsOk(ed: Editor) {
    && ed.focused < |ed.windows|
    && (forall i :: 0 <= i < |ed.windows| ==> ed.windows[i].buffer in ed.bufs)
    && ed.windows[ed.focused].buffer == ed.current
  }

  /** The focused window holds the current buffer's live point and mark. */
  ghost predicate Synced(ed: Editor) {
    ed.focused < |ed.windows|
    && ed.windows[ed.focused] == WindowValue(ed.current, Current(ed).value.point, Current(ed).value.mark)
  }

  ghost predicate BufsOk(ed: Editor) {
    forall id :: id in ed.bufs ==> BufOk(ed.bufs[id])
  }

  /** Last-command chains live in the current buffer only. */
  ghost predicate ChainsOk(ed: Editor) {
    && (forall id :: id in ed.bufs && id != ed.current ==> Unchained(ed.bufs[id].st))
    && YankChain(Current(ed).value.text, Current(ed).st, ed.ring)
    && (Current(ed).st.lastWasKill ==> ed.ring != [])
    && RingOk(ed.ring)
  }

  /** No two buffers visit the same file. */
  ghost predicate PathsOk(ed: Editor) {
    forall a, b :: a in ed.bufs && b in ed.bufs && a != b && ed.bufs[a].value.filePath.Some?
      ==> ed.bufs[a].value.filePath != ed.bufs[b].value.filePath
  }

  ghost predicate Core(ed: Editor) {
    NamesOk(ed) && WindowsOk(ed) && BufsOk(ed) && ChainsOk(ed) && PathsOk(ed)
  }

  ghost predicate EditorOk(ed: Editor) {
    Core(ed) && Synced(ed)
  }

  /** One prompt at a time; a waiting request implies an open prompt. */
  ghost predicate PromptsOk(pr: Prompts) {
    && (pr.choice.Some? ==> pr.input == Some("") && pr.kind.None? && pr.prompt == PermissionLabel(pr.choice.value))
    && (pr.kind.Some? ==> pr.input.Some?)
    && (pr.input.Some? ==> pr.choice.Some? || pr.kind.Some?)
    && (pr.kind == Some(SaveKind) <==> pr.exitPending != [])
    && (ExitPrompt(pr) ==> pr.input == Some(""))
  }

  /** Buffers still to be offered at an exit visit the path they are offered under. */
  ghost predicate PendingOk(ed: Editor, pending: seq<(BufferId, string)>) {
    forall i :: 0 <= i < |pending| ==>
      pending[i].0 in ed.bufs && ed.bufs[pending[i].0].value.filePath == Some(pending[i].1)
  }

  ghost predicate SessionOk(s: Session) {
    EditorOk(s.ed) && PromptsOk(s.pr) && PendingOk(s.ed, s.pr.exitPending)
  }

  // ---- Replacing one buffer ----

  ghost predicate Fits(ed: Editor, id: BufferId, b: Buf, ring: seq<string>) {
    && id in ed.bufs
    && BufOk(b)
    && b.value.filePath == ed.bufs[id].value.filePath
    && b.st.kind == ed.bufs[id].st.kind
    && (id != ed.current ==> Unchained(b.st))
    && (id == ed.current ==>
          YankChain(b.value.text, b.st, ring) && (b.st.lastWasKill ==> ring != []))
  }

  lemma PutKeepsCore(ed: Editor, id: BufferId, b: Buf)
    requires Core(ed) && Fits(ed, id, b, ed.ring)
    ensures Core(Put(ed, id, b))
  {
    hide BufOk, YankChain, RingOk, NoDuplicates;
  }

  lemma PutKeepsPaths(ed: Editor, id: BufferId, b: Buf, ring: seq<string>)
    requires PathsOk(ed) && id in ed.bufs && b.value.filePath == ed.bufs[id].value.filePath
    ensures PathsOk(Put(ed, id, b).(ring := ring))
  {
  }

  lemma PutCurrentKeepsCore(ed: Editor, b: Buf, ring: seq<string>)
    requires Core(ed) && Fits(ed, ed.current, b, ring) && RingOk(ring)
    ensures Core(Put(ed, ed.current, b).(ring := ring))
  {
    hide BufOk, YankChain, RingOk, NoDuplicates, PathsOk;
    PutKeepsPaths(ed, ed.current, b, ring);
  }

  lemma SyncKeepsCore(ed: Editor)
    requires Core(ed)
    ensures EditorOk(SyncFocused(ed)) && SyncFocused(ed).bufs == ed.bufs
  {
    hide BufOk, YankChain, RingOk, NoDuplicates;
  }

  lemma BreakChainsFits(ed: Editor)
    requires Core(ed)
    ensures Fits(ed, ed.current, Current(ed).(st := BreakChains(Current(ed).st)), ed.ring)
  {
    assert BufOk(ed.bufs[ed.current]);
  }

  lemma LeaveKeepsCore(ed: Editor)
    requires Core(ed)
    ensures Core(Leave(ed)) && Unchained(Current(Leave(ed)).st) && Leave(ed).bufs.Keys == ed.bufs.Keys
  {
    BreakChainsFits(ed);
    PutKeepsCore(ed, ed.current, Current(ed).(st := BreakChains(Current(ed).st)));
  }

  lemma SettleKeeps(ed: Editor, c: Command, events: seq<Event>)
    requires Core(ed)
    ensures EditorOk(Settle(ed, c, events))
  {
    hide Core;
    LeaveKeepsCore(ed);
    SyncKeepsCore(Leave(ed));
    SyncKeepsCore(ed);
  }

  // ---- Editing ----

  lemma EditCurrentKeeps(ed: Editor, e: EditCommand)
    requires EditorOk(ed)
    ensures EditorOk(EditCurrent(ed, e).0)
  {
    hide EditStep, UndoChain, RedoChain, PathsOk, WindowsOk, NoDuplicates;
    var b := Current(ed);
    assert BufOk(b);
    var l := Local(b.value, b.st, ed.ring);
    EditKeepsLocalOk(l, e);
    EditFacts(l, e);
    var r := EditStep(l, e).local;
    PutCurrentKeepsCore(ed, Buf(r.value, r.st), r.ring);
    SyncKeepsCore(Put(ed, ed.current, Buf(r.value, r.st)).(ring := r.ring));
  }

  lemma EditFacts(l: Local, e: EditCommand)
    requires LocalOk(l)
    ensures var r := EditStep(l, e).local;
      && (CleanIsSaved(l.value, l.st) ==> CleanIsSaved(r.value, r.st))
      && r.st.kind == l.st.kind && r.st.eol == l.st.eol && r.st.savedText == l.st.savedText
      && r.value.filePath == l.value.filePath
  {
    hide LocalOk, EditStep;
    EditKeepsFile(l, e);
    if CleanIsSaved(l.value, l.st) { EditKeepsCleanIsSaved(l, e); }
  }

  // ---- Selecting and creating ----

  lemma SelectKeepsCore(ed: Editor, id: BufferId)
    requires Core(ed) && id in ed.bufs
    ensures Core(Select(ed, id).0)
  {
    hide BufOk, YankChain, NoDuplicates;
    if id != ed.current {
      LeaveKeepsCore(ed);
      var left := Leave(ed);
      assert Unchained(left.bufs[id].st);
      NoYankNoBounds(left, id);
    }
  }

  lemma NoYankNoBounds(ed: Editor, id: BufferId)
    requires Unchained(BufOf(ed, id).st)
    ensures YankChain(BufOf(ed, id).value.text, BufOf(ed, id).st, ed.ring)
  {
  }

  // Decimal suffixes are distinct, so the search for a free name finds one.

  function DigitValue(c: char): int { c as int - '0' as int }

  function Value(s: string): int {
    if s == "" then 0 else 10 * Value(s[..|s| - 1]) + DigitValue(s[|s| - 1])
  }

  lemma {:induction false} DecimalHasValue(n: nat)
    ensures Value(Decimal(n)) == n && Decimal(n) != ""
  {
    if n < 10 {
      assert Decimal(n)[..0] == "";
      assert DigitValue(Digit(n)) == n;
    } else {
      DecimalHasValue(n / 10);
      assert DigitValue(Digit(n % 10)) == n % 10;
      assert Decimal(n)[..|Decimal(n)| - 1] == Decimal(n / 10);
    }
  }

  lemma SuffixesDiffer(name: string, j: nat, k: nat)
    requires j != k
    ensures Suffixed(name, j) != Suffixed(name, k)
  {
    DecimalHasValue(j);
    DecimalHasValue(k);
    assert Suffixed(name, j)[|name| + 1..|Suffixed(name, j)| - 1] == Decimal(j);
    assert Suffixed(name, k)[|name| + 1..|Suffixed(name, k)| - 1] == Decimal(k);
  }

  lemma {:induction false} FirstFreeIsFree(name: string, k: nat, taken: set<BufferId>)
    ensures FirstFree(name, k, taken) !in taken
    ensures exists j :: j >= k && FirstFree(name, k, taken) == Suffixed(name, j)
    decreases |taken|
  {
    if Suffixed(name, k) in taken {
      FirstFreeIsFree(name, k + 1, taken - {Suffixed(name, k)});
      var j :| j >= k + 1 && FirstFree(name, k, taken) == Suffixed(name, j);
      SuffixesDiffer(name, j, k);
    }
  }

  /** A new buffer's name is none of the names in use. */
  lemma FreshNameIsFresh(name: string, taken: set<BufferId>)
    ensures FreshName(name, taken) !in taken
  {
    if name in taken { FirstFreeIsFree(name, 2, taken); }
  }

  lemma FreshNameIsNamed(name: string, taken: set<BufferId>)
    requires name != ""
    ensures FreshName(name, taken) != ""
  {
    if name in taken {
      FirstFreeIsFree(name, 2, taken);
      var j: nat :| j >= 2 && FirstFree(name, 2, taken) == Suffixed(name, j);
      assert Suffixed(name, j)[|name|] == '<';
    }
  }

  ghost predicate NewBuf(ed: Editor, b: Buf) {
    && BufOk(b) && Unchained(b.st)
    && (b.value.filePath.Some? ==>
          forall id :: id in ed.bufs ==> ed.bufs[id].value.filePath != b.value.filePath)
  }

  lemma CreateKeepsPaths(ed: Editor, name: string, b: Buf)
    requires PathsOk(ed) && NewBuf(ed, b)
    ensures PathsOk(Create(ed, name, b).0)
  {
    hide BufOk, FreshName, Unchained;
    FreshNameIsFresh(name, ed.bufs.Keys);
  }

  lemma CreateKeepsOrder(ed: Editor, id: BufferId)
    requires NoDuplicates(ed.order) && id !in ed.order
    ensures NoDuplicates(ed.order + [id])
  {
  }

  lemma CreateKeepsCore(ed: Editor, name: string, b: Buf)
    requires Core(ed) && NewBuf(ed, b) && name != ""
    ensures var r := Create(ed, name, b);
      && Core(r.0) && r.1 !in ed.bufs && r.1 in r.0.bufs && r.0.bufs[r.1] == b
      && r.0.current == ed.current && r.0.windows == ed.windows && r.0.focused == ed.focused
  {
    hide BufOk, YankChain, FreshName, PathsOk, NoDuplicates;
    FreshNameIsFresh(name, ed.bufs.Keys);
    FreshNameIsNamed(name, ed.bufs.Keys);
    CreateKeepsPaths(ed, name, b);
    CreateKeepsOrder(ed, FreshName(name, ed.bufs.Keys));
  }

  lemma BlankIsNew(ed: Editor)
    ensures NewBuf(ed, BLANK) && NewBuf(ed, GENERATED_BLANK)
  {
  }

  lemma {:induction false} VisitingFinds(ed: Editor, order: seq<BufferId>, path: string)
    ensures match Visiting(ed, order, path)
      case Some(id) => id in order && BufOf(ed, id).value.filePath == Some(path)
      case None => forall id :: id in order ==> BufOf(ed, id).value.filePath != Some(path)
  {
    if order != [] { VisitingFinds(ed, order[1..], path); }
  }

  lemma VisitedIsNew(ed: Editor, path: string, v: Visit)
    requires Core(ed) && v.VisitOpened? && Visiting(ed, ed.order, path).None?
    ensures NewBuf(ed, VisitedBuf(path, v))
  {
    VisitingFinds(ed, ed.order, path);
  }

  lemma VisitIsNamed(disk: map<string, string>, path: string, fault: Option<Fault>)
    ensures ResolveVisit(disk, path, fault).VisitOpened? ==> Basename(path) != ""
  {
    hide Basename, Detect, ToBufferText;
  }

  lemma OpenFileKeepsCore(ed: Editor, path: string, fault: Option<Fault>)
    requires Core(ed)
    ensures Core(OpenFile(ed, path, fault).0)
  {
    hide Select, Create, ResolveVisit, Basename, YankChain, BufOk, NewBuf;
    VisitingFinds(ed, ed.order, path);
    match Visiting(ed, ed.order, path)
    case Some(id) => SelectKeepsCore(ed, id);
    case None =>
      var v := ResolveVisit(ed.disk, path, fault);
      if v.VisitOpened? {
        var b := VisitedBuf(path, v);
        VisitedIsNew(ed, path, v);
        VisitIsNamed(ed.disk, path, fault);
        CreateKeepsCore(ed, Basename(path), b);
        var made := Create(ed, Basename(path), b);
        SelectKeepsCore(made.0, made.1);
      }
  }

  lemma SwitchKeepsCore(ed: Editor, name: string)
    requires Core(ed)
    ensures Core(SwitchTo(ed, name).0)
  {
    hide Core, Select, Create, NewBuf;
    if name in ed.bufs {
      if name != "" { SelectKeepsCore(ed, name); }
    } else if name != "" {
      BlankIsNew(ed);
      CreateKeepsCore(ed, name, BLANK);
      var made := Create(ed, name, BLANK);
      SelectKeepsCore(made.0, made.1);
    }
  }

  // ---- Saving ----

  lemma SaveKeepsCore(ed: Editor, id: BufferId, fault: Option<Fault>)
    requires Core(ed) && id in ed.bufs
    ensures Core(Save(ed, id, fault).0)
  {
    var b := ed.bufs[id];
    assert BufOk(b);
    if b.value.filePath.Some? && fault.None? {
      var b' := Buf(b.value.(modified := false), b.st.(savedText := Some(b.value.text)));
      assert Fits(ed, id, b', ed.ring);
      PutKeepsCore(ed, id, b');
      DiskKeepsCore(Put(ed, id, b'), Save(ed, id, fault).0.disk);
    }
  }

  lemma DiskKeepsCore(ed: Editor, disk: map<string, string>)
    requires Core(ed)
    ensures Core(ed.(disk := disk))
  {
    hide BufOk, YankChain, RingOk, NoDuplicates;
  }

  // ---- Windows ----

  lemma SplitKeepsCore(ed: Editor, speak: bool)
    requires EditorOk(ed)
    ensures EditorOk(Split(ed, speak).0)
  {
    hide BufsOk, ChainsOk, PathsOk;
    WindowsOnlyKeepCore(ed, Split(ed, speak).0.windows, ed.focused);
  }

  /** Rearranging windows over existing buffers touches nothing else. */
  lemma WindowsOnlyKeepCore(ed: Editor, windows: seq<WindowValue>, focused: nat)
    requires Core(ed) && focused < |windows| && windows[focused].buffer == ed.current
    requires forall i :: 0 <= i < |windows| ==> windows[i].buffer in ed.bufs
    ensures Core(ed.(windows := windows, focused := focused))
  {
    hide BufOk, YankChain, RingOk, NoDuplicates;
  }

  lemma FrameKeepsCore(ed: Editor, frame: Option<(nat, nat)>)
    requires Core(ed)
    ensures Core(ed.(frame := frame))
  {
    hide BufOk, YankChain, RingOk, NoDuplicates;
  }

  lemma ArriveFits(ed: Editor, w: WindowValue)
    requires Core(ed)
    ensures Core(Arrive(ed, w))
  {
    var b := Current(ed);
    assert BufOk(ed.bufs[ed.current]);
    var n := |b.value.text|;
    var b' := b.(value := b.value.(point := Clamp(w.point, n),
                                   mark := if w.mark.None? then None else Some(Clamp(w.mark.value, n))));
    assert Fits(ed, ed.current, b', ed.ring);
    PutKeepsCore(ed, ed.current, b');
  }

  /** Focus lands on a window over another buffer, which becomes current. */
  lemma RefocusKeepsCore(ed: Editor, next: nat)
    requires Core(ed) && next < |ed.windows| && ed.windows[next].buffer != ed.current
    requires Unchained(Current(ed).st)
    ensures var id := ed.windows[next].buffer;
      Core(ed.(focused := next, current := id, mru := ToFront(ed.mru, id)))
  {
    hide BufOk, YankChain, RingOk, NoDuplicates, ToFront;
    NoYankNoBounds(ed, ed.windows[next].buffer);
  }

  lemma OtherKeepsCore(ed: Editor)
    requires EditorOk(ed)
    ensures Core(Other(ed).0)
  {
    hide Core, Arrive, ToFront, Leave;
    if |ed.windows| >= 2 {
      var next := (ed.focused + 1) % |ed.windows|;
      var w := ed.windows[next];
      var moved := ed.(focused := next);
      if w.buffer != ed.current {
        LeaveKeepsCore(ed);
        LeaveKeepsWindows(ed, next);
        RefocusKeepsCore(Leave(ed), next);
        ArriveFits(Leave(moved).(current := w.buffer, mru := ToFront(ed.mru, w.buffer)), w);
      } else {
        CoreHasWindows(ed);
        WindowsOnlyKeepCore(ed, ed.windows, next);
        ArriveFits(moved, w);
      }
    }
  }

  lemma LeaveKeepsWindows(ed: Editor, next: nat)
    ensures Leave(ed.(focused := next)) == Leave(ed).(focused := next)
    ensures Leave(ed).windows == ed.windows && Leave(ed).mru == ed.mru && Leave(ed).current == ed.current
  {
  }

  lemma CoreHasWindows(ed: Editor)
    requires Core(ed)
    ensures forall i :: 0 <= i < |ed.windows| ==> ed.windows[i].buffer in ed.bufs
  {
  }

  lemma DisplayKeepsCore(ed: Editor, id: BufferId)
    requires EditorOk(ed) && id in ed.bufs
    ensures Core(Display(ed, id).0)
  {
    hide BufsOk, ChainsOk, PathsOk, NamesOk;
    if |ed.windows| == 1 { SplitKeepsCore(ed, false); }
    var split := if |ed.windows| == 1 then Split(ed, false).0 else ed;
    if |split.windows| >= 2 {
      var at := (ed.focused + 1) % |split.windows|;
      assert at != ed.focused;
      WindowsOnlyKeepCore(split, split.windows[at := WindowValue(id, 0, None)], ed.focused);
    }
  }

  lemma DeleteOthersKeepsCore(ed: Editor)
    requires EditorOk(ed)
    ensures Core(DeleteOthers(ed).0)
  {
    hide BufsOk, ChainsOk, PathsOk, NamesOk;
    if |ed.windows| >= 2 { WindowsOnlyKeepCore(ed, [ed.windows[ed.focused]], 0); }
  }

  lemma LayoutKeepsCore(ed: Editor, c: Command)
    requires EditorOk(ed) && (c.DisplayBuffer? ==> c.target in ed.bufs)
    ensures Core(Layout(ed, c).0)
  {
    hide Split, Display, Other, DeleteOthers, Core, Synced;
    match c {
      case SplitWindow => SplitKeepsCore(ed, true);
      case OtherWindow => OtherKeepsCore(ed);
      case DeleteOtherWindows => DeleteOthersKeepsCore(ed);
      case ResizeFrame(w, h) => FrameKeepsCore(ed, Some((w, h)));
      case DisplayBuffer(id) => DisplayKeepsCore(ed, id);
      case _ =>
    }
  }

  // ---- Agent output ----

  lemma AppendedOk(b: Buf, text: string, ring: seq<string>)
    requires BufOk(b) && b.st.kind == Generated
    ensures BufOk(b.(value := Appended(b.value, text)))
    ensures YankChain(b.value.text, b.st, ring) ==> YankChain(Appended(b.value, text).text, b.st, ring)
  {
    AppendKeepsUndoChain(b.value.text, text, b.st.history);
    AppendKeepsRedoChain(b.value.text, text, b.st.redo);
  }

  lemma TargetOk(ed: Editor, id: BufferId)
    requires Core(ed) && id in ed.bufs
    ensures BufOk(ed.bufs[id]) && (id == ed.current ==> YankChain(ed.bufs[id].value.text, ed.bufs[id].st, ed.ring))
  {
    hide BufOk, YankChain, RingOk;
  }

  /** Tail-follow moves points only, and never in the focused window. */
  lemma AppendKeepsFocus(ed: Editor, id: BufferId, text: string)
    ensures var ws := Append(ed, id, text).0.windows;
      && |ws| == |ed.windows| && (ed.focused < |ws| ==> ws[ed.focused] == ed.windows[ed.focused])
      && forall i :: 0 <= i < |ws| ==> ws[i].buffer == ed.windows[i].buffer
  {
    hide Appended;
  }

  lemma AppendKeepsCore(ed: Editor, id: BufferId, text: string)
    requires Core(ed) && DeliveryTarget(ed, id)
    ensures Core(Append(ed, id, text).0)
    ensures id != ed.current && Synced(ed) ==> Synced(Append(ed, id, text).0)
  {
    hide Append, BufOk, YankChain;
    AppendFrame(ed, id, text);
    if text != "" {
      var b := ed.bufs[id];
      TargetOk(ed, id);
      AppendedOk(b, text, ed.ring);
      var b' := b.(value := Appended(b.value, text));
      assert Fits(ed, id, b', ed.ring);
      PutKeepsCore(ed, id, b');
      AppendKeepsFocus(ed, id, text);
      WindowsOnlyKeepCore(Put(ed, id, b'), Append(ed, id, text).0.windows, ed.focused);
    }
  }

  lemma FoldsKeepCore(ed: Editor, folds: map<BufferId, TranscriptFold>)
    requires Core(ed)
    ensures Core(ed.(folds := folds))
  {
    hide BufOk, YankChain, RingOk, NoDuplicates;
  }

  lemma DeliverKeeps(s: Session, c: Command)
    requires EditorOk(s.ed) && (c.DeliverSessionEffects? || c.InsertAgentText?)
    ensures EditorOk(Deliver(s, c).session.ed)
  {
    hide Core, Append, Rendered, FoldAfter, AllRenderable, Synced;
    var ed := s.ed;
    if DeliveryTarget(ed, c.target) {
      var at := if c.InsertAgentText? then ed
                else ed.(folds := ed.folds[c.target := FoldAfter(ed.wording, FoldOf(ed, c.target), c.effects)]);
      var text := if c.InsertAgentText? then c.agentText
                  else Rendered(ed.wording, FoldOf(ed, c.target), c.effects);
      assert Synced(at) by { FoldsKeepSynced(ed, at); }
      FoldsKeepCore(ed, at.folds);
      AppendKeepsCore(at, c.target, text);
      AppendCurrent(at, c.target, text);
      SyncKeepsCore(Append(at, c.target, text).0);
    }
  }

  lemma FoldsKeepSynced(ed: Editor, at: Editor)
    requires Synced(ed) && at == ed.(folds := at.folds)
    ensures Synced(at)
  {
  }

  lemma AppendCurrent(ed: Editor, id: BufferId, text: string)
    ensures Append(ed, id, text).0.current == ed.current
  {
  }

  lemma BindingsKeepCore(ed: Editor, agents: map<string, BufferId>, generated: map<string, BufferId>)
    requires Core(ed)
    requires forall k :: k in agents ==> DeliveryTarget(ed, agents[k])
    requires forall k :: k in generated ==> DeliveryTarget(ed, generated[k])
    requires agents.Values !! generated.Values
    ensures Core(ed.(agents := agents, generated := generated))
  {
    hide BufOk, YankChain, RingOk, NoDuplicates;
  }

  lemma MintKeeps(s: Session, c: Command)
    requires EditorOk(s.ed) && (c.CreateAgentBuffer? || c.CreateGeneratedBuffer?)
    ensures EditorOk(Mint(s, c).session.ed)
  {
    hide BufsOk, ChainsOk, PathsOk, WindowsOk, NewBuf, NoDuplicates;
    var ed := s.ed;
    var known := if c.CreateAgentBuffer? then Lookup(ed.agents, c.acpSession) else Lookup(ed.generated, c.name);
    SyncKeepsCore(ed);
    if known.None? && !Nameless(ed, c) {
      BlankIsNew(ed);
      var name := if c.CreateAgentBuffer? then AGENT_NAME else c.name;
      CreateKeepsCore(ed, name, GENERATED_BLANK);
      var made := Create(ed, name, GENERATED_BLANK);
      var agents := if c.CreateAgentBuffer? then ed.agents[c.acpSession := made.1] else ed.agents;
      var generated := if c.CreateAgentBuffer? then ed.generated else ed.generated[c.name := made.1];
      FreshNameIsFresh(name, ed.bufs.Keys);
      assert made.1 !in ed.agents.Values && made.1 !in ed.generated.Values;
      assert agents.Values <= ed.agents.Values + {made.1} && generated.Values <= ed.generated.Values + {made.1};
      BindingsKeepCore(made.0, agents, generated);
    }
  }
}
