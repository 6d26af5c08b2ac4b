/** The editor session as the program runs it: one object, updated in place. */
module LiveSession {
  import opened Prelude
  import opened LineEndings
  import opened Buffers
  import opened Acp
  import opened Transcript
  import opened Events
  import opened Editing
  import opened EditingInvariants
  import opened SessionSpec
  import opened SessionInvariants
  import opened SessionRuns
  import opened Genesis
  import EventSourcing

  /** A slice that does not clip is the slice Python takes. */
  lemma SpliceInBounds(text: string, start: int, length: int, replacement: string)
    requires 0 <= start && 0 <= length && start + length <= |text|
    ensures Splice(text, start, length, replacement) == text[..start] + replacement + text[start + length..]
  {
  }

  predicate HasKill(events: seq<Event>) { exists i :: 0 <= i < |events| && events[i].TextKilled? }
  predicate HasYank(events: seq<Event>) { exists i :: 0 <= i < |events| && events[i].TextYanked? }
  predicate HasPop(events: seq<Event>) { exists i :: 0 <= i < |events| && events[i].TextYankPopped? }

  class EditorSession {
    var order: seq<BufferId>
    var bufs: map<BufferId, Buf>
    var current: BufferId
    var ring: seq<string>
    var windows: seq<WindowValue>
    var focused: nat
    var frame: Option<(nat, nat)>
    var mru: seq<BufferId>
    var folds: map<BufferId, TranscriptFold>
    var agents: map<string, BufferId>
    var generated: map<string, BufferId>
    const wording: Wording
    var disk: map<string, string>
    var input: Option<string>
    var prompt: Label
    var kind: Option<PromptKind>
    var choice: Option<Permission>
    var exitPending: seq<(BufferId, string)>
    var queue: seq<Permission>
    var transcript: seq<Event>
    /** Where the session started, and every dispatch since. */
    ghost var origin: Session
    ghost var history: seq<Input>

    function Ed(): Editor
      reads this
    {
      Editor(order, bufs, current, ring, windows, focused, frame, mru, folds, agents, generated, wording, disk)
    }

    function Pr(): Prompts
      reads this
    {
      Prompts(input, prompt, kind, choice, exitPending, queue)
    }

    function View(): Session
      reads this
    {
      Session(Ed(), Pr())
    }

    /** The invariant of every run holds, and the object is the run of its history. */
    ghost predicate Valid()
      reads this
    {
      SessionOk(View()) && Recounted(origin, history, View(), transcript)
    }

    constructor (g: InitialBuffer, frame: Option<(nat, nat)>, wording: Wording, disk: map<string, string>)
      requires ValidGenesis(g)
      ensures Valid() && View() == InitialSession(g, frame, wording, disk) && transcript == []
      ensures origin == View() && history == []
    {
      var value := BufferValue(g.text, g.point, g.filePath, g.modified, g.mark);
      order, bufs, current := [g.id], map[g.id := Buf(value, FreshState(g.savedText, g.eol, Ordinary))], g.id;
      ring, mru, folds, agents, generated := [], [g.id], map[], map[], map[];
      windows, focused := [WindowValue(g.id, g.point, g.mark)], 0;
      this.frame, this.wording, this.disk := frame, wording, disk;
      input, prompt, kind, choice, exitPending, queue := None, NoLabel, None, None, [], [];
      transcript := [];
      origin, history := InitialSession(g, frame, wording, disk), [];
      new;
      GenesisStartsOk(g, frame, wording, disk);
    }

    // ---- Editing the current buffer ----

    /** The kill ring, newest first, bounded. */
    method PushKilled(killed: string)
      modifies this`ring
      ensures ring == PushKill(old(ring), killed)
    {
      ring := [killed] + ring;
      if |ring| > KILL_RING_CAPACITY { ring := ring[..KILL_RING_CAPACITY]; }
    }

    method KillLine(v: BufferValue) returns (value: BufferValue, out: seq<Event>)
      requires current in bufs && v == bufs[current].value && LocalOk(Local(v, bufs[current].st, ring))
      modifies this`ring
      ensures Edited(Local(value, bufs[current].st, ring), out) == Apply(Local(v, bufs[current].st, old(ring)), EditCommand.KillLine)
    {
      hide LocalOk, PushKill, Splice, Slice, KillEnd, AdjustDelete;
      var point, text := v.point, v.text;
      PointFits(Local(v, bufs[current].st, ring));
      if point == |text| {
        return v, [Message(EndOfBuffer)];
      }
      var end := if text[point] == '\n' then point + 1 else LineEnd(text, point);
      var killed := text[point..end];
      KillFits(text, point);
      value := v.(text := text[..point] + text[end..], modified := true, mark := AdjustDelete(v.mark, point, end));
      if bufs[current].st.lastWasKill && ring != [] {
        ring := ring[0 := ring[0] + killed];
      } else {
        PushKilled(killed);
      }
      out := [TextKilled(killed, point, end)];
    }

    method KillRegion(v: BufferValue) returns (value: BufferValue, out: seq<Event>)
      requires current in bufs && v == bufs[current].value && LocalOk(Local(v, bufs[current].st, ring))
      modifies this`ring
      ensures Edited(Local(value, bufs[current].st, ring), out) == Apply(Local(v, bufs[current].st, old(ring)), EditCommand.KillRegion)
    {
      hide UndoChain, RedoChain, YankChain, RingOk, PushKill, Splice;
      if v.mark.None? {
        return v, [Message(MarkNotSet)];
      }
      var mark := v.mark.value;
      if mark == v.point {
        return v, [];
      }
      var lo, hi := if v.point < mark then v.point else mark, if v.point > mark then v.point else mark;
      var killed := v.text[lo..hi];
      SpliceInBounds(v.text, lo, hi - lo, "");
      assert v.text[..lo] + v.text[hi..] == v.text[..lo] + "" + v.text[hi..];
      value := v.(text := v.text[..lo] + v.text[hi..], point := lo, modified := true, mark := None);
      PushKilled(killed);
      out := [RegionKilled(killed, lo, hi)];
    }

    method CopyRegion(v: BufferValue) returns (value: BufferValue, out: seq<Event>)
      requires current in bufs && v == bufs[current].value && LocalOk(Local(v, bufs[current].st, ring))
      modifies this`ring
      ensures Edited(Local(value, bufs[current].st, ring), out) == Apply(Local(v, bufs[current].st, old(ring)), CopyRegionAsKill)
    {
      if v.mark.None? {
        return v, [Message(MarkNotSet)];
      }
      var mark := v.mark.value;
      if mark == v.point {
        return v, [];
      }
      var lo, hi := if v.point < mark then v.point else mark, if v.point > mark then v.point else mark;
      value := v.(mark := None);
      PushKilled(v.text[lo..hi]);
      out := [RegionCopied(v.text[lo..hi])];
    }

    method Yank(v: BufferValue) returns (value: BufferValue, out: seq<Event>)
      requires current in bufs && v == bufs[current].value && LocalOk(Local(v, bufs[current].st, ring))
      modifies this`bufs
      ensures var r := Apply(Local(v, old(bufs)[current].st, ring), EditCommand.Yank);
        value == r.local.value && out == r.events && bufs == old(bufs)[current := Buf(v, r.local.st)] && ring == r.local.ring
    {
      if ring == [] {
        assert bufs == bufs[current := Buf(v, bufs[current].st)];
        return v, [];
      }
      var text, before := ring[0], v.point;
      var after := before + |text|;
      SpliceInBounds(v.text, before, 0, text);
      value := v.(text := v.text[..before] + text + v.text[before..], point := after, modified := true,
                  mark := AdjustInsert(v.mark, before, |text|));
      out := [TextYanked(text, before, after)];
      var b := bufs[current];
      bufs := bufs[current := b.(st := b.st.(yankCursor := 0, yankStart := before, yankEnd := after))];
    }

    method YankPop(v: BufferValue) returns (value: BufferValue, out: seq<Event>)
      requires current in bufs && v == bufs[current].value && LocalOk(Local(v, bufs[current].st, ring))
      modifies this`bufs
      ensures var r := Apply(Local(v, old(bufs)[current].st, ring), EditCommand.YankPop);
        value == r.local.value && out == r.events && bufs == old(bufs)[current := Buf(v, r.local.st)] && ring == r.local.ring
    {
      var b := bufs[current];
      if !b.st.yankActive {
        assert bufs == bufs[current := Buf(v, b.st)];
        return v, [Message(NotAYank)];
      }
      if |ring| < 2 {
        assert bufs == bufs[current := Buf(v, b.st)];
        return v, [];
      }
      var start, end := b.st.yankStart, b.st.yankEnd;
      var replaced := v.text[start..end];
      var cursor := (b.st.yankCursor + 1) % |ring|;
      var next := ring[cursor];
      var after := start + |next|;
      SpliceInBounds(v.text, start, end - start, next);
      value := v.(text := v.text[..start] + next + v.text[end..], point := after, modified := true,
                  mark := AdjustInsert(AdjustDelete(v.mark, start, end), start, |next|));
      out := [TextYankPopped(replaced, next, start, after)];
      bufs := bufs[current := b.(st := b.st.(yankCursor := cursor, yankEnd := after))];
    }

    /** Apply the newest group's inverse, or redo the newest undone group after an
        intervening command. Every slice is in bounds. */
    method Undo(v: BufferValue) returns (value: BufferValue, out: seq<Event>)
      requires current in bufs && v == bufs[current].value && LocalOk(Local(v, bufs[current].st, ring))
      modifies this`bufs
      ensures var r := Apply(Local(v, old(bufs)[current].st, ring), EditCommand.Undo);
        value == r.local.value && out == r.events && bufs == old(bufs)[current := Buf(v, r.local.st)] && ring == r.local.ring
    {
      hide BufferOk, YankChain, RingOk, Splice;
      var b := bufs[current];
      if b.st.descending || b.st.redo == [] {
        if b.st.history == [] {
          assert bufs == bufs[current := Buf(v, b.st)];
          return v, [Message(NoFurtherUndo)];
        }
        var g := b.st.history[|b.st.history| - 1];
        NewestFits(v, b.st);
        SpliceInBounds(v.text, g.start, |g.inserted|, g.removed);
        var text := v.text[..g.start] + g.removed + v.text[g.start + |g.inserted|..];
        value := v.(text := text, point := g.pointBefore, mark := g.markBefore, modified := ModifiedAfterUndo(b.st, text));
        bufs := bufs[current := b.(st := b.st.(history := b.st.history[..|b.st.history| - 1], redo := b.st.redo + [g]))];
        out := [TextUndone(g.start, g.inserted, g.removed)];
      } else {
        var g := b.st.redo[|b.st.redo| - 1];
        NewestFits(v, b.st);
        SpliceInBounds(v.text, g.start, |g.removed|, g.inserted);
        var text := v.text[..g.start] + g.inserted + v.text[g.start + |g.removed|..];
        value := v.(text := text, point := g.pointAfter, mark := g.markAfter, modified := ModifiedAfterUndo(b.st, text));
        bufs := bufs[current := b.(st := b.st.(redo := b.st.redo[..|b.st.redo| - 1], history := b.st.history + [g]))];
        out := [TextRedone(g.start, g.removed, g.inserted)];
      }
    }

    /** One edit command, up to the bookkeeping that ends the dispatch. */
    method EditArm(e: EditCommand, v: BufferValue) returns (value: BufferValue, out: seq<Event>)
      requires current in bufs && v == bufs[current].value && LocalOk(Local(v, bufs[current].st, ring))
      modifies this`bufs, this`ring
      ensures var r := Apply(Local(v, old(bufs)[current].st, old(ring)), e);
        value == r.local.value && out == r.events && bufs == old(bufs)[current := Buf(v, r.local.st)] && ring == r.local.ring
    {
      hide LocalOk;
      assert bufs == bufs[current := Buf(v, bufs[current].st)];
      match e {
        case InsertText(text) =>
          if text == "" {
            return v, [];
          }
          InsertionFits(Local(v, bufs[current].st, ring), text);
          value := v.(text := v.text[..v.point] + text + v.text[v.point..], point := v.point + |text|, modified := true,
                      mark := AdjustInsert(v.mark, v.point, |text|));
          out := [TextInserted(text, v.point, v.point + |text|)];
        case ForwardChar =>
          var p := if v.point + 1 < |v.text| then v.point + 1 else |v.text|;
          value, out := v.(point := p), [PointMoved(1, p - v.point)];
        case BackwardChar =>
          var p := if v.point - 1 > 0 then v.point - 1 else 0;
          value, out := v.(point := p), [PointMoved(-1, p - v.point)];
        case KillLine => value, out := KillLine(v);
        case Yank => value, out := Yank(v);
        case YankPop => value, out := YankPop(v);
        case SetMark => value, out := v.(mark := Some(v.point)), [MarkSet(v.point)];
        case KillRegion => value, out := KillRegion(v);
        case CopyRegionAsKill => value, out := CopyRegion(v);
        case ExchangePointAndMark =>
          if v.mark.None? {
            return v, [];
          }
          value, out := v.(point := v.mark.value, mark := Some(v.point)), [MarkExchanged(v.point, v.mark.value)];
        case Undo => value, out := Undo(v);
        case KeyboardQuit => value, out := v.(mark := None), [KeyboardQuitEvent];
      }
    }

    // ---- Buffers ----

    /** A new buffer under the first free of `name`, `name<2>`, `name<3>`, … */
    method CreateBuffer(name: string, b: Buf) returns (id: BufferId, out: seq<Event>)
      modifies this`bufs, this`order
      ensures (Ed(), id, out) == Create(old(Ed()), name, b)
    {
      hide FirstFree, Suffixed;
      id := name;
      var suffix: nat := 2;
      ghost var untried := bufs.Keys;
      while id in bufs
        invariant Ed() == old(Ed()) && suffix >= 2 && untried <= bufs.Keys
        invariant forall k: nat :: k >= suffix ==> (Suffixed(name, k) in bufs <==> Suffixed(name, k) in untried)
        invariant suffix == 2 ==> id == name && untried == bufs.Keys
        invariant suffix > 2 ==> id == Suffixed(name, suffix - 1) && (id in bufs <==> id in untried) && name in bufs
                                 && FreshName(name, bufs.Keys) == FirstFree(name, suffix - 1, untried)
        decreases |untried|, suffix == 2
      {
        if suffix > 2 {
          TakenSuffix(name, suffix - 1, untried);
          untried := untried - {id};
        }
        id := Suffixed(name, suffix);
        suffix := suffix + 1;
      }
      FreeSuffix(name, suffix, untried);
      assert id == Create(Ed(), name, b).1;
      bufs := bufs[id := b];
      order := order + [id];
      out := [BufferCreated(id, b.value.filePath)];
    }

    /** Make `id` the current buffer; the focused window follows. */
    method SelectBuffer(id: BufferId) returns (out: seq<Event>)
      requires current in bufs && id in bufs
      modifies this`bufs, this`current, this`mru, this`windows
      ensures (Ed(), out) == Select(old(Ed()), id)
      ensures old(current in bufs) ==> current in bufs
    {
      if id == current {
        return [];
      }
      bufs := bufs[current := bufs[current].(st := BreakChains(bufs[current].st))];
      current := id;
      mru := [id] + Without(mru, id);
      var v := bufs[id].value;
      var ws, f := windows, focused;
      windows := seq(|ws|, i requires 0 <= i < |ws| => if i == f then WindowValue(id, v.point, v.mark) else ws[i]);
      assert windows == if f < |ws| then ws[f := WindowValue(id, v.point, v.mark)] else ws;
      out := [BufferSelected(id)];
    }

    method SwitchTo(name: string) returns (out: seq<Event>)
      requires current in bufs
      modifies this`bufs, this`order, this`current, this`mru, this`windows
      ensures (Ed(), out) == SessionSpec.SwitchTo(old(Ed()), name)
      ensures old(current in bufs) ==> current in bufs
    {
      hide FreshName, Select;
      out := [];
      if name != "" {
        var id := name;
        if id !in bufs {
          FreshNameIsFresh(name, bufs.Keys);
          id, out := CreateBuffer(name, BLANK);
        }
        var chosen := SelectBuffer(id);
        assert [] + chosen == chosen;
        out := out + chosen;
      }
    }

    method OpenFile(path: string, fault: Option<Fault>) returns (out: seq<Event>)
      requires current in bufs && forall i :: 0 <= i < |order| ==> order[i] in bufs
      modifies this`bufs, this`order, this`current, this`mru, this`windows
      ensures (Ed(), out) == SessionSpec.OpenFile(old(Ed()), path, fault)
      ensures old(current in bufs) ==> current in bufs
    {
      hide FreshName, Select, Basename, Detect, ToBufferText;
      var i := 0;
      while i < |order|
        invariant 0 <= i <= |order|
        invariant Visiting(Ed(), order[i..], path) == Visiting(Ed(), order, path)
      {
        assert order[i..][1..] == order[i + 1..];
        if bufs[order[i]].value.filePath == Some(path) {
          out := SelectBuffer(order[i]);
          return;
        }
        i := i + 1;
      }
      var visit := ResolveVisit(disk, path, fault);
      if visit.VisitRejected? {
        return [OpenFailed(path, visit.error)];
      }
      FreshNameIsFresh(Basename(path), bufs.Keys);
      var id, made := CreateBuffer(Basename(path), VisitedBuf(path, visit));
      var chosen := SelectBuffer(id);
      out := made + [BufferOpened(path, |visit.text|)] + chosen;
    }

    /** Write one buffer through the port; the value is the caller's to keep. */
    method SaveValue(v: BufferValue, id: BufferId, fault: Option<Fault>) returns (value: BufferValue, out: seq<Event>)
      requires id in bufs && v == bufs[id].value
      modifies this`bufs, this`disk
      ensures bufs.Keys == old(bufs).Keys
      ensures (Put(Ed(), id, bufs[id].(value := value)), out) == SessionSpec.Save(old(Ed()), id, fault)
    {
      assert Put(Ed(), id, bufs[id].(value := v)).bufs == bufs;
      if v.filePath.None? {
        return v, [SaveFailed(id, NoFile)];
      }
      var path := v.filePath.value;
      if fault.Some? {
        return v, [SaveFailed(path, PortFault(fault.value))];
      }
      var b := bufs[id];
      disk := disk[path := ToFileText(v.text, b.st.eol)];
      bufs := bufs[id := b.(st := b.st.(savedText := Some(v.text)))];
      value, out := v.(modified := false), [BufferSaved(path)];
      assert bufs[id := bufs[id].(value := value)] == old(bufs)[id := Buf(value, bufs[id].st)];
    }

    /** Save a buffer in place, whichever one the user is looking at. */
    method SaveBuffer(id: BufferId, fault: Option<Fault>) returns (out: seq<Event>)
      requires id in bufs
      modifies this`bufs, this`disk
      ensures (Ed(), out) == SessionSpec.Save(old(Ed()), id, fault)
      ensures old(current in bufs) ==> current in bufs
    {
      hide SessionSpec.Save;
      var value: BufferValue;
      value, out := SaveValue(bufs[id].value, id, fault);
      bufs := bufs[id := bufs[id].(value := value)];
    }

    // ---- Windows ----

    method SplitWindow(speak: bool) returns (out: seq<Event>)
      modifies this`windows
      ensures (Ed(), out) == Split(old(Ed()), speak)
    {
      if frame.Some? && frame.value.1 < (|windows| + 1) * MIN_WINDOW_ROWS + 1 {
        return if speak then [Message(TooSmallToSplit)] else [];
      }
      if focused < |windows| {
        windows := windows[..focused + 1] + [windows[focused]] + windows[focused + 1..];
        return [WindowSplit(|windows|)];
      }
      return [];
    }

    method DisplayBuffer(id: BufferId) returns (out: seq<Event>)
      modifies this`windows
      ensures (Ed(), out) == Display(old(Ed()), id)
    {
      out := [];
      ghost var before := Ed();
      if |windows| == 1 {
        out := SplitWindow(false);
      }
      if |windows| < 2 {
        assert |windows| == 1 ==> windows == before.windows;
        return [];
      }
      var target := (focused + 1) % |windows|;
      windows := windows[target := WindowValue(id, 0, None)];
      out := out + [BufferDisplayed(id, target)];
    }

    /** The current buffer takes the window's stored point and mark, clamped to its text. */
    method ArriveAt(w: WindowValue)
      requires current in bufs
      modifies this`bufs
      ensures Ed() == Arrive(old(Ed()), w) && current in bufs
    {
      hide Clamp;
      var b := bufs[current];
      var n := |b.value.text|;
      bufs := bufs[current := b.(value := b.value.(
                point := Clamp(w.point, n), mark := if w.mark.None? then None else Some(Clamp(w.mark.value, n))))];
    }

    /** `C-x o`: the arriving window's buffer becomes current at its stored, clamped point. */
    method OtherWindow() returns (out: seq<Event>)
      requires current in bufs && forall i :: 0 <= i < |windows| ==> windows[i].buffer in bufs
      modifies this`bufs, this`current, this`focused, this`mru
      ensures (Ed(), out) == Other(old(Ed()))
      ensures old(current in bufs) ==> current in bufs
    {
      hide ToFront, Clamp, BreakChains;
      if |windows| < 2 {
        return [];
      }
      ghost var before := Ed();
      focused := (focused + 1) % |windows|;
      var w := windows[focused];
      out := [WindowFocusChanged(focused, w.buffer)];
      if w.buffer != current {
        bufs := bufs[current := bufs[current].(st := BreakChains(bufs[current].st))];
        current := w.buffer;
        ToFrontIs(mru, w.buffer);
        mru := [w.buffer] + Without(mru, w.buffer);
      }
      ghost var moved := before.(focused := focused);
      assert Ed() == if w.buffer != before.current then Leave(moved).(current := w.buffer, mru := ToFront(before.mru, w.buffer)) else moved;
      ArriveAt(w);
    }

    method DeleteOtherWindows() returns (out: seq<Event>)
      modifies this`windows, this`focused
      ensures (Ed(), out) == DeleteOthers(old(Ed()))
    {
      if |windows| < 2 || focused >= |windows| {
        return [];
      }
      windows := [windows[focused]];
      focused := 0;
      return [WindowsCollapsed];
    }

    // ---- Agent output ----

    /** Append behind the stream; point and windows at its end follow it. */
    method AppendAgentText(v: BufferValue, text: string, target: BufferId) returns (value: BufferValue, out: seq<Event>)
      requires target in bufs && v == bufs[target].value
      modifies this`windows
      ensures (Put(Ed(), target, bufs[target].(value := value)), out) == Append(old(Ed()), target, text)
    {
      assert bufs[target := bufs[target].(value := v)] == bufs;
      if text == "" {
        return v, [];
      }
      var before := |v.text|;
      var after := before + |text|;
      value := v.(text := v.text + text, point := if v.point == before then after else v.point,
                  mark := AdjustInsert(v.mark, before, |text|));
      var ws, f := windows, focused;
      windows := seq(|ws|, i requires 0 <= i < |ws| =>
                     if i != f && ws[i].buffer == target && ws[i].point == before then ws[i].(point := after) else ws[i]);
      out := [AgentTextInserted(text, before, after, target)];
    }

    /** Fold effects through the target's transcript; a chunk that is not text raises
        and leaves the fold alone. */
    method RenderEffects(effects: seq<Effect>, target: BufferId) returns (ok: bool, text: string)
      modifies this`folds
      ensures ok <==> AllRenderable(effects)
      ensures ok ==> text == Rendered(wording, FoldOf(old(Ed()), target), effects)
                     && folds == old(folds)[target := FoldAfter(wording, FoldOf(old(Ed()), target), effects)]
      ensures !ok ==> folds == old(folds)
    {
      hide Advance;
      var fold := if target in folds then folds[target] else FRESH_FOLD;
      text := "";
      var i := 0;
      while i < |effects|
        invariant 0 <= i <= |effects|
        invariant forall k :: 0 <= k < i ==> Renderable(effects[k])
        invariant text + Rendered(wording, fold, effects[i..]) == Rendered(wording, FoldOf(old(Ed()), target), effects)
        invariant FoldAfter(wording, fold, effects[i..]) == FoldAfter(wording, FoldOf(old(Ed()), target), effects)
      {
        assert effects[i..][1..] == effects[i + 1..];
        if !Renderable(effects[i]) {
          return false, "";
        }
        var step := Advance(wording, fold, effects[i]);
        fold, text := step.0, text + step.1;
        i := i + 1;
      }
      folds := folds[target := fold];
      ok := true;
    }

    // ---- Prompts ----

    method OpenPrompt(k: PromptKind, l: Label) returns (out: seq<Event>)
      modifies this`input, this`prompt, this`kind
      ensures (Pr(), out) == OpenText(old(Pr()), k, l)
    {
      input, prompt, kind := Some(""), l, Some(k);
      out := [MinibufferOpened(prompt)];
    }

    method CloseText()
      modifies this`input, this`prompt, this`kind
      ensures Pr() == ClosePrompt(old(Pr()))
    {
      input, prompt, kind := None, NoLabel, None;
    }

    method PresentChoice(request: Permission) returns (out: seq<Event>)
      modifies this`choice, this`input, this`prompt
      ensures (Pr(), out) == OpenChoice(old(Pr()), request)
    {
      choice, input, prompt := Some(request), Some(""), PermissionLabel(request);
      out := [MinibufferOpened(prompt)];
    }

    method DrainQueue() returns (out: seq<Event>)
      modifies this`choice, this`input, this`prompt, this`queue
      ensures (Pr(), out) == SessionSpec.Drain(old(Pr()))
    {
      out := [];
      if queue != [] {
        var next := queue[0];
        queue := queue[1..];
        out := PresentChoice(next);
      }
    }

    /** Record the decision, close its prompt and present the next request. */
    method DecideChoice(d: Decision) returns (out: seq<Event>)
      requires choice.Some?
      modifies this`choice, this`input, this`prompt, this`queue
      ensures (Pr(), out) == Decide(old(Pr()), old(choice).value, d)
    {
      var id := choice.value.id;
      choice, input, prompt := None, None, NoLabel;
      var drained := DrainQueue();
      out := [PermissionDecided(id, d)] + drained;
    }

    // ---- The exit sequence ----

    method AdvanceExit() returns (out: seq<Event>)
      modifies this`input, this`prompt, this`kind
      ensures (Pr(), out) == SessionSpec.AdvanceExit(Ed(), old(Pr()))
    {
      if exitPending != [] {
        out := OpenPrompt(SaveKind, SaveOffer(exitPending[0].1));
      } else if exists id :: id in bufs && bufs[id].value.modified {
        out := OpenPrompt(ExitAnywayKind, ExitGate);
      } else {
        out := [EditorExited];
      }
    }

    method CollectAtRisk() returns (pending: seq<(BufferId, string)>)
      requires forall i :: 0 <= i < |order| ==> order[i] in bufs
      ensures pending == AtRisk(Ed(), order)
    {
      pending := [];
      var i := 0;
      while i < |order|
        invariant 0 <= i <= |order|
        invariant pending + AtRisk(Ed(), order[i..]) == AtRisk(Ed(), order)
      {
        assert order[i..][1..] == order[i + 1..];
        var v := bufs[order[i]].value;
        if v.modified && v.filePath.Some? {
          pending := pending + [(order[i], v.filePath.value)];
        }
        i := i + 1;
      }
      assert pending + [] == pending;
    }

    /** Collect what is at risk, in creation order, then ask or exit. */
    method BeginExit() returns (out: seq<Event>)
      requires forall i :: 0 <= i < |order| ==> order[i] in bufs
      modifies this`input, this`prompt, this`kind, this`exitPending
      ensures (Pr(), out) == SessionSpec.AdvanceExit(Ed(), old(Pr()).(exitPending := AtRisk(Ed(), order)))
    {
      hide SessionSpec.AdvanceExit, AtRisk;
      exitPending := CollectAtRisk();
      out := AdvanceExit();
    }

    /** The answer to one save offer, and the next question. */
    method AnswerOffer(save: bool, fault: Option<Fault>) returns (out: seq<Event>)
      requires exitPending != [] && exitPending[0].0 in bufs
      modifies this`bufs, this`disk, this`input, this`prompt, this`kind, this`exitPending
      ensures var id := old(exitPending)[0].0;
        var saved := if save then SessionSpec.Save(old(Ed()), id, fault) else (old(Ed()), [SaveDeclined(id)]);
        var next := SessionSpec.AdvanceExit(saved.0, ClosePrompt(old(Pr()).(exitPending := old(exitPending)[1..])));
        Ed() == saved.0 && Pr() == next.0 && out == saved.1 + next.1
      ensures old(current in bufs) ==> current in bufs
    {
      hide SessionSpec.AdvanceExit, SessionSpec.Save, Put, ClosePrompt;
      var id := exitPending[0].0;
      ghost var pr := Pr().(exitPending := exitPending[1..]);
      ghost var saved := if save then SessionSpec.Save(Ed(), id, fault) else (Ed(), [SaveDeclined(id)]);
      exitPending := exitPending[1..];
      if save {
        out := SaveBuffer(id, fault);
      } else {
        out := [SaveDeclined(id)];
      }
      assert Pr() == pr && Ed() == saved.0 && out == saved.1;
      CloseText();
      assert Pr() == ClosePrompt(pr) && Ed() == saved.0;
      var next := AdvanceExit();
      out := out + next;
    }

    /** One key at an exit prompt. */
    method ExitPromptKey(key: string, fault: Option<Fault>) returns (out: seq<Event>)
      requires forall i :: 0 <= i < |exitPending| ==> exitPending[i].0 in bufs
      modifies this`bufs, this`disk, this`input, this`prompt, this`kind, this`exitPending, this`choice, this`queue
      ensures (View(), out) == ExitKey(old(View()), key, fault)
      ensures old(current in bufs) ==> current in bufs
    {
      hide SessionSpec.AdvanceExit, SessionSpec.Save, SessionSpec.Drain;
      if key != "y" && key != "n" {
        return [Message(AnswerYesOrNo)];
      }
      if kind == Some(ExitAnywayKind) {
        CloseText();
        if key == "y" {
          return [EditorExited];
        }
        var drained := DrainQueue();
        return [ExitRefused] + drained;
      }
      if exitPending == [] {
        return [];
      }
      out := AnswerOffer(key == "y", fault);
    }

    // ---- The minibuffer ----

    /** A key while a prompt is open; a request whose option kinds cannot be looked up raises. */
    method MinibufferKey(key: string, fault: Option<Fault>) returns (ok: bool, out: seq<Event>)
      requires forall i :: 0 <= i < |exitPending| ==> exitPending[i].0 in bufs
      modifies this`bufs, this`disk, this`input, this`prompt, this`kind, this`exitPending, this`choice, this`queue
      ensures Outcome(View(), out, !ok) == InputKey(old(View()), key, fault)
      ensures old(current in bufs) ==> current in bufs
    {
      hide ExitKey, KeyDecision, Decide;
      ok, out := true, [];
      if choice.Some? {
        var answer := KeyDecision(choice.value, key);
        if answer.BadKind? {
          ok := false;
        } else if answer.Answer? {
          out := DecideChoice(answer.decision);
        }
      } else if kind == Some(SaveKind) || kind == Some(ExitAnywayKind) {
        out := ExitPromptKey(key, fault);
      } else if input.Some? {
        input := Some(input.value + key);
      }
    }

    method MinibufferErase() returns (out: seq<Event>)
      modifies this`input
      ensures (View(), out) == Backspace(old(View()))
    {
      out := [];
      if choice.Some? {
        // No text to delete while a choice is open.
      } else if kind == Some(SaveKind) || kind == Some(ExitAnywayKind) {
        out := [Message(AnswerYesOrNo)];
      } else if input.Some? && input.value != "" {
        input := Some(input.value[..|input.value| - 1]);
      }
    }

    method MinibufferQuit() returns (out: seq<Event>)
      modifies this`input, this`prompt, this`kind, this`exitPending, this`choice, this`queue
      ensures (View(), out) == Abort(old(View()))
    {
      hide SessionSpec.Drain, Decide;
      out := [];
      if choice.Some? {
        out := DecideChoice(Cancelled);
      } else if kind == Some(SaveKind) || kind == Some(ExitAnywayKind) || input.Some? {
        if kind == Some(SaveKind) || kind == Some(ExitAnywayKind) { exitPending := []; }
        CloseText();
        var drained := DrainQueue();
        out := [MinibufferAborted] + drained;
      }
    }

    /** What the accepted text of a text prompt does. */
    method TakeInput(purpose: Option<PromptKind>, text: string, fault: Option<Fault>) returns (out: seq<Event>)
      requires current in bufs && forall i :: 0 <= i < |order| ==> order[i] in bufs
      modifies this`bufs, this`order, this`current, this`mru, this`windows
      ensures (Ed(), out) == Accepted(old(Ed()), purpose, text, fault) && current in bufs
    {
      hide SessionSpec.OpenFile, SessionSpec.SwitchTo;
      out := [];
      if purpose == Some(AgentKind) {
        if text != "" { out := [AgentPromptSubmitted(text)]; }
      } else if purpose == Some(SwitchKind) {
        out := SwitchTo(if text != "" then text else if |mru| > 1 then mru[1] else "");
      } else if text != "" {
        out := OpenFile(text, fault);
      }
    }

    /** Close the prompt, act on its text, and present a request that waited. */
    method AcceptText(fault: Option<Fault>) returns (out: seq<Event>)
      requires input.Some? && current in bufs && forall i :: 0 <= i < |order| ==> order[i] in bufs
      modifies this`bufs, this`order, this`current, this`mru, this`windows,
               this`input, this`prompt, this`kind, this`choice, this`queue
      ensures var done := Accepted(old(Ed()), old(kind), old(input).value, fault);
        var drained := SessionSpec.Drain(ClosePrompt(old(Pr())));
        Ed() == done.0 && Pr() == drained.0 && out == done.1 + drained.1 && current in bufs
    {
      hide SessionSpec.Drain, Accepted, ClosePrompt;
      ghost var ed, pr := Ed(), Pr();
      var text, purpose := input.value, kind;
      CloseText();
      assert Ed() == ed && Pr() == ClosePrompt(pr);
      out := TakeInput(purpose, text, fault);
      assert Pr() == ClosePrompt(pr);
      ghost var done := Ed();
      var drained := DrainQueue();
      assert Ed() == done;
      out := out + drained;
    }

    method MinibufferReturn(fault: Option<Fault>) returns (out: seq<Event>)
      requires current in bufs && forall i :: 0 <= i < |order| ==> order[i] in bufs
      modifies this`bufs, this`order, this`current, this`mru, this`windows,
               this`input, this`prompt, this`kind, this`choice, this`queue
      ensures (View(), out) == Accept(old(View()), fault)
      ensures old(current in bufs) ==> current in bufs
    {
      hide SessionSpec.Drain, Decide, AcceptDecision, Accepted, ClosePrompt;
      out := [];
      if choice.Some? {
        out := DecideChoice(AcceptDecision(choice.value));
      } else if kind == Some(SaveKind) || kind == Some(ExitAnywayKind) {
        out := [Message(AnswerYesOrNo)];
      } else if input.Some? {
        out := AcceptText(fault);
      }
    }

    /** What the agent is waiting for was answered elsewhere: clear it from the screen. */
    method ClearPermissions() returns (out: seq<Event>)
      modifies this`input, this`prompt, this`choice, this`queue
      ensures (Pr(), out) == Cleared(old(Pr()))
    {
      queue := [];
      if choice.Some? {
        choice, input, prompt := None, None, NoLabel;
        return [MinibufferAborted];
      }
      return [];
    }

    method AskPermission(request: Permission) returns (out: seq<Event>)
      modifies this`input, this`prompt, this`choice, this`queue
      ensures (Pr(), out) == Arrived(old(Pr()), request)
    {
      out := [];
      if input.Some? {
        queue := queue + [request];
      } else {
        out := PresentChoice(request);
      }
    }

    // ---- Dispatch ----

    /** The arms of an open prompt. */
    method MinibufferArm(c: Command, fault: Option<Fault>) returns (ok: bool, out: seq<Event>)
      requires SessionOk(View()) && (c.MinibufferInput? || c.MinibufferBackspace? || c.MinibufferAccept? || c.MinibufferAbort?)
      modifies this`bufs, this`order, this`current, this`mru, this`windows, this`disk, this`input,
               this`prompt, this`kind, this`exitPending, this`choice, this`queue
      ensures current in bufs
      ensures Outcome(View(), out, !ok) == Arm(old(View()), c, fault)
    {
      hide Arm, SessionOk, InputKey, Backspace, Abort, Accept;
      ValidFacts(View());
      ArmKeys(View(), c, fault);
      ok, out := true, [];
      match c {
        case MinibufferInput(key) => ok, out := MinibufferKey(key, fault);
        case MinibufferBackspace => out := MinibufferErase();
        case MinibufferAbort => out := MinibufferQuit();
        case MinibufferAccept => out := MinibufferReturn(fault);
      }
    }

    /** The arms that lay out windows. */
    method LayoutArm(c: Command, fault: Option<Fault>) returns (ok: bool, out: seq<Event>)
      requires SessionOk(View())
      requires c.SplitWindow? || c.OtherWindow? || c.DeleteOtherWindows? || c.ResizeFrame? || c.DisplayBuffer?
      modifies this`bufs, this`current, this`focused, this`mru, this`windows, this`frame
      ensures current in bufs
      ensures Outcome(View(), out, !ok) == Arm(old(View()), c, fault)
    {
      hide Arm, SessionOk, Split, Display, Other, DeleteOthers;
      ValidFacts(View());
      ArmLays(View(), c, fault);
      ok, out := true, [];
      match c {
        case SplitWindow => out := SplitWindow(true);
        case OtherWindow => out := OtherWindow();
        case DeleteOtherWindows => out := DeleteOtherWindows();
        case ResizeFrame(width, height) =>
          frame := Some((width, height));
          out := [FrameResized(width, height)];
        case DisplayBuffer(id) =>
          if id !in bufs { ok := false; } else { out := DisplayBuffer(id); }
      }
    }

    /** The arms that open a prompt of the user's. */
    method OpeningArm(c: Command) returns (out: seq<Event>)
      requires SessionOk(View()) && (c.ExitEditor? || c.FindFile? || c.PromptAgent? || c.SwitchBuffer?)
      modifies this`input, this`prompt, this`kind, this`exitPending
      ensures Outcome(View(), out, false) == Arm(old(View()), c, None)
    {
      hide SessionOk, AtRisk, SessionSpec.AdvanceExit, OpenText, Arm;
      ValidFacts(View());
      ArmPrompts(View(), c);
      match c {
        case ExitEditor => out := BeginExit();
        case FindFile => out := OpenPrompt(FindFileKind, FindFileLabel);
        case PromptAgent => out := OpenPrompt(AgentKind, AgentLabel);
        case SwitchBuffer => out := OpenPrompt(SwitchKind, SwitchLabel);
      }
    }

    /** The arms that present or clear the agent's requests. */
    method PermissionArm(c: Command) returns (out: seq<Event>)
      requires c.PromptPermission? || c.AbortPendingPermissions?
      modifies this`input, this`prompt, this`choice, this`queue
      ensures Outcome(View(), out, false) == Arm(old(View()), c, None)
    {
      hide Arrived, Cleared, Arm;
      ArmPrompts(View(), c);
      if c.PromptPermission? { out := AskPermission(c.request); } else { out := ClearPermissions(); }
    }

    /** The arms that act on no buffer's text. */
    method PlainArm(c: Command, fault: Option<Fault>) returns (ok: bool, value: BufferValue, out: seq<Event>)
      requires SessionOk(View()) && Plain(c)
      modifies this`bufs, this`order, this`current, this`mru, this`windows, this`focused, this`frame,
               this`disk, this`input, this`prompt, this`kind, this`exitPending, this`choice,
               this`queue
      ensures var r := Arm(old(View()), c, fault);
        && r.raised == !ok && out == r.events && current in bufs && (!ok ==> value == bufs[current].value && out == [])
        && View().(ed := Put(Ed(), current, bufs[current].(value := value))) == r.session
    {
      hide SessionOk, InputKey, Backspace, Abort, Accept, SessionSpec.Save, Layout, Prompting;
      ValidFacts(View());
      ok, out := true, [];
      if c.SaveBuffer? {
        value, out := SaveValue(bufs[current].value, current, fault);
        return;
      } else if c.DeliverProcessOutput? {
        out := [ProcessOutputRecorded];
      } else if c.MinibufferInput? || c.MinibufferBackspace? || c.MinibufferAccept? || c.MinibufferAbort? {
        ok, out := MinibufferArm(c, fault);
      } else if c.SplitWindow? || c.OtherWindow? || c.DeleteOtherWindows? || c.ResizeFrame? || c.DisplayBuffer? {
        ok, out := LayoutArm(c, fault);
      } else if c.PromptPermission? || c.AbortPendingPermissions? {
        out := PermissionArm(c);
      } else {
        out := OpeningArm(c);
      }
      value := bufs[current].value;
      PutSame(Ed(), current);
      ArmRaisesClean(old(View()), c, fault);
    }

    /** A delivery names its buffer and a creation mints one; every other command
        follows focus. A delivery to anything but a generated buffer raises. */
    method PinnedTarget(c: Command) returns (ok: bool, pinned: Option<BufferId>, out: seq<Event>)
      modifies this`bufs, this`order, this`agents, this`generated
      ensures ok <==> !Nameless(old(Ed()), c) && (c.DeliverSessionEffects? || c.InsertAgentText? ==> DeliveryTarget(old(Ed()), c.target))
      ensures c.DeliverSessionEffects? || c.InsertAgentText? ==> View() == old(View()) && out == [] && pinned == Some(c.target)
      ensures c.CreateAgentBuffer? || c.CreateGeneratedBuffer? ==>
                if ok then pinned.Some? && (Ed(), pinned.value, out) == Minted(old(Ed()), c) else Ed() == old(Ed()) && out == []
      ensures !c.DeliverSessionEffects? && !c.InsertAgentText? && !c.CreateAgentBuffer? && !c.CreateGeneratedBuffer? ==>
                pinned.None? && View() == old(View()) && out == []
    {
      hide FreshName;
      ok, pinned, out := true, None, [];
      match c {
        case DeliverSessionEffects(_, target) =>
          ok, pinned := target in bufs && bufs[target].st.kind == Generated, Some(target);
        case InsertAgentText(_, target) =>
          ok, pinned := target in bufs && bufs[target].st.kind == Generated, Some(target);
        case CreateGeneratedBuffer(name) =>
          if name in generated {
            pinned := Some(generated[name]);
          } else if name == "" {
            ok := false;
          } else {
            var id;
            id, out := CreateBuffer(name, GENERATED_BLANK);
            generated, pinned := generated[name := id], Some(id);
          }
        case CreateAgentBuffer(sid) =>
          if sid in agents {
            pinned := Some(agents[sid]);
          } else {
            var id;
            id, out := CreateBuffer(AGENT_NAME, GENERATED_BLANK);
            agents, pinned := agents[sid := id], Some(id);
          }
        case _ =>
      }
    }

    /** The end of every dispatch: last-command state and the undo stack, then the
        value and the focused window. */
    method Commit(c: Command, pinned: Option<BufferId>, before: BufferValue, value: BufferValue, out: seq<Event>)
      requires (if pinned.Some? then pinned.value else current) in bufs
      requires if c.Edit? then Telling(c.edit, out) else MakeGroup(before, out).None?
      modifies this`bufs, this`windows
      ensures Ed() == Committed(old(Ed()), c, pinned, before, value, out)
    {
      hide MakeGroup, Acts, NextState, Telling;
      var id := if pinned.Some? then pinned.value else current;
      var st := LastCommand(c, bufs[id].st, before, out);
      bufs := bufs[id := Buf(value, st)];
      if id == current {
        var ws, f := windows, focused;
        windows := seq(|ws|, i requires 0 <= i < |ws| => if i == f then WindowValue(ws[i].buffer, value.point, value.mark) else ws[i]);
        assert windows == if f < |ws| then ws[f := WindowValue(ws[f].buffer, value.point, value.mark)] else ws;
      }
    }

    method LastCommand(c: Command, was: BufferState, before: BufferValue, out: seq<Event>) returns (st: BufferState)
      requires if c.Edit? then Telling(c.edit, out) else MakeGroup(before, out).None?
      ensures st == NextState(c, was, before, out)
    {
      hide MakeGroup, Acts, HasKill, HasYank, HasPop;
      st := was;
      var intervened := UserIssued(c) && Acts(out);
      if c == Edit(EditCommand.KillLine) {
        if HasKill(out) { st := st.(lastWasKill := true); }
      } else if intervened {
        st := st.(lastWasKill := false);
      }
      if c == Edit(EditCommand.Yank) {
        st := st.(yankActive := HasYank(out));
      } else if c == Edit(EditCommand.YankPop) {
        st := st.(yankActive := HasPop(out));
      } else if intervened {
        st := st.(yankActive := false);
      }
      if c == Edit(EditCommand.Undo) {
        if intervened { st := st.(descending := true); }
      } else {
        var group := MakeGroup(before, out);
        if group.Some? {
          var history := st.history + [group.value];
          if |history| > UNDO_CAPACITY { history := history[|history| - UNDO_CAPACITY..]; }
          st := st.(history := history, redo := []);
        }
        if intervened { st := st.(descending := false); }
      }
    }

    /** A delivery writes into the buffer it names. */
    method DeliverArm(c: Command) returns (ok: bool, value: BufferValue, out: seq<Event>)
      requires (c.DeliverSessionEffects? || c.InsertAgentText?) && c.target in bufs
      modifies this`folds, this`windows
      ensures Pr() == old(Pr()) && bufs == old(bufs) && current == old(current)
      ensures ok <==> (c.DeliverSessionEffects? ==> AllRenderable(c.effects))
      ensures !ok ==> View() == old(View()) && out == []
      ensures ok ==> (Put(Ed(), c.target, bufs[c.target].(value := value)), out) == Delivered(old(Ed()), c)
    {
      hide Append, Rendered, FoldAfter, AllRenderable;
      var v := bufs[c.target].value;
      ok, value, out := true, v, [];
      if c.InsertAgentText? {
        value, out := AppendAgentText(v, c.agentText, c.target);
      } else {
        var rendered;
        ok, rendered := RenderEffects(c.effects, c.target);
        if ok {
          value, out := AppendAgentText(v, rendered, c.target);
          out := [AgentTranscriptUpdated(c.effects, rendered, c.target)] + out;
        }
      }
    }

    /** A delivery writes to the buffer it names; a creation mints one and edits nothing. */
    method PeerArm(c: Command, fault: Option<Fault>)
      returns (ok: bool, pinned: Option<BufferId>, before: BufferValue, value: BufferValue, out: seq<Event>)
      requires SessionOk(View()) && !c.Edit? && !Plain(c)
      modifies this`bufs, this`order, this`agents, this`generated, this`folds, this`windows
      ensures Ready(old(View()), c, fault, View(), ok, pinned, before, value, out)
    {
      hide SessionOk, Delivered, Minted, DeliveryTarget, Ready;
      ghost var s := View();
      ok, pinned, out := PinnedTarget(c);
      before, value := BLANK.value, BLANK.value;
      if c.CreateAgentBuffer? || c.CreateGeneratedBuffer? {
        if !ok {
          MintFails(s, c, fault, pinned, before);
          return;
        }
        MintSettles(s, c, fault);
        before := bufs[pinned.value].value;
        value := before;
        MintIsReady(s, View(), c, fault);
        return;
      }
      if !ok {
        DeliveryFails(s, c, fault, before);
        return;
      }
      DeliverySettles(s, c, fault);
      before := bufs[c.target].value;
      ok, value, out := DeliverArm(c);
      if ok {
        DeliveryIsReady(s, View(), c, fault, before, value);
      } else {
        value := before;
        DeliveryFails(s, c, fault, before);
      }
    }

    method EditAct(e: EditCommand, fault: Option<Fault>) returns (before: BufferValue, value: BufferValue, out: seq<Event>)
      requires SessionOk(View()) && input.None?
      modifies this`bufs, this`ring
      ensures Ready(old(View()), Edit(e), fault, View(), true, None, before, value, out)
    {
      hide SessionOk, Apply, LocalOk, Ready;
      ghost var s := View();
      LocalFacts(s);
      before := bufs[current].value;
      value, out := EditArm(e, before);
      EditIsReady(s, View(), e, fault);
    }

    /** Resolve the target and run the command's arm, up to the commit. */
    method Act(c: Command, fault: Option<Fault>)
      returns (ok: bool, pinned: Option<BufferId>, before: BufferValue, value: BufferValue, out: seq<Event>)
      requires SessionOk(View()) && !(input.Some? && !PassesGate(c))
      modifies this
      ensures transcript == old(transcript) && origin == old(origin) && history == old(history)
      ensures Ready(old(View()), c, fault, View(), ok, pinned, before, value, out)
    {
      hide SessionOk, Arm, Ready;
      ghost var s := View();
      ok, pinned := true, None;
      if c.Edit? {
        before, value, out := EditAct(c.edit, fault);
      } else if Plain(c) {
        ValidFacts(s);
        before := bufs[current].value;
        ok, value, out := PlainArm(c, fault);
        PlainIsReady(s, c, fault, View(), ok, before, value);
      } else {
        ok, pinned, before, value, out := PeerArm(c, fault);
      }
    }

    /** Run the arm of `c` and commit what it leaves; `raised` when an exception leaves. */
    method Execute(c: Command, fault: Option<Fault>) returns (raised: bool)
      requires SessionOk(View())
      modifies this
      ensures origin == old(origin) && history == old(history)
      ensures var r := Step(old(View()), c, fault);
        View() == r.session && transcript == old(transcript) + r.events && raised == r.raised
    {
      hide SessionOk, Committed, Step, Grows, PassesGate, Ready;
      ghost var s := View();
      assert transcript + [] == transcript;
      if input.Some? && !PassesGate(c) {
        GateHolds(s, c, fault);
        return false;
      }
      var ok, pinned, before, value, out := Act(c, fault);
      ReadyFacts(s, c, fault, View(), ok, pinned, before, value, out);
      if !ok {
        return true;
      }
      Commit(c, pinned, before, value, out);
      transcript := transcript + out;
      return false;
    }

    /** Dispatch `c`: what the port answers is `fault`; `raised` when an exception
        leaves. The new state is that of the specification, on every path. */
    method Dispatch(c: Command, fault: Option<Fault>) returns (raised: bool)
      requires Valid()
      modifies this
      ensures Valid() && origin == old(origin) && history == old(history) + [Input(c, fault)]
      ensures var r := Step(old(View()), c, fault);
        View() == r.session && transcript == old(transcript) + r.events && raised == r.raised
    {
      hide SessionOk, Step, Recounted;
      ghost var s, i := View(), Input(c, fault);
      StepKeepsSessionOk(s, c, fault);
      OneMoreStep(origin, history, s, transcript, i);
      raised := Execute(c, fault);
      history := history + [i];
    }
  }

  /** A session and its transcript are those of a run from a good start. */
  ghost predicate Recounted(origin: Session, history: seq<Input>, now: Session, transcript: seq<Event>) {
    SessionOk(origin) && now == Run(origin, history) && transcript == Recorded(origin, history)
  }

  lemma {:induction false} RunExtends(s: Session, inputs: seq<Input>, i: Input)
    ensures Run(s, inputs + [i]) == StepInput(Run(s, inputs), i).session
    ensures Recorded(s, inputs + [i]) == Recorded(s, inputs) + StepInput(Run(s, inputs), i).events
    decreases |inputs|
  {
    hide StepInput;
    if inputs == [] {
      assert [] + [i] == [i] && [i][1..] == [];
      assert StepInput(s, i).events + [] == StepInput(s, i).events;
      assert [] + StepInput(s, i).events == StepInput(s, i).events;
    } else {
      assert (inputs + [i])[0] == inputs[0] && (inputs + [i])[1..] == inputs[1..] + [i];
      RunExtends(StepInput(s, inputs[0]).session, inputs[1..], i);
      var first, rest := StepInput(s, inputs[0]), StepInput(Run(s, inputs), i).events;
      assert first.events + (Recorded(first.session, inputs[1..]) + rest) == first.events + Recorded(first.session, inputs[1..]) + rest;
    }
  }

  lemma OneMoreStep(origin: Session, history: seq<Input>, now: Session, transcript: seq<Event>, i: Input)
    requires Recounted(origin, history, now, transcript)
    ensures var r := Step(now, i.command, i.fault);
      Recounted(origin, history + [i], r.session, transcript + r.events)
  {
    hide Step, SessionOk, Run, Recorded;
    RunExtends(origin, history, i);
  }

  /** The object's own transcript, folded from where the session started, tells its
      texts, buffers, current buffer, window count and focus. */
  lemma TranscriptTellsAll(s: EditorSession)
    requires s.Valid()
    ensures EventSourcing.FoldAll(
              EventSourcing.Replay(EventSourcing.ShapeOf(s.origin.ed), EventSourcing.ReadsOfRun(s.origin, s.history)), s.transcript)
            == EventSourcing.Replay(EventSourcing.ShapeOf(s.Ed()), [])
  {
    hide SessionOk, Run, Recorded, EventSourcing.FoldAll, EventSourcing.ShapeOf, EventSourcing.ReadsOfRun;
    EventSourcing.TranscriptReproducesRun(s.origin, s.history);
  }

  // ---- Dispatch, arm by arm ----

  lemma ArmPrompts(s: Session, c: Command)
    requires c.ExitEditor? || c.FindFile? || c.PromptAgent? || c.SwitchBuffer? || c.PromptPermission? || c.AbortPendingPermissions?
    ensures var r := Prompting(s.ed, s.pr, c); Arm(s, c, None) == Outcome(s.(pr := r.0), r.1, false)
  {
    hide Prompting;
  }

  lemma ArmLays(s: Session, c: Command, fault: Option<Fault>)
    requires c.SplitWindow? || c.OtherWindow? || c.DeleteOtherWindows? || c.ResizeFrame? || c.DisplayBuffer?
    ensures var r := Layout(s.ed, c);
      Arm(s, c, fault) == if c.DisplayBuffer? && c.target !in s.ed.bufs then Outcome(s, [], true) else Outcome(s.(ed := r.0), r.1, false)
  {
    hide Layout;
  }

  lemma ArmKeys(s: Session, c: Command, fault: Option<Fault>)
    requires c.MinibufferInput? || c.MinibufferBackspace? || c.MinibufferAccept? || c.MinibufferAbort?
    ensures Arm(s, c, fault) == match c
              case MinibufferInput(key) => InputKey(s, key, fault)
              case MinibufferBackspace => var r := Backspace(s); Outcome(r.0, r.1, false)
              case MinibufferAccept => var r := Accept(s, fault); Outcome(r.0, r.1, false)
              case MinibufferAbort => var r := Abort(s); Outcome(r.0, r.1, false)
  {
    hide InputKey, Backspace, Accept, Abort;
  }

  lemma ValidFacts(s: Session)
    requires SessionOk(s)
    ensures s.ed.current in s.ed.bufs && forall i :: 0 <= i < |s.ed.order| ==> s.ed.order[i] in s.ed.bufs
    ensures forall i :: 0 <= i < |s.ed.windows| ==> s.ed.windows[i].buffer in s.ed.bufs
    ensures forall i :: 0 <= i < |s.pr.exitPending| ==> s.pr.exitPending[i].0 in s.ed.bufs
    ensures forall k :: k in s.ed.agents ==> s.ed.agents[k] in s.ed.bufs
    ensures forall k :: k in s.ed.generated ==> s.ed.generated[k] in s.ed.bufs
  {
  }

  lemma PutSame(ed: Editor, id: BufferId)
    requires id in ed.bufs
    ensures Put(ed, id, ed.bufs[id].(value := ed.bufs[id].value)) == ed
  {
    assert ed.bufs[id := ed.bufs[id]] == ed.bufs;
  }

  /** An edit's events name what it did. */
  predicate Telling(e: EditCommand, events: seq<Event>) {
    && (e.KillLine? ==> (HasKill(events) <==> Acts(events)))
    && (e.Yank? ==> (HasYank(events) <==> Acts(events)))
    && (e.YankPop? ==> (HasPop(events) <==> Acts(events)))
  }

  function NextState(c: Command, st: BufferState, before: BufferValue, events: seq<Event>): BufferState {
    if c.Edit? then Bookkeep(c.edit, before, st, events)
    else if UserIssued(c) && Acts(events) then BreakChains(st) else st
  }

  function Committed(ed: Editor, c: Command, pinned: Option<BufferId>, before: BufferValue, value: BufferValue,
                     events: seq<Event>): Editor {
    var id := if pinned.Some? then pinned.value else ed.current;
    var st := BufOf(ed, id).st;
    var done := Put(ed, id, Buf(value, NextState(c, st, before, events)));
    if id == ed.current then SyncFocused(done) else done
  }

  lemma LocalFacts(s: Session)
    requires SessionOk(s)
    ensures s.ed.current in s.ed.bufs
    ensures LocalOk(Local(s.ed.bufs[s.ed.current].value, s.ed.bufs[s.ed.current].st, s.ed.ring))
  {
  }

  lemma EditTells(l: Local, e: EditCommand)
    ensures Telling(e, Apply(l, e).events)
  {
    EditEvents(l, e);
  }

  lemma EditSettles(s: Session, e: EditCommand, fault: Option<Fault>)
    requires s.ed.current in s.ed.bufs && s.pr.input.None?
    ensures var b := s.ed.bufs[s.ed.current]; var r := Apply(Local(b.value, b.st, s.ed.ring), e);
      Step(s, Edit(e), fault) == Outcome(
        s.(ed := Committed(Put(s.ed, s.ed.current, Buf(b.value, r.local.st)).(ring := r.local.ring), Edit(e), None, b.value,
                           r.local.value, r.events)),
        r.events, false)
  {
    hide Apply, Bookkeep;
    var b := s.ed.bufs[s.ed.current];
    var r := Apply(Local(b.value, b.st, s.ed.ring), e);
    var st := Bookkeep(e, b.value, r.local.st, r.events);
    assert s.ed.bufs[s.ed.current := Buf(b.value, r.local.st)][s.ed.current := Buf(r.local.value, st)]
           == s.ed.bufs[s.ed.current := Buf(r.local.value, st)];
  }

  /** Only edits record text changes. */
  predicate ChangesText(e: Event) {
    e.TextInserted? || e.TextKilled? || e.TextYanked? || e.TextYankPopped? || e.RegionKilled?
  }

  predicate NoText(events: seq<Event>) { forall i :: 0 <= i < |events| ==> !ChangesText(events[i]) }

  lemma {:induction false} NoTextNoGroup(v: BufferValue, events: seq<Event>)
    requires NoText(events)
    ensures MakeGroup(v, events).None?
    decreases |events|
  {
    if events != [] {
      assert !ChangesText(events[0]);
      NoTextNoGroup(v, events[1..]);
    }
  }

  lemma PlainHasNoText(s: Session, c: Command, fault: Option<Fault>)
    requires Plain(c)
    ensures NoText(Arm(s, c, fault).events)
  {
    hide InputKey, Backspace, Accept, Abort, Layout, Prompting;
    if c.MinibufferInput? { InputHasNoText(s, c.key, fault); }
    else if c.MinibufferBackspace? || c.MinibufferAccept? || c.MinibufferAbort? { AcceptHasNoText(s, fault); }
    else { LayoutHasNoText(s.ed, s.pr, c); }
  }

  lemma InputHasNoText(s: Session, key: string, fault: Option<Fault>)
    ensures NoText(InputKey(s, key, fault).events)
  {
    hide KeyDecision, AnyModified, Put;
  }

  lemma AcceptHasNoText(s: Session, fault: Option<Fault>)
    ensures NoText(Accept(s, fault).1) && NoText(Backspace(s).1) && NoText(Abort(s).1)
  {
    hide Accepted, AcceptDecision;
    AcceptedHasNoText(s.ed, s.pr.kind, if s.pr.input.Some? then s.pr.input.value else "", fault);
  }

  lemma OpenHasNoText(ed: Editor, path: string, fault: Option<Fault>)
    ensures NoText(SessionSpec.OpenFile(ed, path, fault).1)
  {
    hide FreshName, Basename, ResolveVisit, Visiting, ToFront, BreakChains;
  }

  lemma SwitchHasNoText(ed: Editor, name: string)
    ensures NoText(SessionSpec.SwitchTo(ed, name).1)
  {
    hide FreshName, ToFront, BreakChains;
  }

  lemma AcceptedHasNoText(ed: Editor, kind: Option<PromptKind>, text: string, fault: Option<Fault>)
    ensures NoText(Accepted(ed, kind, text, fault).1)
  {
    hide SessionSpec.OpenFile, SessionSpec.SwitchTo;
    OpenHasNoText(ed, text, fault);
    SwitchHasNoText(ed, if text != "" then text else if |ed.mru| > 1 then ed.mru[1] else "");
  }

  lemma LayoutHasNoText(ed: Editor, pr: Prompts, c: Command)
    ensures NoText(Layout(ed, c).1) && NoText(Prompting(ed, pr, c).1)
  {
    hide AtRisk, AnyModified, Arrive, Leave, ToFront;
  }

  lemma CommitIsSettle(ed: Editor, c: Command, before: BufferValue, value: BufferValue, events: seq<Event>)
    requires !c.Edit? && ed.current in ed.bufs
    ensures Committed(ed, c, None, before, value, events)
            == Settle(Put(ed, ed.current, ed.bufs[ed.current].(value := value)), c, events)
  {
    var b := ed.bufs[ed.current];
    var st := NextState(c, b.st, before, events);
    assert ed.bufs[ed.current := b.(value := value)][ed.current := Buf(value, st)] == ed.bufs[ed.current := Buf(value, st)];
  }

  lemma PlainSettles(s: Session, c: Command, fault: Option<Fault>, s': Session, before: BufferValue, value: BufferValue)
    requires Plain(c) && !(s.pr.input.Some? && !PassesGate(c)) && !Arm(s, c, fault).raised
    requires s'.ed.current in s'.ed.bufs
    requires s'.(ed := Put(s'.ed, s'.ed.current, s'.ed.bufs[s'.ed.current].(value := value))) == Arm(s, c, fault).session
    ensures var events := Arm(s, c, fault).events;
      && MakeGroup(before, events).None?
      && Step(s, c, fault) == Outcome(s'.(ed := Committed(s'.ed, c, None, before, value, events)), events, false)
  {
    hide Arm, Committed, Settle, Put;
    var events := Arm(s, c, fault).events;
    ArmSettles(s, c, fault);
    PlainHasNoText(s, c, fault);
    NoTextNoGroup(before, events);
    CommitIsSettle(s'.ed, c, before, value, events);
  }

  lemma DeliveredHasNoText(ed: Editor, c: Command)
    requires c.DeliverSessionEffects? || c.InsertAgentText?
    ensures NoText(Delivered(ed, c).1) && Delivered(ed, c).0.current == ed.current
  {
    hide Rendered, FoldAfter;
  }

  lemma DeliverySettles(s: Session, c: Command, fault: Option<Fault>)
    requires c.DeliverSessionEffects? || c.InsertAgentText?
    ensures DeliveryTarget(s.ed, c.target) ==> c.target in s.ed.bufs
    ensures Step(s, c, fault) ==
              if !DeliveryTarget(s.ed, c.target) || (c.DeliverSessionEffects? && !AllRenderable(c.effects)) then Outcome(s, [], true)
              else Outcome(s.(ed := SettleOn(Delivered(s.ed, c).0, c.target)), Delivered(s.ed, c).1, false)
  {
    hide Append, Rendered, FoldAfter, AllRenderable, SettleOn;
  }

  /** Committing a delivery is settling on its target. */
  lemma CommitDelivers(s: Session, ed: Editor, c: Command, before: BufferValue, value: BufferValue)
    requires (c.DeliverSessionEffects? || c.InsertAgentText?) && c.target in ed.bufs
    requires Put(ed, c.target, ed.bufs[c.target].(value := value)) == Delivered(s.ed, c).0
    ensures var events := Delivered(s.ed, c).1;
      && MakeGroup(before, events).None?
      && Committed(ed, c, Some(c.target), before, value, events) == SettleOn(Delivered(s.ed, c).0, c.target)
  {
    hide Delivered, SyncFocused;
    DeliveredHasNoText(s.ed, c);
    NoTextNoGroup(before, Delivered(s.ed, c).1);
  }

  lemma MintSettles(s: Session, c: Command, fault: Option<Fault>)
    requires SessionOk(s) && (c.CreateAgentBuffer? || c.CreateGeneratedBuffer?) && !Nameless(s.ed, c)
    ensures var m := Minted(s.ed, c);
      && m.1 in m.0.bufs
      && var v := m.0.bufs[m.1].value;
         && MakeGroup(v, m.2).None?
         && Step(s, c, fault) == Outcome(s.(ed := Committed(m.0, c, Some(m.1), v, v, m.2)), m.2, false)
  {
    hide SessionOk, FreshName, SyncFocused;
    ValidFacts(s);
    var m := Minted(s.ed, c);
    PutSame(m.0, m.1);
    NoTextNoGroup(m.0.bufs[m.1].value, m.2);
  }

  /** An arm has run: an exception leaves everything as it was, and otherwise the
      commit is all that is missing. */
  ghost predicate Ready(s: Session, c: Command, fault: Option<Fault>, s': Session, ok: bool, pinned: Option<BufferId>,
                        before: BufferValue, value: BufferValue, out: seq<Event>) {
    var r := Step(s, c, fault);
    && r.raised == !ok
    && (!ok ==> r == Outcome(s', [], true))
    && (ok ==>
          && (if pinned.Some? then pinned.value else s'.ed.current) in s'.ed.bufs
          && (if c.Edit? then Telling(c.edit, out) else MakeGroup(before, out).None?)
          && r == Outcome(s'.(ed := Committed(s'.ed, c, pinned, before, value, out)), out, false))
  }

  lemma ReadyFacts(s: Session, c: Command, fault: Option<Fault>, s': Session, ok: bool, pinned: Option<BufferId>,
                   before: BufferValue, value: BufferValue, out: seq<Event>)
    requires Ready(s, c, fault, s', ok, pinned, before, value, out)
    ensures !ok ==> Step(s, c, fault) == Outcome(s', [], true)
    ensures ok ==>
              && (if pinned.Some? then pinned.value else s'.ed.current) in s'.ed.bufs
              && (if c.Edit? then Telling(c.edit, out) else MakeGroup(before, out).None?)
              && Step(s, c, fault) == Outcome(s'.(ed := Committed(s'.ed, c, pinned, before, value, out)), out, false)
  {
    hide Step, Committed, Telling, MakeGroup;
  }

  lemma GateHolds(s: Session, c: Command, fault: Option<Fault>)
    ensures s.pr.input.Some? && !PassesGate(c) ==> Step(s, c, fault) == Outcome(s, [], false)
  {
  }

  lemma EditIsReady(s: Session, s': Session, e: EditCommand, fault: Option<Fault>)
    requires s.ed.current in s.ed.bufs && s.pr.input.None?
    requires var b := s.ed.bufs[s.ed.current]; var r := Apply(Local(b.value, b.st, s.ed.ring), e);
      s' == s.(ed := Put(s.ed, s.ed.current, Buf(b.value, r.local.st)).(ring := r.local.ring))
    ensures var b := s.ed.bufs[s.ed.current]; var r := Apply(Local(b.value, b.st, s.ed.ring), e);
      Ready(s, Edit(e), fault, s', true, None, b.value, r.local.value, r.events)
  {
    hide Apply, Committed, Telling, Step;
    var b := s.ed.bufs[s.ed.current];
    EditTells(Local(b.value, b.st, s.ed.ring), e);
    EditSettles(s, e, fault);
  }

  lemma DeliveryFails(s: Session, c: Command, fault: Option<Fault>, any: BufferValue)
    requires c.DeliverSessionEffects? || c.InsertAgentText?
    requires !DeliveryTarget(s.ed, c.target) || (c.DeliverSessionEffects? && !AllRenderable(c.effects))
    ensures Ready(s, c, fault, s, false, Some(c.target), any, any, [])
  {
    hide Step;
    DeliverySettles(s, c, fault);
  }

  lemma DeliveryIsReady(s: Session, s': Session, c: Command, fault: Option<Fault>, before: BufferValue, value: BufferValue)
    requires (c.DeliverSessionEffects? || c.InsertAgentText?) && DeliveryTarget(s.ed, c.target)
    requires c.DeliverSessionEffects? ==> AllRenderable(c.effects)
    requires s'.pr == s.pr && c.target in s'.ed.bufs
    requires Put(s'.ed, c.target, s'.ed.bufs[c.target].(value := value)) == Delivered(s.ed, c).0
    ensures Ready(s, c, fault, s', true, Some(c.target), before, value, Delivered(s.ed, c).1)
  {
    hide Delivered, Committed, Step, Put, AllRenderable, SettleOn, DeliveryTarget;
    DeliverySettles(s, c, fault);
    CommitDelivers(s, s'.ed, c, before, value);
  }

  lemma MintFails(s: Session, c: Command, fault: Option<Fault>, pinned: Option<BufferId>, any: BufferValue)
    requires Nameless(s.ed, c)
    ensures Ready(s, c, fault, s, false, pinned, any, any, [])
  {
  }

  lemma MintIsReady(s: Session, s': Session, c: Command, fault: Option<Fault>)
    requires SessionOk(s) && (c.CreateAgentBuffer? || c.CreateGeneratedBuffer?) && !Nameless(s.ed, c)
    requires s' == s.(ed := Minted(s.ed, c).0)
    ensures var m := Minted(s.ed, c);
      m.1 in m.0.bufs && Ready(s, c, fault, s', true, Some(m.1), m.0.bufs[m.1].value, m.0.bufs[m.1].value, m.2)
  {
    hide SessionOk, Minted, Committed, Step;
    MintSettles(s, c, fault);
  }

  lemma PlainIsReady(s: Session, c: Command, fault: Option<Fault>, s': Session, ok: bool, before: BufferValue, value: BufferValue)
    requires Plain(c) && !(s.pr.input.Some? && !PassesGate(c)) && ok == !Arm(s, c, fault).raised
    requires s'.ed.current in s'.ed.bufs
    requires s'.(ed := Put(s'.ed, s'.ed.current, s'.ed.bufs[s'.ed.current].(value := value))) == Arm(s, c, fault).session
    requires !ok ==> value == s'.ed.bufs[s'.ed.current].value && Arm(s, c, fault).events == []
    ensures Ready(s, c, fault, s', ok, None, before, value, Arm(s, c, fault).events)
  {
    hide Arm, Committed, Step, Put;
    ArmSettles(s, c, fault);
    if ok { PlainSettles(s, c, fault, s', before, value); }
    else { PutSame(s'.ed, s'.ed.current); ArmRaisesClean(s, c, fault); }
  }

  lemma ArmRaisesClean(s: Session, c: Command, fault: Option<Fault>)
    requires Plain(c)
    ensures Arm(s, c, fault).raised ==> Arm(s, c, fault) == Outcome(s, [], true)
  {
    hide Backspace, Abort, Accept, Save, Layout, Prompting, KeyDecision, Decide, ExitKey;
  }

  // ---- What the loops need ----

  lemma ToFrontIs(mru: seq<BufferId>, id: BufferId)
    ensures ToFront(mru, id) == [id] + Without(mru, id)
  {
  }

  lemma TakenSuffix(name: string, k: nat, untried: set<BufferId>)
    requires Suffixed(name, k) in untried
    ensures FirstFree(name, k, untried) == FirstFree(name, k + 1, untried - {Suffixed(name, k)})
    ensures forall j: nat :: j > k ==> (Suffixed(name, j) in untried <==> Suffixed(name, j) in untried - {Suffixed(name, k)})
  {
    forall j: nat | j > k ensures Suffixed(name, j) != Suffixed(name, k) { SuffixesDiffer(name, j, k); }
  }

  lemma FreeSuffix(name: string, suffix: nat, untried: set<BufferId>)
    ensures suffix > 2 && Suffixed(name, suffix - 1) !in untried
            ==> FirstFree(name, suffix - 1, untried) == Suffixed(name, suffix - 1)
  {
  }

  lemma PointFits(l: Local)
    requires LocalOk(l)
    ensures 0 <= l.value.point <= |l.value.text|
  {
  }

  lemma KillEndIs(text: string, point: nat)
    requires point < |text|
    ensures KillEnd(text, point) == if text[point] == '\n' then point + 1 else LineEnd(text, point)
    ensures point < KillEnd(text, point) <= |text|
  {
    hide LineEnd;
    if text[point] != '\n' { LineEndsBeyond(text, point); }
  }

  lemma LineEndsBeyond(text: string, point: nat)
    requires point < |text| && text[point] != '\n'
    ensures point < LineEnd(text, point) <= |text|
  {
  }

  lemma CutInBounds(text: string, i: nat, j: nat)
    requires i <= j <= |text|
    ensures Splice(text, i, j - i, "") == text[..i] + text[j..]
  {
    assert text[..i] + "" == text[..i];
  }

  lemma SliceInBounds(text: string, i: nat, j: nat)
    requires i <= j <= |text|
    ensures Slice(text, i, j) == text[i..j]
  {
  }

  /** The span a kill takes lies within the text. */
  lemma KillFits(text: string, point: nat)
    requires point < |text|
    ensures var end := if text[point] == '\n' then point + 1 else LineEnd(text, point);
      && point < end <= |text| && KillEnd(text, point) == end && Slice(text, point, end) == text[point..end]
      && Splice(text, point, end - point, "") == text[..point] + text[end..]
  {
    hide Splice, Slice, LineEnd, KillEnd;
    KillEndIs(text, point);
    var end := KillEnd(text, point);
    CutInBounds(text, point, end);
    SliceInBounds(text, point, end);
  }

  /** The next group to undo or redo lies within the text. */
  lemma NewestFits(v: BufferValue, st: BufferState)
    requires BufferOk(v, st)
    ensures st.history != [] ==> var g := Last(st.history); 0 <= g.start <= g.start + |g.inserted| <= |v.text|
    ensures st.redo != [] ==> var g := Last(st.redo); 0 <= g.start <= g.start + |g.removed| <= |v.text|
  {
    assert st.history != [] ==> Undoable(v.text, Last(st.history));
    assert st.redo != [] ==> Redoable(v.text, Last(st.redo));
  }

  lemma InsertionFits(l: Local, text: string)
    requires LocalOk(l)
    ensures 0 <= l.value.point <= |l.value.text|
    ensures Splice(l.value.text, l.value.point, 0, text) == l.value.text[..l.value.point] + text + l.value.text[l.value.point..]
  {
    SpliceInBounds(l.value.text, l.value.point, 0, text);
  }
}
