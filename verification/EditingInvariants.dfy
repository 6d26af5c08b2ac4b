/** What every edit keeps: undo chains, yank bounds, the kill ring, the clean flag. */
module EditingInvariants {
  import opened Prelude
  import opened Buffers
  import opened Events
  import opened Editing

  function UndoText(text: string, g: UndoGroup): string { Splice(text, g.start, |g.inserted|, g.removed) }
  function RedoText(text: string, g: UndoGroup): string { Splice(text, g.start, |g.removed|, g.inserted) }

  /** `part` stands in `text` exactly at `start`, so a slice there does not clip. */
  ghost predicate FoundAt(text: string, start: int, part: string) {
    0 <= start && start + |part| <= |text| && text[start..start + |part|] == part
  }

  /** Undoing `g` finds its text at the recorded offset and restores valid positions. */
  ghost predicate Undoable(text: string, g: UndoGroup) {
    && FoundAt(text, g.start, g.inserted)
    && 0 <= g.pointBefore <= |UndoText(text, g)| && MarkWithin(g.markBefore, |UndoText(text, g)|)
    && 0 <= g.pointAfter <= |text| && MarkWithin(g.markAfter, |text|)
  }

  ghost predicate Redoable(text: string, g: UndoGroup) {
    && FoundAt(text, g.start, g.removed)
    && 0 <= g.pointAfter <= |RedoText(text, g)| && MarkWithin(g.markAfter, |RedoText(text, g)|)
    && 0 <= g.pointBefore <= |text| && MarkWithin(g.markBefore, |text|)
  }

  /** The whole history can be undone, newest group first. */
  ghost predicate UndoChain(text: string, history: seq<UndoGroup>)
    decreases |history|
  {
    history != [] ==>
      && Undoable(text, Last(history))
      && UndoChain(UndoText(text, Last(history)), Front(history))
  }

  /** Everything undone can be redone, most recently undone first. */
  ghost predicate RedoChain(text: string, redo: seq<UndoGroup>)
    decreases |redo|
  {
    redo != [] ==>
      && Redoable(text, Last(redo))
      && RedoChain(RedoText(text, Last(redo)), Front(redo))
  }

  ghost predicate YankChain(text: string, st: BufferState, ring: seq<string>) {
    st.yankActive ==>
      && 0 <= st.yankStart <= st.yankEnd <= |text|
      && 0 <= st.yankCursor < |ring|
      && text[st.yankStart..st.yankEnd] == ring[st.yankCursor]
  }

  ghost predicate RingOk(ring: seq<string>) {
    |ring| <= KILL_RING_CAPACITY && forall i :: 0 <= i < |ring| ==> ring[i] != ""
  }

  /** A buffer without its chains to the kill ring. */
  ghost predicate BufferOk(v: BufferValue, st: BufferState) {
    && ValidValue(v)
    && UndoChain(v.text, st.history)
    && RedoChain(v.text, st.redo)
    && |st.history| + |st.redo| <= UNDO_CAPACITY
  }

  ghost predicate LocalOk(l: Local) {
    && BufferOk(l.value, l.st)
    && YankChain(l.value.text, l.st, l.ring)
    && RingOk(l.ring)
    && (l.st.lastWasKill ==> l.ring != [])
  }

  /** An unmodified buffer holds the text last read from or written to its file. */
  predicate CleanIsSaved(v: BufferValue, st: BufferState) {
    !v.modified ==> st.savedText == Some(v.text)
  }

  // ---- Undo and redo are mutually inverse on texts ----

  lemma UndoThenRedoText(text: string, g: UndoGroup)
    requires Undoable(text, g)
    ensures Redoable(UndoText(text, g), g) && RedoText(UndoText(text, g), g) == text
  {
    var t := UndoText(text, g);
    assert t == text[..g.start] + g.removed + text[g.start + |g.inserted|..];
    assert RedoText(t, g) == text[..g.start] + g.inserted + text[g.start + |g.inserted|..];
    assert text == text[..g.start] + text[g.start..g.start + |g.inserted|] + text[g.start + |g.inserted|..];
  }

  lemma RedoThenUndoText(text: string, g: UndoGroup)
    requires Redoable(text, g)
    ensures Undoable(RedoText(text, g), g) && UndoText(RedoText(text, g), g) == text
  {
    var t := RedoText(text, g);
    assert t == text[..g.start] + g.inserted + text[g.start + |g.removed|..];
    assert UndoText(t, g) == text[..g.start] + g.removed + text[g.start + |g.removed|..];
    assert text == text[..g.start] + text[g.start..g.start + |g.removed|] + text[g.start + |g.removed|..];
  }

  // ---- Chains survive text appended behind them and forgotten groups ----

  /** Agent text at the end of a buffer moves no recorded offset. */
  lemma {:induction false} AppendKeepsUndoChain(text: string, tail: string, history: seq<UndoGroup>)
    requires UndoChain(text, history)
    ensures UndoChain(text + tail, history)
    decreases |history|
  {
    if history != [] {
      var g := Last(history);
      assert (text + tail)[g.start..g.start + |g.inserted|] == text[g.start..g.start + |g.inserted|];
      assert UndoText(text + tail, g) == UndoText(text, g) + tail;
      AppendKeepsUndoChain(UndoText(text, g), tail, Front(history));
    }
  }

  lemma {:induction false} AppendKeepsRedoChain(text: string, tail: string, redo: seq<UndoGroup>)
    requires RedoChain(text, redo)
    ensures RedoChain(text + tail, redo)
    decreases |redo|
  {
    if redo != [] {
      var g := Last(redo);
      assert (text + tail)[g.start..g.start + |g.removed|] == text[g.start..g.start + |g.removed|];
      assert RedoText(text + tail, g) == RedoText(text, g) + tail;
      AppendKeepsRedoChain(RedoText(text, g), tail, Front(redo));
    }
  }

  lemma {:induction false} ForgettingKeepsUndoChain(text: string, history: seq<UndoGroup>, k: nat)
    requires k <= |history| && UndoChain(text, history)
    ensures UndoChain(text, history[k..])
    decreases |history|
  {
    if k < |history| {
      assert Front(history[k..]) == Front(history)[k..];
      ForgettingKeepsUndoChain(UndoText(text, Last(history)), Front(history), k);
    }
  }

  // ---- The group a command leaves undoes that command ----

  lemma AdjustedInsertWithin(mark: Option<int>, at: int, count: nat, n: nat)
    requires MarkWithin(mark, n) && 0 <= at <= n
    ensures MarkWithin(AdjustInsert(mark, at, count), n + count)
  {
  }

  lemma AdjustedDeleteWithin(mark: Option<int>, start: int, end: int, n: nat)
    requires MarkWithin(mark, n) && 0 <= start <= end <= n
    ensures MarkWithin(AdjustDelete(mark, start, end), n - (end - start))
  {
  }

  /** Replacing a span is undone by the group that names both of its texts. */
  lemma SpliceIsUndoable(text: string, g: UndoGroup)
    requires FoundAt(text, g.start, g.removed)
    requires 0 <= g.pointBefore <= |text| && MarkWithin(g.markBefore, |text|)
    requires 0 <= g.pointAfter <= |text| - |g.removed| + |g.inserted|
    requires MarkWithin(g.markAfter, |text| - |g.removed| + |g.inserted|)
    ensures Undoable(RedoText(text, g), g) && UndoText(RedoText(text, g), g) == text
  {
    assert |RedoText(text, g)| == |text| - |g.removed| + |g.inserted|;
    RedoThenUndoText(text, g);
  }

  /** One edit command records at most one event. */
  lemma EditEvents(l: Local, e: EditCommand)
    ensures var evs := Apply(l, e).events;
      && |evs| <= 1
      && (Acts(evs) <==> |evs| == 1 && !evs[0].Message?)
      && (MakeGroup(l.value, evs).Some? ==> |evs| == 1 && MakeGroup(l.value, evs) == MakeGroup(l.value, [evs[0]]))
  {
    var evs := Apply(l, e).events;
    if |evs| == 1 {
      assert evs == [evs[0]];
      assert !evs[0].Message? ==> Acts(evs);
    }
  }

  /** Group `g` accounts for the change from `v` to `w`, in both directions. */
  ghost predicate Explains(v: BufferValue, w: BufferValue, g: UndoGroup) {
    && FoundAt(v.text, g.start, g.removed)
    && w.text == RedoText(v.text, g)
    && Undoable(w.text, g)
    && UndoText(w.text, g) == v.text
    && g.pointBefore == v.point && g.markBefore == v.mark
    && g.pointAfter == w.point && g.markAfter == w.mark
    && w.modified
  }

  lemma InsertionExplained(v: BufferValue, text: string)
    requires ValidValue(v)
    ensures Explains(v, Inserted(v, text), InsertionGroup(v, text, v.point))
  {
    AdjustedInsertWithin(v.mark, v.point, |text|, |v.text|);
    SpliceIsUndoable(v.text, InsertionGroup(v, text, v.point));
  }

  lemma KillLineExplained(l: Local)
    requires LocalOk(l) && l.value.point < |l.value.text|
    ensures var r := ApplyKillLine(l); var g := MakeGroup(l.value, r.events);
      g.Some? && Explains(l.value, r.local.value, g.value)
  {
    var v := l.value;
    AdjustedDeleteWithin(v.mark, v.point, KillEnd(v.text, v.point), |v.text|);
    SpliceIsUndoable(v.text, MakeGroup(v, ApplyKillLine(l).events).value);
  }

  lemma KillRegionExplained(l: Local)
    requires LocalOk(l) && l.value.mark.Some? && l.value.mark.value != l.value.point
    ensures var r := ApplyKillRegion(l); var g := MakeGroup(l.value, r.events);
      g.Some? && Explains(l.value, r.local.value, g.value)
  {
    SpliceIsUndoable(l.value.text, MakeGroup(l.value, ApplyKillRegion(l).events).value);
  }

  lemma YankPopExplained(l: Local)
    requires LocalOk(l) && l.st.yankActive && |l.ring| >= 2
    ensures var r := ApplyYankPop(l); var g := MakeGroup(l.value, r.events);
      g.Some? && Explains(l.value, r.local.value, g.value)
  {
    var v, st := l.value, l.st;
    var g := MakeGroup(v, ApplyYankPop(l).events).value;
    AdjustedDeleteWithin(v.mark, st.yankStart, st.yankEnd, |v.text|);
    AdjustedInsertWithin(AdjustDelete(v.mark, st.yankStart, st.yankEnd), st.yankStart,
                         |g.inserted|, |v.text| - |g.removed|);
    SpliceIsUndoable(v.text, g);
  }

  /** Every text-changing command leaves a group that accounts for the change;
      every other one leaves the text alone. */
  lemma GroupExplainsEdit(l: Local, e: EditCommand)
    requires LocalOk(l) && !e.Undo?
    ensures var r := Apply(l, e); var g := MakeGroup(l.value, r.events);
      && (g.None? ==> r.local.value.text == l.value.text)
      && (g.Some? ==> Explains(l.value, r.local.value, g.value) && Acts(r.events))
  {
    hide Explains, UndoChain, RedoChain, YankChain, RingOk, Acts;
    EditEvents(l, e);
    match e {
      case InsertText(text) => InsertionExplained(l.value, text);
      case Yank => if l.ring != [] { InsertionExplained(l.value, l.ring[0]); }
      case KillLine => if l.value.point < |l.value.text| { KillLineExplained(l); }
      case KillRegion =>
        if l.value.mark.Some? && l.value.mark.value != l.value.point { KillRegionExplained(l); }
      case YankPop => if l.st.yankActive && |l.ring| >= 2 { YankPopExplained(l); }
      case _ =>
    }
  }

  // ---- Edits keep the invariants ----

  /** Only text edits touch a value's positions; all of them keep it valid. */
  lemma EditKeepsValidValue(l: Local, e: EditCommand)
    requires LocalOk(l) && !e.Undo?
    ensures ValidValue(Apply(l, e).local.value)
  {
    hide UndoChain, RedoChain, YankChain, RingOk, Splice, Acts;
    GroupExplainsEdit(l, e);
    EditEvents(l, e);
  }

  lemma NonUndoKeepsBufferOk(l: Local, e: EditCommand)
    requires LocalOk(l) && !e.Undo?
    ensures var r := EditStep(l, e).local; BufferOk(r.value, r.st)
  {
    hide YankChain, RingOk, Splice, Acts;
    GroupExplainsEdit(l, e);
    EditKeepsValidValue(l, e);
    var r := Apply(l, e);
    assert r.local.st.history == l.st.history && r.local.st.redo == l.st.redo;
    var g := MakeGroup(l.value, r.events);
    if g.Some? { PushKeepsChain(r.local.value.text, l.st.history, g.value); }
  }

  lemma PushKeepsChain(text: string, history: seq<UndoGroup>, g: UndoGroup)
    requires Undoable(text, g) && UndoChain(UndoText(text, g), history)
    ensures UndoChain(text, PushGroup(history, g)) && |PushGroup(history, g)| <= UNDO_CAPACITY
  {
    var longer := history + [g];
    assert Last(longer) == g && Front(longer) == history;
    if |longer| > UNDO_CAPACITY {
      ForgettingKeepsUndoChain(text, longer, |longer| - UNDO_CAPACITY);
    }
  }

  lemma UndoKeepsBufferOk(l: Local)
    requires LocalOk(l)
    ensures var r := EditStep(l, Undo).local; BufferOk(r.value, r.st)
  {
    hide YankChain, RingOk, Acts, Splice;
    var st := l.st;
    if st.descending || st.redo == [] {
      if st.history != [] {
        var g := Last(st.history);
        UndoThenRedoText(l.value.text, g);
        assert Last(st.redo + [g]) == g && Front(st.redo + [g]) == st.redo;
      }
    } else {
      var g := Last(st.redo);
      RedoThenUndoText(l.value.text, g);
      assert Last(st.history + [g]) == g && Front(st.history + [g]) == st.history;
    }
  }

  lemma EditKeepsRing(l: Local, e: EditCommand)
    requires LocalOk(l)
    ensures var r := EditStep(l, e).local;
      RingOk(r.ring) && (r.st.lastWasKill ==> r.ring != [])
  {
    hide UndoChain, RedoChain, YankChain, MakeGroup;
  }

  lemma EditKeepsYankChain(l: Local, e: EditCommand)
    requires LocalOk(l)
    ensures var r := EditStep(l, e).local; YankChain(r.value.text, r.st, r.ring)
  {
    hide UndoChain, RedoChain, RingOk, MakeGroup, Acts;
    EditEvents(l, e);
    if e.YankPop? && l.st.yankActive && |l.ring| >= 2 {
      var st := l.st;
      var text, start := ApplyYankPop(l).local.value.text, st.yankStart;
      var inserted := l.ring[(st.yankCursor + 1) % |l.ring|];
      assert text == l.value.text[..start] + inserted + l.value.text[st.yankEnd..];
    }
  }

  /** Every edit command keeps every buffer invariant. */
  lemma EditKeepsLocalOk(l: Local, e: EditCommand)
    requires LocalOk(l)
    ensures LocalOk(EditStep(l, e).local)
  {
    if e.Undo? { UndoKeepsBufferOk(l); } else { NonUndoKeepsBufferOk(l, e); }
    EditKeepsRing(l, e);
    EditKeepsYankChain(l, e);
  }

  lemma ApplyKeepsFile(l: Local, e: EditCommand)
    ensures var r := Apply(l, e).local;
      && r.st.savedText == l.st.savedText && r.st.eol == l.st.eol && r.st.kind == l.st.kind
      && r.value.filePath == l.value.filePath
  {
    hide Splice, Slice, PushKill, AdjustInsert, AdjustDelete, KillEnd;
  }

  /** No edit command touches what ties a buffer to its file. */
  lemma EditKeepsFile(l: Local, e: EditCommand)
    ensures var r := EditStep(l, e).local;
      && r.st.savedText == l.st.savedText && r.st.eol == l.st.eol && r.st.kind == l.st.kind
      && r.value.filePath == l.value.filePath
  {
    hide Apply, MakeGroup, Acts, PushGroup;
    ApplyKeepsFile(l, e);
  }

  /** An edit never reports a buffer clean whose text differs from the saved
      one, also when it undoes past a save. */
  lemma EditKeepsCleanIsSaved(l: Local, e: EditCommand)
    requires LocalOk(l) && CleanIsSaved(l.value, l.st)
    ensures var r := EditStep(l, e).local;
      && CleanIsSaved(r.value, r.st)
      && r.st.savedText == l.st.savedText && r.st.eol == l.st.eol && r.st.kind == l.st.kind
      && r.value.filePath == l.value.filePath
  {
    hide UndoChain, RedoChain, YankChain, RingOk, Splice, Acts;
    EditKeepsFile(l, e);
    if !e.Undo? { GroupExplainsEdit(l, e); }
  }
}
