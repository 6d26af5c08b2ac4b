/** Undo is an exact inverse and comes to rest; yank-pop walks the ring around. */
module EditingTheorems {
  import opened Prelude
  import opened Buffers
  import opened Events
  import opened Editing
  import opened EditingInvariants

  ghost predicate SameView(v: BufferValue, w: BufferValue) {
    v.text == w.text && v.point == w.point && v.mark == w.mark
  }

  predicate ChangesText(l: Local, e: EditCommand) {
    !e.Undo? && MakeGroup(l.value, Apply(l, e).events).Some?
  }

  /** A text-changing command leaves its group on top and nothing to redo. */
  lemma GroupOnTop(l: Local, e: EditCommand) returns (g: UndoGroup)
    requires LocalOk(l) && ChangesText(l, e)
    ensures var r := EditStep(l, e).local;
      && Explains(l.value, r.value, g)
      && r.st.history != [] && Last(r.st.history) == g && r.st.redo == [] && !r.st.descending
      && r.st.savedText == l.st.savedText && r.ring == Apply(l, e).local.ring
  {
    GroupExplainsEdit(l, e);
    g := MakeGroup(l.value, Apply(l, e).events).value;
    assert Last(PushGroup(Apply(l, e).local.st.history, g)) == g;
  }

  /** An undo that descends moves the newest group over to the redo side. */
  lemma UndoDescends(l: Local)
    requires (l.st.descending || l.st.redo == []) && l.st.history != []
    ensures var r := EditStep(l, Undo).local; var g := Last(l.st.history);
      && r.value == Undone(l.value, l.st, g) && r.ring == l.ring
      && r.st.history == Front(l.st.history) && r.st.redo == l.st.redo + [g] && r.st.descending
  {
    assert !Apply(l, Undo).events[0].Message?;
  }

  lemma UndoAscends(l: Local)
    requires !l.st.descending && l.st.redo != []
    ensures var r := EditStep(l, Undo).local; var g := Last(l.st.redo);
      && r.value == Redone(l.value, l.st, g) && r.ring == l.ring
      && r.st.redo == Front(l.st.redo) && r.st.history == l.st.history + [g] && r.st.descending
  {
    assert !Apply(l, Undo).events[0].Message?;
  }

  // ---- Undo is the inverse of every text-changing command ----

  /** The undo right after a text-changing command gives back the text, the
      point and the mark, and the flag says whether that text is the saved one. */
  lemma UndoIsInverse(l: Local, e: EditCommand)
    requires LocalOk(l) && ChangesText(l, e)
    ensures var after := EditStep(EditStep(l, e).local, Undo);
      && SameView(after.local.value, l.value)
      && (after.local.value.modified <==> l.st.savedText != Some(l.value.text))
      && after.local.ring == Apply(l, e).local.ring
  {
    var g := GroupOnTop(l, e);
    UndoDescends(EditStep(l, e).local);
  }

  // ---- Consecutive undos come to rest ----

  function UndoTimes(l: Local, n: nat): Local
    decreases n
  {
    if n == 0 then l else UndoTimes(EditStep(l, Undo).local, n - 1)
  }

  /** The text that undoing a whole history arrives at. */
  function Rewind(text: string, history: seq<UndoGroup>): string
    decreases |history|
  {
    if history == [] then text else Rewind(UndoText(text, Last(history)), Front(history))
  }

  predicate AtRest(l: Local) {
    l.st.history == [] && (l.st.descending || l.st.redo == [])
  }

  lemma RestIsFixed(l: Local)
    requires AtRest(l)
    ensures EditStep(l, Undo) == Edited(l, [Message(NoFurtherUndo)])
  {
    assert !Acts([Message(NoFurtherUndo)]);
  }

  lemma {:induction false} DescentComesToRest(l: Local, n: nat)
    requires l.st.descending || l.st.redo == []
    requires n >= |l.st.history|
    decreases n
    ensures var r := UndoTimes(l, n);
      && AtRest(r) && r.value.text == Rewind(l.value.text, l.st.history)
      && |r.st.redo| == |l.st.history| + |l.st.redo|
  {
    if n > 0 {
      if l.st.history == [] {
        RestIsFixed(l);
        DescentComesToRest(l, n - 1);
      } else {
        UndoDescends(l);
        DescentComesToRest(EditStep(l, Undo).local, n - 1);
      }
    }
  }

  /** From any state, `|history| + 2` undos in a row reach a state that further
      undos leave alone: the oldest text, with every group kept for redo. */
  lemma UndoComesToRest(l: Local)
    requires LocalOk(l)
    ensures var r := UndoTimes(l, |l.st.history| + 2);
      && EditStep(r, Undo) == Edited(r, [Message(NoFurtherUndo)])
      && r.value.text == Rewind(l.value.text, l.st.history)
      && |r.st.redo| == |l.st.history| + |l.st.redo|
  {
    var n := |l.st.history| + 2;
    if l.st.descending || l.st.redo == [] {
      DescentComesToRest(l, n);
    } else {
      var g := Last(l.st.redo);
      UndoAscends(l);
      var l1 := EditStep(l, Undo).local;
      RedoThenUndoText(l.value.text, g);
      assert Last(l.st.history + [g]) == g && Front(l.st.history + [g]) == l.st.history;
      DescentComesToRest(l1, n - 1);
    }
    RestIsFixed(UndoTimes(l, n));
  }

  // ---- Yank-pop ----

  function PopTimes(l: Local, n: nat): Local
    decreases n
  {
    if n == 0 then l else PopTimes(EditStep(l, YankPop).local, n - 1)
  }

  function Next(cursor: int, size: nat): int
    requires size > 0
  {
    (cursor + 1) % size
  }

  lemma NextWraps(cursor: int, size: nat)
    requires 0 <= cursor < size
    ensures Next(cursor, size) == if cursor + 1 == size then 0 else cursor + 1
  {
  }

  /** The cursor after `n` pops. */
  function Around(cursor: int, n: nat, size: nat): int
    requires size > 0
    decreases n
  {
    if n == 0 then cursor else Around(Next(cursor, size), n - 1, size)
  }

  lemma {:induction false} AroundWraps(cursor: int, n: nat, size: nat)
    requires 0 <= cursor < size && n <= size
    ensures Around(cursor, n, size) == if cursor + n >= size then cursor + n - size else cursor + n
    decreases n
  {
    if n > 0 {
      NextWraps(cursor, size);
      AroundWraps(Next(cursor, size), n - 1, size);
    }
  }

  /** A yanked entry stands between `before` and `after`, ready to be replaced. */
  ghost predicate Yanked(l: Local, before: string, after: string) {
    && LocalOk(l) && l.st.yankActive
    && l.st.yankStart == |before|
    && l.value.text == before + l.ring[l.st.yankCursor] + after
  }

  /** One pop replaces exactly the previous insertion by the next ring entry. */
  lemma PopReplacesInsertion(l: Local, before: string, after: string)
    requires Yanked(l, before, after) && |l.ring| >= 2
    ensures var r := EditStep(l, YankPop);
      && Yanked(r.local, before, after)
      && r.local.st.yankCursor == Next(l.st.yankCursor, |l.ring|)
      && r.local.ring == l.ring
      && r.local.value.point == r.local.st.yankEnd == |before| + |l.ring[r.local.st.yankCursor]|
      && r.events == [TextYankPopped(l.ring[l.st.yankCursor], l.ring[r.local.st.yankCursor], |before|,
                                     r.local.st.yankEnd)]
  {
    var r := Apply(l, YankPop);
    assert !r.events[0].Message?;
    EditKeepsLocalOk(l, YankPop);
    var end := l.st.yankEnd;
    assert end == |before| + |l.ring[l.st.yankCursor]|;
    assert l.value.text[..|before|] == before;
    assert l.value.text[end..] == after;
    assert r.local.value.text == l.value.text[..|before|] + l.ring[r.local.st.yankCursor] + l.value.text[end..];
  }

  lemma {:induction false} PopsWalkTheRing(l: Local, before: string, after: string, n: nat)
    requires Yanked(l, before, after) && |l.ring| >= 2
    ensures var r := PopTimes(l, n);
      && Yanked(r, before, after) && r.ring == l.ring
      && r.st.yankCursor == Around(l.st.yankCursor, n, |l.ring|)
      && (n > 0 ==> r.value.point == |before| + |l.ring[r.st.yankCursor]|)
    decreases n
  {
    hide EditStep;
    if n > 0 {
      PopReplacesInsertion(l, before, after);
      PopsWalkTheRing(EditStep(l, YankPop).local, before, after, n - 1);
    }
  }

  lemma YankInserts(l: Local)
    requires LocalOk(l) && l.ring != []
    ensures var y := EditStep(l, Yank).local;
      && Yanked(y, l.value.text[..l.value.point], l.value.text[l.value.point..])
      && y.st.yankCursor == 0 && y.value.point == l.value.point + |l.ring[0]| && y.ring == l.ring
  {
    assert !Apply(l, Yank).events[0].Message?;
    EditKeepsLocalOk(l, Yank);
  }

  /** After a yank, as many pops as the ring has entries give back the text and
      the point the yank left. */
  lemma PopsComeAround(l: Local)
    requires LocalOk(l) && |l.ring| >= 2
    ensures var y := EditStep(l, Yank).local; var r := PopTimes(y, |l.ring|);
      r.value.text == y.value.text && r.value.point == y.value.point
  {
    YankInserts(l);
    var before, after := l.value.text[..l.value.point], l.value.text[l.value.point..];
    PopsWalkTheRing(EditStep(l, Yank).local, before, after, |l.ring|);
    AroundWraps(0, |l.ring|, |l.ring|);
  }

  // ---- Kills come back ----

  lemma RegionIsKilled(l: Local)
    requires LocalOk(l) && l.value.mark.Some? && l.value.mark.value != l.value.point
    ensures var r := EditStep(l, KillRegion).local; var lo, hi := RegionStart(l.value, l.value.mark.value), RegionEnd(l.value, l.value.mark.value);
      && 0 <= lo < hi <= |l.value.text|
      && r.ring != [] && r.ring[0] == l.value.text[lo..hi]
      && r.value.text == l.value.text[..lo] + l.value.text[hi..] && r.value.point == lo
  {
    hide UndoChain, RedoChain, YankChain, MakeGroup, Acts;
  }

  lemma YankMarks(l: Local)
    requires l.ring != []
    ensures EditStep(l, Yank).local.value.modified
  {
  }

  /** Kill-region, then yank: the text is back, the region is the newest entry and
      point stands behind it. */
  lemma KillRegionThenYank(l: Local)
    requires LocalOk(l) && l.value.mark.Some? && l.value.mark.value != l.value.point
    ensures var killed := EditStep(l, KillRegion).local; var r := EditStep(killed, Yank).local;
      var lo, hi := RegionStart(l.value, l.value.mark.value), RegionEnd(l.value, l.value.mark.value);
      && killed.ring != [] && killed.ring[0] == l.value.text[lo..hi]
      && killed.value.text == l.value.text[..lo] + l.value.text[hi..] && killed.value.point == lo
      && r.value.text == l.value.text && r.value.point == hi && r.value.modified
  {
    hide UndoChain, RedoChain, YankChain, EditStep;
    var lo, hi := RegionStart(l.value, l.value.mark.value), RegionEnd(l.value, l.value.mark.value);
    var killed := EditStep(l, KillRegion).local;
    EditKeepsLocalOk(l, KillRegion);
    RegionIsKilled(l);
    YankInserts(killed);
    var text := l.value.text;
    assert killed.value.text[..lo] == text[..lo] && killed.value.text[lo..] == text[hi..];
    assert text == text[..lo] + text[lo..hi] + text[hi..];
    YankMarks(killed);
  }

  function KillTimes(l: Local, n: nat): Local
    decreases n
  {
    if n == 0 then l else KillTimes(EditStep(l, KillLine).local, n - 1)
  }

  /** The kills since `text` took `text[point..end]`, which is the newest entry. */
  ghost predicate Taken(l: Local, text: string, point: nat, end: nat) {
    && point <= end <= |text| && LocalOk(l)
    && l.value.point == point && l.value.text == text[..point] + text[end..]
    && (if point < end then l.st.lastWasKill && l.ring[0] == text[point..end] else !l.st.lastWasKill)
  }

  lemma KillAtTheEnd(l: Local)
    requires l.value.point == |l.value.text|
    ensures EditStep(l, KillLine).local == l
  {
    var events := [Message(EndOfBuffer)];
    assert !Acts(events);
    assert events[1..] == [] && MakeGroup(l.value, events).None?;
    assert Apply(l, KillLine) == Edited(l, events);
  }

  lemma KillShape(l: Local)
    requires LocalOk(l) && l.value.point < |l.value.text|
    ensures var r := EditStep(l, KillLine).local; var p, k := l.value.point, KillEnd(l.value.text, l.value.point);
      && 0 <= p < k <= |l.value.text|
      && r.value.text == l.value.text[..p] + l.value.text[k..] && r.value.point == p && r.st.lastWasKill
      && r.ring != [] && r.ring[0] == (if l.st.lastWasKill then l.ring[0] else "") + l.value.text[p..k]
  {
    hide UndoChain, RedoChain, YankChain, RingOk, MakeGroup, KillEnd;
    var v, k := l.value, KillEnd(l.value.text, l.value.point);
    KillsSomething(v.text, v.point);
    EditEvents(l, KillLine);
    assert Splice(v.text, v.point, k - v.point, "") == v.text[..v.point] + "" + v.text[k..];
    assert v.text[..v.point] + "" + v.text[k..] == v.text[..v.point] + v.text[k..];
    assert "" + v.text[v.point..k] == v.text[v.point..k];
    var r := EditStep(l, KillLine).local;
    assert r.value.text == v.text[..v.point] + v.text[k..];
    assert r.st.lastWasKill;
    assert r.ring != [];
    assert r.ring[0] == (if l.st.lastWasKill then l.ring[0] else "") + v.text[v.point..k];
  }

  lemma KillsSomething(text: string, point: nat)
    requires point < |text|
    ensures point < KillEnd(text, point) <= |text|
  {
  }

  /** One more kill takes the next span: the rest of the line, or its break. */
  lemma KillTakesMore(l: Local, text: string, point: nat, end: nat)
    requires Taken(l, text, point, end)
    ensures var r := EditStep(l, KillLine).local;
      if end == |text| then r == l
      else exists next :: end < next <= |text| && Taken(r, text, point, next)
  {
    hide UndoChain, RedoChain, YankChain, RingOk, EditStep, KillEnd;
    EditKeepsLocalOk(l, KillLine);
    if end == |text| {
      KillAtTheEnd(l);
    } else {
      KillShape(l);
      var k := KillEnd(l.value.text, point);
      var next := end + (k - point);
      var killed := l.value.text[point..k];
      assert killed == text[end..next];
      assert text[point..next] == text[point..end] + text[end..next];
      assert l.value.text[..point] == text[..point] && l.value.text[k..] == text[next..];
      assert Taken(EditStep(l, KillLine).local, text, point, next);
    }
  }

  lemma {:induction false} KillsAccumulate(l: Local, text: string, point: nat, end: nat, n: nat)
    requires Taken(l, text, point, end)
    ensures exists next :: end <= next <= |text| && Taken(KillTimes(l, n), text, point, next)
    decreases n
  {
    hide Taken, EditStep;
    TakenWithin(l, text, point, end);
    if n > 0 {
      KillTakesMore(l, text, point, end);
      var r := EditStep(l, KillLine).local;
      var next := end;
      if end < |text| { next :| end < next <= |text| && Taken(r, text, point, next); }
      KillsAccumulate(r, text, point, next, n - 1);
      var last :| next <= last <= |text| && Taken(KillTimes(r, n - 1), text, point, last);
      assert KillTimes(l, n) == KillTimes(r, n - 1);
    } else {
      assert Taken(KillTimes(l, 0), text, point, end);
    }
  }

  lemma TakenWithin(l: Local, text: string, point: nat, end: nat)
    requires Taken(l, text, point, end)
    ensures end <= |text|
  {
  }

  /** However many lines are killed in a row, one yank brings all of them back. */
  lemma OneYankRestoresAllKills(l: Local, n: nat)
    requires LocalOk(l) && !l.st.lastWasKill
    ensures var r := KillTimes(l, n);
      r.value.text != l.value.text ==> EditStep(r, Yank).local.value.text == l.value.text
  {
    hide UndoChain, RedoChain, YankChain, EditStep;
    var text, point := l.value.text, l.value.point;
    assert text == text[..point] + text[point..];
    assert Taken(l, text, point, point);
    KillsAccumulate(l, text, point, point, n);
    var r := KillTimes(l, n);
    var next :| point <= next <= |text| && Taken(r, text, point, next);
    if next > point {
      YankInserts(r);
      assert r.value.text[..point] == text[..point] && r.value.text[point..] == text[next..];
      assert text == text[..point] + text[point..next] + text[next..];
    }
  }

  // ---- Marks stay with their text ----

  /** Inserting leaves all the text on one side of a mark: what follows it when the
      insertion is before the mark, what precedes it otherwise. */
  lemma MarkSurvivesInsertion(text: string, mark: nat, at: nat, inserted: string)
    requires mark <= |text| && at <= |text|
    ensures var after := Splice(text, at, 0, inserted); var moved := AdjustInsert(Some(mark), at, |inserted|).value;
      && 0 <= moved <= |after|
      && (at < mark ==> after[moved..] == text[mark..])
      && (at >= mark ==> after[..moved] == text[..mark])
  {
    var after := Splice(text, at, 0, inserted);
    assert after == text[..at] + inserted + text[at..];
    if at < mark {
      assert after[mark + |inserted|..] == text[at..][mark - at..] == text[mark..];
    }
  }

  /** Deleting leaves a mark behind the text before it or before the text after it;
      a mark inside the span ends where the span was. */
  lemma MarkSurvivesDeletion(text: string, mark: nat, start: nat, end: nat)
    requires mark <= |text| && start <= end <= |text|
    ensures var after := Splice(text, start, end - start, ""); var moved := AdjustDelete(Some(mark), start, end).value;
      && 0 <= moved <= |after|
      && (mark <= start ==> after[..moved] == text[..mark])
      && (mark >= end ==> after[moved..] == text[mark..])
      && (start < mark < end ==> moved == start)
  {
    var after := Splice(text, start, end - start, "");
    assert after == text[..start] + text[end..];
    if mark >= end { assert after[mark - (end - start)..] == text[end..][mark - end..] == text[mark..]; }
  }
}
