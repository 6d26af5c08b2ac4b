/** Editing one buffer: text commands, the kill ring, yank-pop and undo. */
module Editing {
  import opened Prelude
  import opened Buffers
  import opened Events

  /** The current buffer and the kill ring around one edit command. */
  datatype Local = Local(value: BufferValue, st: BufferState, ring: seq<string>)

  datatype Edited = Edited(local: Local, events: seq<Event>)

  // ---- The commands ----

  function Apply(l: Local, e: EditCommand): Edited {
    var v := l.value;
    match e
    case InsertText(text) =>
      if text == "" then Edited(l, [])
      else Edited(l.(value := Inserted(v, text)), [TextInserted(text, v.point, v.point + |text|)])
    case ForwardChar =>
      var p := if v.point + 1 < |v.text| then v.point + 1 else |v.text|;
      Edited(l.(value := v.(point := p)), [PointMoved(1, p - v.point)])
    case BackwardChar =>
      var p := if v.point - 1 > 0 then v.point - 1 else 0;
      Edited(l.(value := v.(point := p)), [PointMoved(-1, p - v.point)])
    case KillLine => ApplyKillLine(l)
    case Yank => ApplyYank(l)
    case YankPop => ApplyYankPop(l)
    case SetMark => Edited(l.(value := v.(mark := Some(v.point))), [MarkSet(v.point)])
    case KillRegion => ApplyKillRegion(l)
    case CopyRegionAsKill => ApplyCopyRegion(l)
    case ExchangePointAndMark =>
      if v.mark.None? then Edited(l, [])
      else Edited(l.(value := v.(point := v.mark.value, mark := Some(v.point))),
                  [MarkExchanged(v.point, v.mark.value)])
    case Undo => ApplyUndo(l)
    case KeyboardQuit => Edited(l.(value := v.(mark := None)), [KeyboardQuitEvent])
  }

  function Inserted(v: BufferValue, text: string): BufferValue {
    v.(text := Splice(v.text, v.point, 0, text), point := v.point + |text|, modified := true,
       mark := AdjustInsert(v.mark, v.point, |text|))
  }

  /** `text.find("\n", from)`, the end of the text where there is none. */
  function LineEnd(text: string, from: nat): (end: nat)
    requires from <= |text|
    ensures from <= end <= |text|
    ensures '\n' !in text[from..end]
    ensures end < |text| ==> text[end] == '\n'
    decreases |text| - from
  {
    if from == |text| || text[from] == '\n' then from else LineEnd(text, from + 1)
  }

  /** A kill takes the line break itself when point stands on one. */
  function KillEnd(text: string, point: int): int {
    if 0 <= point < |text| then
      if text[point] == '\n' then point + 1 else LineEnd(text, point)
    else point
  }

  function PushKill(ring: seq<string>, killed: string): seq<string> {
    Before([killed] + ring, KILL_RING_CAPACITY)
  }

  function ApplyKillLine(l: Local): Edited {
    var v := l.value;
    if v.point == |v.text| then Edited(l, [Message(EndOfBuffer)])
    else
      var end := KillEnd(v.text, v.point);
      var killed := Slice(v.text, v.point, end);
      var value := v.(text := Splice(v.text, v.point, end - v.point, ""), modified := true,
                      mark := AdjustDelete(v.mark, v.point, end));
      var ring := if l.st.lastWasKill && l.ring != [] then [l.ring[0] + killed] + l.ring[1..]
                  else PushKill(l.ring, killed);
      Edited(Local(value, l.st, ring), [TextKilled(killed, v.point, end)])
  }

  function RegionStart(v: BufferValue, mark: int): int { if v.point < mark then v.point else mark }
  function RegionEnd(v: BufferValue, mark: int): int { if v.point < mark then mark else v.point }

  function ApplyKillRegion(l: Local): Edited {
    var v := l.value;
    if v.mark.None? then Edited(l, [Message(MarkNotSet)])
    else if v.mark.value == v.point then Edited(l, [])
    else
      var lo, hi := RegionStart(v, v.mark.value), RegionEnd(v, v.mark.value);
      var killed := Slice(v.text, lo, hi);
      Edited(Local(v.(text := Splice(v.text, lo, hi - lo, ""), point := lo, modified := true, mark := None),
                   l.st, PushKill(l.ring, killed)),
             [RegionKilled(killed, lo, hi)])
  }

  function ApplyCopyRegion(l: Local): Edited {
    var v := l.value;
    if v.mark.None? then Edited(l, [Message(MarkNotSet)])
    else if v.mark.value == v.point then Edited(l, [])
    else
      var copied := Slice(v.text, RegionStart(v, v.mark.value), RegionEnd(v, v.mark.value));
      Edited(Local(v.(mark := None), l.st, PushKill(l.ring, copied)), [RegionCopied(copied)])
  }

  function ApplyYank(l: Local): Edited {
    if l.ring == [] then Edited(l, [])
    else
      var text, before := l.ring[0], l.value.point;
      var after := before + |text|;
      Edited(Local(Inserted(l.value, text),
                   l.st.(yankCursor := 0, yankStart := before, yankEnd := after), l.ring),
             [TextYanked(text, before, after)])
  }

  function ApplyYankPop(l: Local): Edited {
    var v, st := l.value, l.st;
    if !st.yankActive then Edited(l, [Message(NotAYank)])
    else if |l.ring| < 2 then Edited(l, [])
    else
      var start, end := st.yankStart, st.yankEnd;
      var replaced := Slice(v.text, start, end);
      var cursor := (st.yankCursor + 1) % |l.ring|;
      var new' := l.ring[cursor];
      var after := start + |new'|;
      Edited(Local(v.(text := Splice(v.text, start, end - start, new'), point := after, modified := true,
                      mark := AdjustInsert(AdjustDelete(v.mark, start, end), start, |new'|)),
                   st.(yankCursor := cursor, yankEnd := after), l.ring),
             [TextYankPopped(replaced, new', start, after)])
  }

  /** Undo derives the flag from the text, never from the undone command. */
  function ModifiedAfterUndo(st: BufferState, text: string): bool {
    st.savedText.None? || text != st.savedText.value
  }

  function Undone(v: BufferValue, st: BufferState, g: UndoGroup): BufferValue {
    var text := Splice(v.text, g.start, |g.inserted|, g.removed);
    v.(text := text, point := g.pointBefore, mark := g.markBefore, modified := ModifiedAfterUndo(st, text))
  }

  function Redone(v: BufferValue, st: BufferState, g: UndoGroup): BufferValue {
    var text := Splice(v.text, g.start, |g.removed|, g.inserted);
    v.(text := text, point := g.pointAfter, mark := g.markAfter, modified := ModifiedAfterUndo(st, text))
  }

  function Last<T>(s: seq<T>): T requires s != [] { s[|s| - 1] }
  function Front<T>(s: seq<T>): seq<T> requires s != [] { s[..|s| - 1] }

  function ApplyUndo(l: Local): Edited {
    var v, st := l.value, l.st;
    if st.descending || st.redo == [] then
      if st.history == [] then Edited(l, [Message(NoFurtherUndo)])
      else
        var g := Last(st.history);
        Edited(l.(value := Undone(v, st, g),
                  st := st.(history := Front(st.history), redo := st.redo + [g])),
               [TextUndone(g.start, g.inserted, g.removed)])
    else
      var g := Last(st.redo);
      Edited(l.(value := Redone(v, st, g),
                st := st.(redo := Front(st.redo), history := st.history + [g])),
             [TextRedone(g.start, g.removed, g.inserted)])
  }

  // ---- The bookkeeping every edit command ends with ----

  /** The undo group of a text-changing command, from its events. */
  function MakeGroup(v: BufferValue, events: seq<Event>): Option<UndoGroup> {
    if events == [] then None
    else match events[0]
      case TextInserted(text, before, _) => Some(InsertionGroup(v, text, before))
      case TextYanked(text, before, _) => Some(InsertionGroup(v, text, before))
      case TextKilled(killed, before, after) =>
        Some(UndoGroup(before, killed, "", v.point, v.point, v.mark, AdjustDelete(v.mark, before, after)))
      case RegionKilled(killed, lo, _) =>
        Some(UndoGroup(lo, killed, "", v.point, lo, v.mark, None))
      case TextYankPopped(replaced, new', start, after) =>
        Some(UndoGroup(start, replaced, new', v.point, after, v.mark,
                       AdjustInsert(AdjustDelete(v.mark, start, start + |replaced|), start, |new'|)))
      case _ => MakeGroup(v, events[1..])
  }

  function InsertionGroup(v: BufferValue, text: string, before: int): UndoGroup {
    UndoGroup(before, "", text, v.point, before + |text|, v.mark, AdjustInsert(v.mark, before, |text|))
  }

  /** Append a group, forget the oldest beyond the capacity. */
  function PushGroup(history: seq<UndoGroup>, g: UndoGroup): seq<UndoGroup> {
    var longer := history + [g];
    if |longer| > UNDO_CAPACITY then longer[|longer| - UNDO_CAPACITY..] else longer
  }

  /** Last-command state after `e`, which found value `v` and recorded `events`. */
  function Bookkeep(e: EditCommand, v: BufferValue, st: BufferState, events: seq<Event>): BufferState {
    var acts := Acts(events);
    var kill := if e.KillLine? then st.lastWasKill || acts else st.lastWasKill && !acts;
    var yank := if e.Yank? || e.YankPop? then acts else st.yankActive && !acts;
    var chained := st.(lastWasKill := kill, yankActive := yank);
    if e.Undo? then chained.(descending := st.descending || acts)
    else
      var flat := chained.(descending := st.descending && !acts);
      match MakeGroup(v, events)
      case None => flat
      case Some(g) => flat.(history := PushGroup(st.history, g), redo := [])
  }

  /** One edit command, bookkeeping included. */
  function EditStep(l: Local, e: EditCommand): Edited {
    var r := Apply(l, e);
    Edited(r.local.(st := Bookkeep(e, l.value, r.local.st, r.events)), r.events)
  }
}
