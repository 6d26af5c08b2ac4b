/** Buffer values, undo groups and per-buffer editing state. */
module Buffers {
  import opened Prelude
  import opened LineEndings

  type BufferId = string

  const KILL_RING_CAPACITY := 60
  const UNDO_CAPACITY := 100

  datatype BufferKind = Ordinary | Generated

  datatype BufferValue = BufferValue(
    text: string, point: int, filePath: Option<string>, modified: bool, mark: Option<int>)

  /** What the constructor of a buffer value checks; a violation raises. */
  predicate ValidValue(v: BufferValue) {
    && 0 <= v.point <= |v.text|
    && MarkWithin(v.mark, |v.text|)
  }

  predicate MarkWithin(mark: Option<int>, n: nat) {
    mark.Some? ==> 0 <= mark.value <= n
  }

  /** The inverse patch of one text-changing command, read forward for redo. */
  datatype UndoGroup = UndoGroup(
    start: int, removed: string, inserted: string,
    pointBefore: int, pointAfter: int, markBefore: Option<int>, markAfter: Option<int>)

  datatype BufferState = BufferState(
    history: seq<UndoGroup>, redo: seq<UndoGroup>, descending: bool,
    yankActive: bool, yankCursor: int, yankStart: int, yankEnd: int,
    lastWasKill: bool, savedText: Option<string>, eol: LineEnding, kind: BufferKind)

  function FreshState(savedText: Option<string>, eol: LineEnding, kind: BufferKind): BufferState {
    BufferState([], [], false, false, 0, 0, 0, false, savedText, eol, kind)
  }

  /** A buffer together with its editing state (two dictionaries with the same
      keys in the program). */
  datatype Buf = Buf(value: BufferValue, st: BufferState)

  datatype WindowValue = WindowValue(buffer: BufferId, point: int, mark: Option<int>)

  /** Marker movement for `count` characters inserted at `at`. */
  function AdjustInsert(mark: Option<int>, at: int, count: int): Option<int> {
    if mark.Some? && at < mark.value then Some(mark.value + count) else mark
  }

  /** Marker movement for the deletion of `[start, end)`. */
  function AdjustDelete(mark: Option<int>, start: int, end: int): Option<int> {
    if mark.None? then None
    else if mark.value >= end then Some(mark.value - (end - start))
    else if mark.value > start then Some(start)
    else mark
  }
}
