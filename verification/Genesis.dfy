/** The evidence a session starts from. */
module Genesis {
  import opened Prelude
  import opened LineEndings
  import opened Buffers
  import opened Transcript
  import opened SessionSpec
  import opened EditingInvariants
  import opened SessionInvariants
  import opened SessionRuns

  datatype Origin = Scratch | ExistingFile | MissingFile | Provided

  datatype InitialBuffer = InitialBuffer(
    id: BufferId, origin: Origin, text: string, point: int, mark: Option<int>,
    filePath: Option<string>, modified: bool, savedText: Option<string>, eol: LineEnding)

  /** What the constructor of the evidence checks. */
  predicate ValidGenesis(g: InitialBuffer) {
    var clean := !g.modified && g.savedText == Some(g.text);
    var named := g.filePath.Some? && g.filePath.value != "";
    && g.id != ""
    && 0 <= g.point <= |g.text| && MarkWithin(g.mark, |g.text|)
    && Canonical(g.text, g.eol)
    && match g.origin
       case Scratch => g.id == "scratch" && g.filePath.None? && g.text == "" && clean && g.eol == LF
       case ExistingFile => named && clean
       case MissingFile => named && g.text == "" && clean && g.eol == LF
       case Provided => if g.modified then g.savedText.None? else clean
  }

  function OpenedGenesis(path: string, v: Visit, existing: bool): InitialBuffer
    requires v.VisitOpened?
  {
    InitialBuffer(Basename(path), if existing then ExistingFile else MissingFile, v.text, 0, None,
                  Some(path), false, Some(v.text), v.eol)
  }

  /** Canonicalise a buffer handed over by a caller, positions included. */
  function PrepareProvided(id: BufferId, raw: BufferValue): InitialBuffer
    requires ValidValue(raw)
  {
    var eol := Detect(raw.text);
    var text := ToBufferText(raw.text, eol);
    var moved := text != raw.text;
    InitialBuffer(id, Provided, text,
                  if moved then ShiftIndex(raw.text, raw.point) else raw.point,
                  if raw.mark.None? then None
                  else Some(if moved then ShiftIndex(raw.text, raw.mark.value) else raw.mark.value),
                  raw.filePath, raw.modified, if raw.modified then None else Some(text), eol)
  }

  function InitialSession(g: InitialBuffer, frame: Option<(nat, nat)>, wording: Wording,
                          disk: map<string, string>): Session {
    var value := BufferValue(g.text, g.point, g.filePath, g.modified, g.mark);
    Session(
      Editor([g.id], map[g.id := Buf(value, FreshState(g.savedText, g.eol, Ordinary))], g.id, [],
             [WindowValue(g.id, g.point, g.mark)], 0, frame, [g.id], map[], map[], map[], wording, disk),
      NO_PROMPT)
  }

  /** Any valid buffer a caller provides becomes valid evidence, and its point
      keeps standing behind the same characters unless it stood inside a pair. */
  lemma ProvidedIsValid(id: BufferId, raw: BufferValue)
    requires ValidValue(raw) && id != ""
    ensures var g := PrepareProvided(id, raw);
      && ValidGenesis(g)
      && ToFileText(g.text, g.eol) == raw.text
      && (g.eol == LF || !InsidePair(raw.text, raw.point) ==>
            g.text[..g.point] == ToBufferText(raw.text[..raw.point], g.eol))
  {
    FileRoundTrip(raw.text);
    ShiftTakesPrefixes(raw.text, raw.point);
    if raw.mark.Some? { ShiftTakesPrefixes(raw.text, raw.mark.value); }
  }

  /** A startup visit is valid evidence, whatever the file holds. */
  lemma OpenedIsValid(disk: map<string, string>, path: string)
    requires ResolveVisit(disk, path, None).VisitOpened?
    ensures ValidGenesis(OpenedGenesis(path, ResolveVisit(disk, path, None), path in disk))
  {
    if path in disk { FileRoundTrip(disk[path]); }
    assert path != "";
  }

  /** A session starts in a state that satisfies every invariant. */
  lemma GenesisStartsOk(g: InitialBuffer, frame: Option<(nat, nat)>, wording: Wording, disk: map<string, string>)
    requires ValidGenesis(g)
    ensures SessionOk(InitialSession(g, frame, wording, disk))
  {
  }

  /** In every reachable state, agent output included: every buffer's history can be
      undone to the end and everything undone redone, each group finding its text at
      its recorded offset and restoring positions within bounds; at most a hundred
      groups are kept; and while a yank is active its bounds hold the entry under the
      cursor. No slice clips and no buffer value is rejected. */
  lemma {:induction false} EveryBufferCanBeUndone(g: InitialBuffer, frame: Option<(nat, nat)>, wording: Wording,
                                                  disk: map<string, string>, inputs: seq<Input>, id: BufferId)
    requires ValidGenesis(g) && id in Run(InitialSession(g, frame, wording, disk), inputs).ed.bufs
    ensures var ed := Run(InitialSession(g, frame, wording, disk), inputs).ed; var b := ed.bufs[id];
      && ValidValue(b.value)
      && UndoChain(b.value.text, b.st.history) && RedoChain(b.value.text, b.st.redo)
      && |b.st.history| + |b.st.redo| <= UNDO_CAPACITY
      && (b.st.yankActive ==>
            && id == ed.current
            && 0 <= b.st.yankStart <= b.st.yankEnd <= |b.value.text| && 0 <= b.st.yankCursor < |ed.ring|
            && b.value.text[b.st.yankStart..b.st.yankEnd] == ed.ring[b.st.yankCursor])
  {
    hide Run, InitialSession, UndoChain, RedoChain, NamesOk, PathsOk, WindowsOk;
    GenesisStartsOk(g, frame, wording, disk);
    RunKeepsSessionOk(InitialSession(g, frame, wording, disk), inputs);
    var ed := Run(InitialSession(g, frame, wording, disk), inputs).ed;
    assert BufOk(ed.bufs[id]);
  }
}
