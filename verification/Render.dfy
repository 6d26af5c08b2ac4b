/** Frames: panes of clipped, sanitized lines above one shared echo row. */
module Render {
  import opened Prelude

  datatype BufferView = BufferView(
    name: string, text: string, point: int, modified: bool, minibuffer: Option<string>, prompt: Option<string>)

  datatype WindowView = WindowView(buffer: BufferView, point: int)

  datatype SessionView = SessionView(
    windows: seq<WindowView>, focused: nat, minibuffer: Option<string>, prompt: Option<string>)

  datatype Frame = Frame(rows: seq<string>, cursor: (int, int), width: nat, height: nat)

  // ---- One row ----

  predicate Control(c: char) {
    var code := c as int;
    code < 0x20 || 0x7F <= code <= 0x9F
  }

  /** Caret notation for a control character. */
  function Caret(c: char): string {
    var code := c as int;
    if code < 0x20 then ['^', (code + 0x40) as char]
    else if code == 0x7F then "^?"
    else if 0x80 <= code <= 0x9F then ['^', (code - 0x40) as char]
    else [c]
  }

  function Sanitize(text: string): string
    decreases |text|
  {
    if text == "" then "" else Caret(text[0]) + Sanitize(text[1..])
  }

  function Spaces(n: nat): string { seq(n, _ => ' ') }

  /** `ljust` of the first `width` characters. */
  function Clip(text: string, width: nat): (row: string)
    ensures |row| == width
  {
    var clipped := Before(Sanitize(text), width);
    clipped + Spaces(width - |clipped|)
  }

  method SanitizeText(text: string) returns (out: string)
    ensures out == Sanitize(text)
  {
    hide Caret;
    out := "";
    var i := 0;
    while i < |text|
      invariant 0 <= i <= |text| && out + Sanitize(text[i..]) == Sanitize(text)
    {
      assert text[i..][1..] == text[i + 1..];
      assert Sanitize(text[i..]) == Caret(text[i]) + Sanitize(text[i + 1..]);
      out := out + Caret(text[i]);
      i := i + 1;
    }
  }

  predicate Printable(row: string) { forall i :: 0 <= i < |row| ==> !Control(row[i]) }

  /** Nothing written to the terminal can be an escape sequence. */
  lemma {:induction false} SanitizedIsPrintable(text: string)
    ensures Printable(Sanitize(text))
    decreases |text|
  {
    if text != "" {
      SanitizedIsPrintable(text[1..]);
      assert Printable(Caret(text[0]));
    }
  }

  lemma ClippedIsPrintable(text: string, width: nat)
    ensures Printable(Clip(text, width))
  {
    SanitizedIsPrintable(text);
  }

  lemma {:induction false} SanitizeConcatenates(a: string, b: string)
    ensures Sanitize(a + b) == Sanitize(a) + Sanitize(b)
    decreases |a|
  {
    if a == "" {
      assert a + b == b;
    } else {
      assert (a + b)[0] == a[0] && (a + b)[1..] == a[1..] + b;
      SanitizeConcatenates(a[1..], b);
    }
  }

  // ---- Lines ----

  /** `text.split("\n")` */
  function Lines(text: string): (lines: seq<string>)
    ensures lines != []
    decreases |text|
  {
    if text == "" then [""]
    else
      var rest := Lines(text[1..]);
      if text[0] == '\n' then [""] + rest else [[text[0]] + rest[0]] + rest[1..]
  }

  function Join(lines: seq<string>): string
    requires lines != []
    decreases |lines|
  {
    if |lines| == 1 then lines[0] else lines[0] + "\n" + Join(lines[1..])
  }

  /** The first line, and what splitting the rest gives. */
  lemma {:induction false} FirstLine(text: string)
    ensures var first := Lines(text)[0];
      && |first| <= |text| && text[..|first|] == first && '\n' !in first
      && (if |Lines(text)| == 1 then text == first
          else |first| < |text| && text[|first|] == '\n' && Lines(text[|first| + 1..]) == Lines(text)[1..])
    decreases |text|
  {
    if text != "" && text[0] != '\n' {
      FirstLine(text[1..]);
      var rest := Lines(text[1..]);
      var first := [text[0]] + rest[0];
      assert Lines(text)[0] == first && Lines(text)[1..] == rest[1..];
      assert text == [text[0]] + text[1..];
      if |rest| > 1 { assert text[|first| + 1..] == text[1..][|rest[0]| + 1..]; }
    }
  }

  /** Splitting loses nothing. */
  lemma {:induction false} LinesJoin(text: string)
    ensures Join(Lines(text)) == text
    ensures forall i :: 0 <= i < |Lines(text)| ==> '\n' !in Lines(text)[i]
    decreases |text|
  {
    FirstLine(text);
    var lines := Lines(text);
    if |lines| > 1 {
      var rest := text[|lines[0]| + 1..];
      LinesJoin(rest);
      assert text == lines[0] + "\n" + rest;
      forall i | 0 <= i < |lines| ensures '\n' !in lines[i] {
        if i > 0 { assert lines[i] == lines[1..][i - 1]; }
      }
    }
  }

  // ---- The body and the cursor ----

  function LineAt(lines: seq<string>, i: nat): string { if i < |lines| then lines[i] else "" }

  function Body(text: string, width: nat, height: int): seq<string> {
    if height <= 0 then [] else seq(height, i requires 0 <= i => Clip(LineAt(Lines(text), i), width))
  }

  method RenderBody(text: string, width: nat, height: int) returns (rows: seq<string>)
    ensures rows == Body(text, width, height)
  {
    rows := [];
    if height <= 0 {
      return;
    }
    var lines := Lines(text);
    var i := 0;
    while i < height
      invariant 0 <= i <= height && |rows| == i
      invariant forall k :: 0 <= k < i ==> rows[k] == Clip(LineAt(lines, k), width)
    {
      rows := rows + [Clip(if i < |lines| then lines[i] else "", width)];
      i := i + 1;
    }
  }

  function Newlines(s: string): nat
    decreases |s|
  {
    if s == "" then 0 else (if s[0] == '\n' then 1 else 0) + Newlines(s[1..])
  }

  /** The text behind the last line break. */
  function LastLine(s: string): string
    decreases |s|
  {
    if '\n' !in s then s else LastLine(s[1..])
  }

  function Min(a: int, b: int): int { if a < b then a else b }
  function Max(a: int, b: int): int { if a > b then a else b }

  /** Where the cursor belongs: as many rows down as there are line breaks before
      point, as far right as the text since the last one is wide. */
  function CursorAt(text: string, width: nat, height: int, at: nat): (int, int)
    requires at <= |text|
  {
    if height <= 0 || width == 0 then (0, 0)
    else (Min(Newlines(text[..at]), height - 1), Min(|Sanitize(LastLine(text[..at]))|, width - 1))
  }

  lemma {:induction false} LineBreaks(a: string, b: string)
    requires '\n' !in b
    ensures Newlines(a + b) == Newlines(a)
    ensures a == "" || a[|a| - 1] == '\n' ==> LastLine(a + b) == b
    decreases |a|
  {
    if a == "" {
      assert a + b == b;
      NoLineBreaks(b);
    } else {
      assert (a + b)[1..] == a[1..] + b && (a + b)[0] == a[0];
      LineBreaks(a[1..], b);
      if a[|a| - 1] == '\n' { assert (a + b)[|a| - 1] == '\n'; }
    }
  }

  lemma {:induction false} NoLineBreaks(b: string)
    requires '\n' !in b
    ensures Newlines(b) == 0
    decreases |b|
  {
    if b != "" {
      assert b[0] in b;
      NoLineBreaks(b[1..]);
    }
  }

  lemma {:induction false} NewlinesConcatenate(a: string, b: string)
    ensures Newlines(a + b) == Newlines(a) + Newlines(b)
    decreases |a|
  {
    if a == "" {
      assert a + b == b;
    } else {
      assert (a + b)[1..] == a[1..] + b && (a + b)[0] == a[0];
      NewlinesConcatenate(a[1..], b);
    }
  }

  lemma AtTheTop(text: string)
    ensures text[0..] == text && text[..0] == "" && Newlines("") == 0
  {
  }

  /** Point on the line that starts at `start`. */
  lemma PointIsHere(text: string, start: nat, at: nat)
    requires start <= at <= |text| && (start == 0 || text[start - 1] == '\n')
    requires at - start <= |Lines(text[start..])[0]|
    ensures Newlines(text[..at]) == Newlines(text[..start])
    ensures LastLine(text[..at]) == Lines(text[start..])[0][..at - start]
  {
    hide Lines, Newlines, LastLine;
    var rest := text[start..];
    var line := Lines(rest)[0];
    FirstLine(rest);
    assert text[..at] == text[..start] + line[..at - start] by {
      assert text[start..at] == rest[..at - start] == rest[..|line|][..at - start];
    }
    LineBreaks(text[..start], line[..at - start]);
  }

  /** Point beyond the line that starts at `start`: the next line starts behind its break. */
  lemma LineIsAbove(text: string, start: nat, at: nat)
    requires start <= at <= |text| && at - start > |Lines(text[start..])[0]|
    ensures var lines := Lines(text[start..]); var next := start + |lines[0]| + 1;
      && |lines| > 1 && next <= at && text[next - 1] == '\n'
      && Lines(text[next..]) == lines[1..] && Newlines(text[..next]) == Newlines(text[..start]) + 1
  {
    hide Lines, Newlines;
    var rest := text[start..];
    var line := Lines(rest)[0];
    FirstLine(rest);
    assert text[start + |line| + 1..] == rest[|line| + 1..];
    assert text[..start + |line| + 1] == text[..start] + (line + "\n") by {
      assert rest[..|line| + 1] == line + "\n";
    }
    NewlinesConcatenate(line, "\n");
    NoLineBreaks(line);
    OneLineBreak();
    NewlinesConcatenate(text[..start], line + "\n");
  }

  lemma OneLineBreak()
    ensures Newlines("\n") == 1
  {
    assert "\n"[1..] == "";
  }

  method CursorPosition(text: string, width: nat, height: int, at: nat) returns (cursor: (int, int))
    requires at <= |text|
    ensures cursor == CursorAt(text, width, height, at)
  {
    hide Sanitize, Lines, Newlines, LastLine;
    if height <= 0 || width == 0 {
      return (0, 0);
    }
    var lines := Lines(text);
    var remaining, row := at, 0;
    AtTheTop(text);
    while row < |lines|
      invariant 0 <= row < |lines| && 0 <= remaining <= at
      invariant Lines(text[at - remaining..]) == lines[row..]
      invariant Newlines(text[..at - remaining]) == row
      invariant at - remaining == 0 || text[at - remaining - 1] == '\n'
      decreases |lines| - row
    {
      ghost var start := at - remaining;
      var line := lines[row];
      assert lines[row..][0] == line && lines[row..][1..] == lines[row + 1..];
      if remaining <= |line| {
        PointIsHere(text, start, at);
        cursor := (Min(row, height - 1), Min(|Sanitize(line[..remaining])|, width - 1));
        return;
      }
      LineIsAbove(text, start, at);
      remaining := remaining - (|line| + 1);
      row := row + 1;
    }
    assert false;
  }

  // ---- Panes ----

  /** Even heights, the remainder to the bottom pane. */
  function Heights(budget: int, count: nat): (heights: seq<int>)
    requires count > 0
    ensures |heights| == count
  {
    var base := budget / count;
    seq(count, i => if i == count - 1 then base + (budget - base * count) else base)
  }

  method WindowHeights(budget: nat, count: nat) returns (heights: seq<int>)
    requires count > 0
    ensures heights == Heights(budget, count)
  {
    var base := budget / count;
    heights := seq(count, _ => base);
    heights := heights[count - 1 := heights[count - 1] + (budget - base * count)];
  }

  function Sum(xs: seq<int>): int
    decreases |xs|
  {
    if xs == [] then 0 else xs[0] + Sum(xs[1..])
  }

  lemma {:induction false} SumOfEqual(xs: seq<int>, base: int)
    requires xs != [] && forall i :: 0 <= i < |xs| - 1 ==> xs[i] == base
    ensures Sum(xs) == base * (|xs| - 1) + xs[|xs| - 1]
    decreases |xs|
  {
    if |xs| > 1 {
      SumOfEqual(xs[1..], base);
      assert base * (|xs| - 1) == base + base * (|xs| - 2);
    } else {
      assert xs[1..] == [];
    }
  }

  lemma HeightsAre(budget: nat, count: nat)
    requires count > 0
    ensures var hs, base := Heights(budget, count), budget / count;
      (forall i :: 0 <= i < count - 1 ==> hs[i] == base) && hs[count - 1] == base + (budget - base * count)
      && base * count <= budget
  {
  }

  /** Panes fill the budget exactly, and beside other panes none is under two rows. */
  lemma HeightsFill(budget: nat, windows: nat)
    requires windows > 0 && budget > 0
    ensures var count := Visible(budget, windows); var heights := Heights(budget, count);
      && 1 <= count <= windows
      && Sum(heights) == budget
      && (forall i :: 0 <= i < count ==> heights[i] >= 1)
      && (count > 1 ==> forall i :: 0 <= i < count ==> heights[i] >= 2)
  {
    hide Heights;
    var count := Visible(budget, windows);
    var base := budget / count;
    HeightsAre(budget, count);
    SumOfEqual(Heights(budget, count), base);
    assert base * (count - 1) == base * count - base;
    if count > 1 {
      assert 2 * count <= budget;
      BaseAtLeast(budget, count);
    }
  }

  lemma BaseAtLeast(budget: nat, count: nat)
    requires count > 0 && 2 * count <= budget
    ensures budget / count >= 2
  {
  }

  /** How many panes fit with a body and a mode line each. */
  function Visible(budget: nat, windows: nat): int { Min(windows, Max(budget / 2, 1)) }

  /** The first visible window: focus stands in the upper middle where the ends permit. */
  function FirstVisible(windows: nat, focused: nat, visible: int): int {
    Min(Max(focused - (visible - 1) / 2, 0), windows - visible)
  }

  /** The visible panes are a contiguous slice of the stack around focus. */
  lemma SliceHoldsFocus(windows: nat, focused: nat, budget: nat)
    requires focused < windows && budget > 0
    ensures var count := Visible(budget, windows); var start := FirstVisible(windows, focused, count);
      0 <= start <= focused < start + count <= windows
  {
  }

  function ModeLine(b: BufferView): string {
    "Drei: " + b.name + (if b.modified then " **" else " --")
  }

  /** A note rides an open prompt as a suffix. */
  function Noted(prompt: Option<string>, note: string): string {
    var p := if prompt.Some? then prompt.value else "";
    if note != "" then p + "[" + note + "]" else p
  }

  function Pane(b: BufferView, width: nat, height: int): seq<string> {
    Body(b.text, width, height - 1) + [Clip(ModeLine(b), width)]
  }

  function Stack(windows: seq<WindowView>, heights: seq<int>, width: nat): seq<string>
    requires |windows| == |heights|
    decreases |windows|
  {
    if windows == [] then []
    else Pane(windows[0].buffer, width, heights[0]) + Stack(windows[1..], heights[1..], width)
  }

  /** Every view renders its text at points inside it. */
  predicate Sound(v: SessionView) {
    v.focused < |v.windows| && 0 <= v.windows[v.focused].point <= |v.windows[v.focused].buffer.text|
  }

  function SingleRow(b: BufferView, width: nat, echo: string, note: string, minibuffer: Option<string>, prompt: Option<string>): Frame {
    match minibuffer
    case Some(input) =>
      var content := Noted(prompt, note) + input;
      Frame([Clip(content, width)], (0, Min(|Sanitize(content)|, Max(width - 1, 0))), width, 1)
    case None => Frame([Clip(if echo != "" then echo else ModeLine(b), width)], (0, 0), width, 1)
  }

  function SessionFrame(v: SessionView, width: nat, height: nat, echo: string, note: string): Frame
    requires Sound(v)
  {
    if height == 0 then Frame([], (0, 0), width, height)
    else if height == 1 then
      SingleRow(v.windows[v.focused].buffer, width, echo, note, v.minibuffer, v.prompt)
    else
      var count := Visible(height - 1, |v.windows|);
      var start := FirstVisible(|v.windows|, v.focused, count);
      var heights := Heights(height - 1, count);
      SliceHoldsFocus(|v.windows|, v.focused, height - 1);
      var shown := v.windows[start..start + count];
      var slot := v.focused - start;
      var content := if v.minibuffer.Some? then Noted(v.prompt, note) + v.minibuffer.value else echo;
      var w := v.windows[v.focused];
      var at := CursorAt(w.buffer.text, width, heights[slot] - 1, w.point);
      Frame(Stack(shown, heights, width) + [Clip(content, width)],
            if v.minibuffer.Some? then (height - 1, Min(|Sanitize(content)|, Max(width - 1, 0)))
            else (Sum(heights[..slot]) + at.0, at.1),
            width, height)
  }

  function BufferFrame(b: BufferView, width: nat, height: nat, echo: string, note: string): Frame
    requires 0 <= b.point <= |b.text|
  {
    if height == 0 then Frame([], (0, 0), width, height)
    else if height == 1 then SingleRow(b, width, echo, note, b.minibuffer, b.prompt)
    else
      var body := Body(b.text, width, height - 2);
      match b.minibuffer
      case Some(input) =>
        var content := Noted(b.prompt, note) + input;
        Frame(body + [Clip(ModeLine(b), width), Clip(content, width)],
              (|body| + 1, Max(Min(|Sanitize(content)|, width - 1), 0)), width, height)
      case None =>
        Frame(body + [Clip(ModeLine(b), width), Clip(echo, width)],
              CursorAt(b.text, width, height - 2, b.point), width, height)
  }

  // ---- As the program draws it ----

  lemma {:induction false} StackGrows(windows: seq<WindowView>, heights: seq<int>, width: nat, k: nat)
    requires |windows| == |heights| && k < |windows|
    ensures Stack(windows[..k + 1], heights[..k + 1], width)
            == Stack(windows[..k], heights[..k], width) + Pane(windows[k].buffer, width, heights[k])
    decreases |windows|
  {
    hide Pane;
    if k == 0 {
      assert windows[..1][1..] == [] && windows[..0] == [];
      assert heights[..1][1..] == [];
    } else {
      assert windows[..k + 1][1..] == windows[1..][..k] && heights[..k + 1][1..] == heights[1..][..k];
      assert windows[..k][1..] == windows[1..][..k - 1] && heights[..k][1..] == heights[1..][..k - 1];
      StackGrows(windows[1..], heights[1..], width, k - 1);
    }
  }

  lemma {:induction false} SumGrows(xs: seq<int>, k: nat)
    requires k < |xs|
    ensures Sum(xs[..k + 1]) == Sum(xs[..k]) + xs[k]
    decreases |xs|
  {
    if k == 0 {
      assert xs[..1][1..] == [];
    } else {
      assert xs[..k + 1][1..] == xs[1..][..k] && xs[..k][1..] == xs[1..][..k - 1];
      SumGrows(xs[1..], k - 1);
    }
  }

  /** The visible panes from the top down, and the cursor in the focused one. */
  method DrawPanes(v: SessionView, start: nat, heights: seq<int>, width: nat, before: (int, int))
    returns (rows: seq<string>, cursor: (int, int))
    requires Sound(v) && start <= v.focused < start + |heights| <= |v.windows|
    ensures rows == Stack(v.windows[start..start + |heights|], heights, width)
    ensures cursor == FocusCursor(v, start, heights, width, before)
  {
    hide Clip, Body, CursorAt;
    ghost var shown := v.windows[start..start + |heights|];
    var slot := v.focused - start;
    rows, cursor := [], before;
    var offset, i := 0, 0;
    while i < |heights|
      invariant 0 <= i <= |heights|
      invariant rows == Stack(shown[..i], heights[..i], width) && offset == Sum(heights[..i])
      invariant cursor == if i <= slot then before else FocusCursor(v, start, heights, width, before)
    {
      var w := v.windows[start + i];
      assert shown[i] == w;
      StackGrows(shown, heights, width, i);
      SumGrows(heights, i);
      var body := RenderBody(w.buffer.text, width, heights[i] - 1);
      rows := rows + (body + [Clip(ModeLine(w.buffer), width)]);
      if start + i == v.focused && v.minibuffer.None? {
        var at := CursorPosition(w.buffer.text, width, heights[i] - 1, w.point);
        cursor := (at.0 + offset, at.1);
      }
      offset := offset + heights[i];
      i := i + 1;
    }
    assert shown[..|heights|] == shown && heights[..|heights|] == heights;
  }

  function FocusCursor(v: SessionView, start: nat, heights: seq<int>, width: nat, before: (int, int)): (int, int)
    requires Sound(v) && start <= v.focused < start + |heights|
  {
    var w, slot := v.windows[v.focused], v.focused - start;
    var at := CursorAt(w.buffer.text, width, heights[slot] - 1, w.point);
    if v.minibuffer.None? then (Sum(heights[..slot]) + at.0, at.1) else before
  }

  method RenderSession(v: SessionView, width: nat, height: nat, echo: string, note: string) returns (frame: Frame)
    requires Sound(v)
    ensures frame == SessionFrame(v, width, height, echo, note)
  {
    hide Clip, Noted, CursorAt, Visible, FirstVisible, Heights, Stack, Sum;
    if height == 0 {
      return Frame([], (0, 0), width, height);
    }
    if height == 1 {
      return SingleRow(v.windows[v.focused].buffer, width, echo, note, v.minibuffer, v.prompt);
    }
    var budget := height - 1;
    var count := Visible(budget, |v.windows|);
    var start := FirstVisible(|v.windows|, v.focused, count);
    SliceHoldsFocus(|v.windows|, v.focused, budget);
    var heights := WindowHeights(budget, count);
    var echoRow, cursor := Clip(echo, width), (0, 0);
    if v.minibuffer.Some? {
      var content := Noted(v.prompt, note) + v.minibuffer.value;
      echoRow := Clip(content, width);
      var shown := SanitizeText(content);
      cursor := (height - 1, Min(|shown|, Max(width - 1, 0)));
    }
    var rows;
    rows, cursor := DrawPanes(v, start, heights, width, cursor);
    frame := Frame(rows + [echoRow], cursor, width, height);
  }

  method RenderBuffer(b: BufferView, width: nat, height: nat, echo: string, note: string) returns (frame: Frame)
    requires 0 <= b.point <= |b.text|
    ensures frame == BufferFrame(b, width, height, echo, note)
  {
    hide Clip, Noted, Body, CursorAt;
    if height == 0 {
      return Frame([], (0, 0), width, height);
    }
    if height == 1 {
      return SingleRow(b, width, echo, note, b.minibuffer, b.prompt);
    }
    var body := RenderBody(b.text, width, height - 2);
    var mode := Clip(ModeLine(b), width);
    if b.minibuffer.Some? {
      var content := Noted(b.prompt, note) + b.minibuffer.value;
      var shown := SanitizeText(content);
      return Frame(body + [mode, Clip(content, width)], (|body| + 1, Max(Min(|shown|, width - 1), 0)), width, height);
    }
    var cursor := CursorPosition(b.text, width, height - 2, b.point);
    frame := Frame(body + [mode, Clip(echo, width)], cursor, width, height);
  }

  // ---- What every frame is ----

  /** Exactly `height` rows of exactly `width` printable characters. */
  predicate Framed(f: Frame, width: nat, height: nat) {
    && |f.rows| == height && f.width == width && f.height == height
    && (forall i :: 0 <= i < height ==> |f.rows[i]| == width && Printable(f.rows[i]))
  }

  predicate CursorInside(f: Frame) {
    && 0 <= f.cursor.0 < Max(f.height, 1)
    && 0 <= f.cursor.1 < Max(f.width, 1)
  }

  predicate RowsOk(rows: seq<string>, width: nat) {
    forall i :: 0 <= i < |rows| ==> |rows[i]| == width && Printable(rows[i])
  }

  lemma PaneRows(b: BufferView, width: nat, height: int)
    requires height >= 1
    ensures |Pane(b, width, height)| == height && RowsOk(Pane(b, width, height), width)
  {
    hide Clip;
    ClippedIsPrintable(ModeLine(b), width);
    forall i | 0 <= i < height - 1 ensures Printable(Clip(LineAt(Lines(b.text), i), width)) {
      ClippedIsPrintable(LineAt(Lines(b.text), i), width);
    }
  }

  lemma {:induction false} StackRows(windows: seq<WindowView>, heights: seq<int>, width: nat)
    requires |windows| == |heights| && forall i :: 0 <= i < |heights| ==> heights[i] >= 1
    ensures |Stack(windows, heights, width)| == Sum(heights) && RowsOk(Stack(windows, heights, width), width)
    decreases |windows|
  {
    hide Pane, Printable;
    if windows != [] {
      PaneRows(windows[0].buffer, width, heights[0]);
      StackRows(windows[1..], heights[1..], width);
    }
  }

  /** The rows above a pane, and those it takes, stay within the stack. */
  lemma {:induction false} PaneWithin(heights: seq<int>, slot: nat)
    requires slot < |heights| && forall i :: 0 <= i < |heights| ==> heights[i] >= 1
    ensures 0 <= Sum(heights[..slot]) && Sum(heights[..slot]) + heights[slot] <= Sum(heights)
    decreases |heights|
  {
    if slot == 0 {
      assert heights[..0] == [];
      if |heights| > 1 { PaneWithin(heights[1..], 0); } else { assert heights[1..] == []; }
      if |heights| > 1 { assert Sum(heights[1..][..0]) == 0; }
    } else {
      assert heights[..slot][1..] == heights[1..][..slot - 1];
      PaneWithin(heights[1..], slot - 1);
    }
  }

  /** For every size and every session view: the frame has the size asked for, every
      row is printable, and the cursor stands inside it. */
  lemma SessionFrameIsFramed(v: SessionView, width: nat, height: nat, echo: string, note: string)
    requires Sound(v)
    ensures var f := SessionFrame(v, width, height, echo, note); Framed(f, width, height) && CursorInside(f)
  {
    hide Clip, Noted, Stack, Sum, Heights, Visible, FirstVisible, ModeLine, Sanitize, LastLine, Newlines, Printable;
    if height == 1 {
      SingleRowFramed(v.windows[v.focused].buffer, width, echo, note, v.minibuffer, v.prompt);
    } else if height > 1 {
      var count := Visible(height - 1, |v.windows|);
      var start := FirstVisible(|v.windows|, v.focused, count);
      HeightsFill(height - 1, |v.windows|);
      SliceHoldsFocus(|v.windows|, v.focused, height - 1);
      var heights := Heights(height - 1, count);
      StackRows(v.windows[start..start + count], heights, width);
      PaneWithin(heights, v.focused - start);
      ClippedIsPrintable(if v.minibuffer.Some? then Noted(v.prompt, note) + v.minibuffer.value else echo, width);
    }
  }

  lemma SingleRowFramed(b: BufferView, width: nat, echo: string, note: string, minibuffer: Option<string>, prompt: Option<string>)
    ensures var f := SingleRow(b, width, echo, note, minibuffer, prompt); Framed(f, width, 1) && CursorInside(f)
  {
    hide Clip, Noted, ModeLine, Printable, Sanitize;
    ClippedIsPrintable(if minibuffer.Some? then Noted(prompt, note) + minibuffer.value
                       else if echo != "" then echo else ModeLine(b), width);
  }

  lemma BufferFrameIsFramed(b: BufferView, width: nat, height: nat, echo: string, note: string)
    requires 0 <= b.point <= |b.text|
    ensures var f := BufferFrame(b, width, height, echo, note); Framed(f, width, height) && CursorInside(f)
  {
    var v := SessionView([WindowView(b, b.point)], 0, b.minibuffer, b.prompt);
    SingleWindowIsBuffer(b, width, height, echo, note);
    SessionFrameIsFramed(v, width, height, echo, note);
  }

  /** One window draws exactly what the buffer alone would. */
  lemma SingleWindowIsBuffer(b: BufferView, width: nat, height: nat, echo: string, note: string)
    requires 0 <= b.point <= |b.text|
    ensures SessionFrame(SessionView([WindowView(b, b.point)], 0, b.minibuffer, b.prompt), width, height, echo, note)
            == BufferFrame(b, width, height, echo, note)
  {
    hide Clip, Noted, CursorAt, ModeLine, Sanitize;
    if height > 1 {
      var windows := [WindowView(b, b.point)];
      var heights := Heights(height - 1, 1);
      assert heights == [height - 1] && heights[..0] == [] && windows[1..] == [] && windows[0..1] == windows;
      assert Stack(windows, heights, width) == Pane(b, width, height - 1) + [];
    }
  }

  /** Unclipped, the cursor stands right behind the text before point: its row shows,
      up to its column, exactly the sanitized line before point. */
  lemma CursorFollowsText(text: string, width: nat, height: int, at: nat)
    requires at <= |text| && height > 0
    requires Newlines(text[..at]) < height && |Sanitize(LastLine(text[..at]))| < width
    ensures var c := CursorAt(text, width, height, at);
      Body(text, width, height)[c.0][..c.1] == Sanitize(LastLine(text[..at]))
  {
    hide Sanitize;
    PointIsOnItsLine(text, at);
    var row, before := Newlines(text[..at]), LastLine(text[..at]);
    var line := Lines(text)[row];
    SanitizeConcatenates(before, line[|before|..]);
    assert line == before + line[|before|..];
  }

  /** As many lines down as there are line breaks before point, the line starts with
      the text behind the last of them. */
  lemma {:induction false} PointIsOnItsLine(text: string, at: nat)
    requires at <= |text|
    ensures var row, before := Newlines(text[..at]), LastLine(text[..at]);
      row < |Lines(text)| && |before| <= |Lines(text)[row]| && Lines(text)[row][..|before|] == before
    decreases |text|
  {
    hide Lines, Newlines, LastLine;
    var first := Lines(text)[0];
    FirstLine(text);
    if at <= |first| {
      AtTheTop(text);
      PointIsHere(text, 0, at);
    } else {
      var k := |first| + 1;
      var rest, left := text[k..], at - k;
      PointIsOnItsLine(rest, left);
      assert text[..at] == first + "\n" + rest[..left];
      NoLineBreaks(first);
      OneLineBreak();
      NewlinesConcatenate(first, "\n");
      NewlinesConcatenate(first + "\n", rest[..left]);
      LastLineSkips(first, rest[..left]);
      assert Lines(text)[1..][Newlines(rest[..left])] == Lines(text)[1 + Newlines(rest[..left])];
    }
  }

  lemma {:induction false} LastLineSkips(a: string, b: string)
    ensures LastLine(a + "\n" + b) == LastLine(b)
    decreases |a|
  {
    var whole := a + "\n" + b;
    assert whole[|a|] == '\n';
    if a == "" {
      assert whole[1..] == b;
    } else {
      assert whole[1..] == a[1..] + "\n" + b;
      LastLineSkips(a[1..], b);
    }
  }

  // ---- Where things stand in a frame ----

  lemma {:induction false} PaneStandsAt(windows: seq<WindowView>, heights: seq<int>, width: nat, k: nat)
    requires |windows| == |heights| && k < |heights| && forall i :: 0 <= i < |heights| ==> heights[i] >= 1
    ensures var at := Sum(heights[..k]);
      && 0 <= at && at + heights[k] <= |Stack(windows, heights, width)|
      && Stack(windows, heights, width)[at..at + heights[k]] == Pane(windows[k].buffer, width, heights[k])
    decreases |windows|
  {
    hide Pane;
    PaneRows(windows[0].buffer, width, heights[0]);
    var first, rest := Pane(windows[0].buffer, width, heights[0]), Stack(windows[1..], heights[1..], width);
    if k == 0 {
      assert heights[..0] == [];
      assert (first + rest)[..heights[0]] == first;
    } else {
      assert heights[..k][1..] == heights[1..][..k - 1];
      PaneStandsAt(windows[1..], heights[1..], width, k - 1);
      var at := Sum(heights[1..][..k - 1]);
      assert (first + rest)[heights[0] + at..heights[0] + at + heights[k]] == rest[at..at + heights[k]];
    }
  }

  /** A frame of two rows or more is a contiguous slice of whole panes around focus,
      filling all but the echo row; beside others no pane is under two rows. */
  lemma FrameGeometry(v: SessionView, width: nat, height: nat, echo: string, note: string)
    requires Sound(v) && height >= 2
    ensures var count := Visible(height - 1, |v.windows|);
      && count >= 1
      && var heights, start := Heights(height - 1, count), FirstVisible(|v.windows|, v.focused, count);
         var f := SessionFrame(v, width, height, echo, note);
         && 0 <= start <= v.focused < start + count <= |v.windows|
         && Sum(heights) == height - 1 && (count > 1 ==> forall k :: 0 <= k < count ==> heights[k] >= 2)
         && (forall k :: 0 <= k < count ==>
               && 0 <= Sum(heights[..k]) && 0 <= heights[k] && Sum(heights[..k]) + heights[k] < |f.rows|
               && f.rows[Sum(heights[..k])..Sum(heights[..k]) + heights[k]] == Pane(v.windows[start + k].buffer, width, heights[k]))
  {
    hide Clip, Noted, Stack, Sum, Heights, Visible, FirstVisible, Pane, CursorAt, Sanitize;
    SliceHoldsFocus(|v.windows|, v.focused, height - 1);
    HeightsFill(height - 1, |v.windows|);
    var count := Visible(height - 1, |v.windows|);
    var start := FirstVisible(|v.windows|, v.focused, count);
    var heights := Heights(height - 1, count);
    var shown := v.windows[start..start + count];
    var content := if v.minibuffer.Some? then Noted(v.prompt, note) + v.minibuffer.value else echo;
    PanesStand(shown, heights, width, [Clip(content, width)]);
    assert forall k :: 0 <= k < count ==> shown[k] == v.windows[start + k];
  }

  /** With no prompt open the cursor stands in the focused pane. */
  lemma CursorInFocus(v: SessionView, width: nat, height: nat, echo: string, note: string)
    requires Sound(v) && height >= 2 && v.minibuffer.None?
    ensures var count := Visible(height - 1, |v.windows|); var start := FirstVisible(|v.windows|, v.focused, count);
      && count >= 1 && 0 <= v.focused - start < count
      && var heights, slot := Heights(height - 1, count), v.focused - start;
         Sum(heights[..slot]) <= SessionFrame(v, width, height, echo, note).cursor.0 < Sum(heights[..slot]) + heights[slot]
  {
    hide Clip, Noted, Stack, Sum, Heights, Visible, FirstVisible, CursorAt, Sanitize;
    SliceHoldsFocus(|v.windows|, v.focused, height - 1);
    HeightsFill(height - 1, |v.windows|);
    var count := Visible(height - 1, |v.windows|);
    var heights := Heights(height - 1, count);
    var w, slot := v.windows[v.focused], v.focused - FirstVisible(|v.windows|, v.focused, count);
    CursorAtWithin(w.buffer.text, width, heights[slot] - 1, w.point);
  }

  lemma CursorAtWithin(text: string, width: nat, height: int, at: nat)
    requires at <= |text| && height >= 0
    ensures 0 <= CursorAt(text, width, height, at).0 < Max(height, 1)
  {
  }

  lemma PanesStand(windows: seq<WindowView>, heights: seq<int>, width: nat, below: seq<string>)
    requires |windows| == |heights| && below != [] && forall i :: 0 <= i < |heights| ==> heights[i] >= 1
    ensures var rows := Stack(windows, heights, width) + below;
      forall k :: 0 <= k < |heights| ==>
        && 0 <= Sum(heights[..k]) && 0 <= heights[k] && Sum(heights[..k]) + heights[k] < |rows|
        && rows[Sum(heights[..k])..Sum(heights[..k]) + heights[k]] == Pane(windows[k].buffer, width, heights[k])
  {
    hide Stack, Sum, Pane;
    var stack := Stack(windows, heights, width);
    var rows := stack + below;
    forall k | 0 <= k < |heights|
      ensures 0 <= Sum(heights[..k]) && 0 <= heights[k] && Sum(heights[..k]) + heights[k] < |rows|
      ensures rows[Sum(heights[..k])..Sum(heights[..k]) + heights[k]] == Pane(windows[k].buffer, width, heights[k])
    {
      PaneStandsAt(windows, heights, width, k);
      var at := Sum(heights[..k]);
      assert rows[at..at + heights[k]] == stack[at..at + heights[k]];
    }
  }

  /** The cell the cursor stands on is the one behind the text before point. */
  lemma CursorShowsPoint(v: SessionView, width: nat, height: nat, echo: string, note: string)
    requires Sound(v) && height >= 2 && v.minibuffer.None?
    requires var count := Visible(height - 1, |v.windows|); var start := FirstVisible(|v.windows|, v.focused, count);
      && 0 <= v.focused - start < count
      && var w := v.windows[v.focused];
         Newlines(w.buffer.text[..w.point]) < Heights(height - 1, count)[v.focused - start] - 1
         && |Sanitize(LastLine(w.buffer.text[..w.point]))| < width
    ensures var f, w := SessionFrame(v, width, height, echo, note), v.windows[v.focused];
      && 0 <= f.cursor.0 < |f.rows| && 0 <= f.cursor.1 <= |f.rows[f.cursor.0]|
      && f.rows[f.cursor.0][..f.cursor.1] == Sanitize(LastLine(w.buffer.text[..w.point]))
  {
    hide Clip, Noted, Stack, Sum, Heights, Visible, FirstVisible, Body, Sanitize, LastLine, Newlines;
    FrameGeometry(v, width, height, echo, note);
    SessionFrameIsFramed(v, width, height, echo, note);
    var count := Visible(height - 1, |v.windows|);
    var start := FirstVisible(|v.windows|, v.focused, count);
    var heights := Heights(height - 1, count);
    var slot, w := v.focused - start, v.windows[v.focused];
    var f, at := SessionFrame(v, width, height, echo, note), Sum(heights[..slot]);
    var row := Newlines(w.buffer.text[..w.point]);
    CursorFollowsText(w.buffer.text, width, heights[slot] - 1, w.point);
    BodyLength(w.buffer.text, width, heights[slot] - 1);
    assert f.rows[at..at + heights[slot]][row] == f.rows[at + row];
    assert Pane(w.buffer, width, heights[slot])[row] == Body(w.buffer.text, width, heights[slot] - 1)[row];
  }

  lemma BodyLength(text: string, width: nat, height: nat)
    ensures |Body(text, width, height)| == height
  {
  }
}

/** Frames of a running session. */
module SessionFrames {
  import opened Prelude
  import opened Buffers
  import opened Transcript
  import opened Events
  import opened SessionSpec
  import opened SessionInvariants
  import opened SessionRuns
  import opened Genesis
  import opened Render

  /** The read model of one buffer, with the shared minibuffer. */
  function ObserveBuffer(s: Session, words: Label -> string, id: BufferId): BufferView {
    var v := BufOf(s.ed, id).value;
    BufferView(id, v.text, v.point, v.modified, s.pr.input, if s.pr.input.Some? then Some(words(s.pr.prompt)) else None)
  }

  function Observe(s: Session, words: Label -> string): SessionView {
    SessionView(
      seq(|s.ed.windows|, i requires 0 <= i < |s.ed.windows| =>
          WindowView(ObserveBuffer(s, words, s.ed.windows[i].buffer), s.ed.windows[i].point)),
      s.ed.focused, s.pr.input, if s.pr.input.Some? then Some(words(s.pr.prompt)) else None)
  }

  /** In every reachable state the focused window shows the current buffer at its
      live point, so at every size the frame is well formed with its cursor inside;
      and a session with one window is drawn as that buffer alone. */
  lemma {:induction false} EveryStateIsDrawable(
      g: InitialBuffer, frame: Option<(nat, nat)>, wording: Wording, disk: map<string, string>, inputs: seq<Input>,
      words: Label -> string, width: nat, height: nat, echo: string, note: string)
    requires ValidGenesis(g)
    ensures var s := Run(InitialSession(g, frame, wording, disk), inputs); var v := Observe(s, words);
      && Sound(v)
      && v.windows[v.focused].buffer == ObserveBuffer(s, words, s.ed.current)
      && v.windows[v.focused].point == Current(s.ed).value.point
      && s.ed.windows[s.ed.focused].mark == Current(s.ed).value.mark
      && Framed(SessionFrame(v, width, height, echo, note), width, height)
      && CursorInside(SessionFrame(v, width, height, echo, note))
      && (|v.windows| == 1 ==>
            SessionFrame(v, width, height, echo, note)
            == BufferFrame(ObserveBuffer(s, words, s.ed.current), width, height, echo, note))
  {
    hide Run, InitialSession, SessionOk, SessionFrame, BufferFrame, Framed, CursorInside;
    GenesisStartsOk(g, frame, wording, disk);
    RunKeepsSessionOk(InitialSession(g, frame, wording, disk), inputs);
    var s := Run(InitialSession(g, frame, wording, disk), inputs);
    var v := Observe(s, words);
    FocusIsLive(s, words);
    SessionFrameIsFramed(v, width, height, echo, note);
    if |v.windows| == 1 {
      var b := ObserveBuffer(s, words, s.ed.current);
      SingleWindowIsBuffer(b, width, height, echo, note);
      assert v.windows == [WindowView(b, b.point)];
    }
  }

  lemma FocusIsLive(s: Session, words: Label -> string)
    requires SessionOk(s)
    ensures var v := Observe(s, words);
      && Sound(v)
      && v.windows[v.focused] == WindowView(ObserveBuffer(s, words, s.ed.current), Current(s.ed).value.point)
      && s.ed.windows[s.ed.focused].mark == Current(s.ed).value.mark
  {
    assert BufOk(s.ed.bufs[s.ed.current]);
  }
}
