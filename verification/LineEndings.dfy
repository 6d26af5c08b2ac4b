/** Line-ending policy: what a file's text becomes in a buffer, and back. */
module LineEndings {
  import opened Prelude

  datatype LineEnding = LF | CRLF

  /** `CRLF in text` */
  predicate HasPair(s: string) {
    exists i :: 0 <= i < |s| - 1 && s[i] == '\r' && s[i + 1] == '\n'
  }

  /** `s.replace(CRLF, with)`: left to right, without overlaps. */
  function ReplacePairs(s: string, with: string): string {
    if |s| >= 2 && s[0] == '\r' && s[1] == '\n' then with + ReplacePairs(s[2..], with)
    else if s == "" then ""
    else [s[0]] + ReplacePairs(s[1..], with)
  }

  /** `s.replace(LF, CRLF)` */
  function ExpandNewlines(s: string): string {
    if s == "" then ""
    else (if s[0] == '\n' then "\r\n" else [s[0]]) + ExpandNewlines(s[1..])
  }

  /** `s.count(CRLF)` */
  function CountPairs(s: string): nat {
    if |s| >= 2 && s[0] == '\r' && s[1] == '\n' then 1 + CountPairs(s[2..])
    else if s == "" then 0
    else CountPairs(s[1..])
  }

  function Detect(text: string): LineEnding {
    if !HasPair(text) then LF
    else
      var rest := ReplacePairs(text, "");
      if '\r' in rest || '\n' in rest then LF else CRLF
  }

  function ToBufferText(fileText: string, eol: LineEnding): string {
    if eol == CRLF then ReplacePairs(fileText, "\n") else fileText
  }

  function ToFileText(bufferText: string, eol: LineEnding): string {
    if eol != CRLF then bufferText
    else ExpandNewlines(ReplacePairs(bufferText, "\n"))
  }

  /** A file index translated to a buffer index. */
  function ShiftIndex(fileText: string, index: nat): int {
    index - CountPairs(Slice(fileText, 0, index))
  }

  // ---- What uniform CRLF text is, said without replacement ----

  /** Every CR is followed by LF and every LF preceded by CR. */
  ghost predicate Paired(s: string) {
    && (forall i :: 0 <= i < |s| && s[i] == '\r' ==> i + 1 < |s| && s[i + 1] == '\n')
    && (forall i :: 0 <= i < |s| && s[i] == '\n' ==> i > 0 && s[i - 1] == '\r')
  }

  lemma {:induction false} PairedTail(s: string)
    requires Paired(s) && s != ""
    ensures s[0] == '\r' ==> |s| >= 2 && s[1] == '\n' && Paired(s[2..])
    ensures s[0] != '\r' ==> s[0] != '\n' && Paired(s[1..])
  {
    if s[0] == '\r' {
      var t := s[2..];
      forall i | 0 <= i < |t| && t[i] == '\n' ensures i > 0 && t[i - 1] == '\r' {
        assert s[i + 2] == '\n' && s[i + 1] == '\r';
      }
    } else {
      var t := s[1..];
      forall i | 0 <= i < |t| && t[i] == '\n' ensures i > 0 && t[i - 1] == '\r' {
        assert s[i + 1] == '\n';
      }
    }
  }

  /** Deleting the pairs leaves no stray CR or LF exactly on paired text. */
  lemma {:induction false} RemovalLeavesStrays(s: string)
    ensures ('\r' in ReplacePairs(s, "") || '\n' in ReplacePairs(s, "")) <==> !Paired(s)
  {
    if s == "" {
    } else if |s| >= 2 && s[0] == '\r' && s[1] == '\n' {
      var t := s[2..];
      RemovalLeavesStrays(t);
      if Paired(t) {
        forall i | 0 <= i < |s| && s[i] == '\n' ensures i > 0 && s[i - 1] == '\r' {
          if i >= 2 { assert t[i - 2] == '\n'; }
        }
        forall i | 0 <= i < |s| && s[i] == '\r' ensures i + 1 < |s| && s[i + 1] == '\n' {
          if i >= 2 { assert t[i - 2] == '\r'; }
        }
      } else if Paired(s) {
        PairedTail(s);
      }
    } else {
      var t := s[1..];
      RemovalLeavesStrays(t);
      assert ReplacePairs(s, "") == [s[0]] + ReplacePairs(t, "");
      if s[0] == '\r' || s[0] == '\n' {
        assert s[0] in ReplacePairs(s, "");
        assert !Paired(s);
      } else if Paired(t) {
        forall i | 0 <= i < |s| && s[i] == '\n' ensures i > 0 && s[i - 1] == '\r' {
          if i >= 1 { assert t[i - 1] == '\n'; }
        }
        forall i | 0 <= i < |s| && s[i] == '\r' ensures i + 1 < |s| && s[i + 1] == '\n' {
          if i >= 1 { assert t[i - 1] == '\r'; }
        }
      } else if Paired(s) {
        PairedTail(s);
      }
    }
  }

  /** `CRLF` is detected for exactly the texts that have a pair and nothing but pairs. */
  lemma DetectsExactlyPairedText(s: string)
    ensures Detect(s) == CRLF <==> HasPair(s) && Paired(s)
  {
    RemovalLeavesStrays(s);
  }

  // ---- The round trip ----

  lemma {:induction false} CollapsedHasNoPair(s: string)
    requires Paired(s)
    ensures '\r' !in ReplacePairs(s, "\n")
  {
    if s != "" {
      PairedTail(s);
      CollapsedHasNoPair(if s[0] == '\r' then s[2..] else s[1..]);
    }
  }

  lemma {:induction false} NoCarriageReturnIsFixed(s: string)
    requires '\r' !in s
    ensures ReplacePairs(s, "\n") == s
  {
    if s != "" {
      assert forall c :: c in s[1..] ==> c in s;
      assert s[0] in s;
      NoCarriageReturnIsFixed(s[1..]);
      assert s == [s[0]] + s[1..];
    }
  }

  lemma {:induction false} ExpandUndoesCollapse(s: string)
    requires Paired(s)
    ensures ExpandNewlines(ReplacePairs(s, "\n")) == s
  {
    if s != "" {
      PairedTail(s);
      if s[0] == '\r' {
        var rest := ReplacePairs(s[2..], "\n");
        assert ReplacePairs(s, "\n") == ['\n'] + rest;
        assert (['\n'] + rest)[1..] == rest;
        ExpandUndoesCollapse(s[2..]);
        assert s == "\r\n" + s[2..];
      } else {
        var rest := ReplacePairs(s[1..], "\n");
        assert ReplacePairs(s, "\n") == [s[0]] + rest;
        assert ([s[0]] + rest)[1..] == rest;
        ExpandUndoesCollapse(s[1..]);
        assert s == [s[0]] + s[1..];
      }
    }
  }

  /** What genesis requires of buffer text held under a given line ending. */
  predicate Canonical(text: string, eol: LineEnding) {
    Detect(text) != CRLF && !(eol == CRLF && HasPair(text))
  }

  /** Reading a file and saving it unedited writes the same characters, and
      the buffer text is one genesis accepts. */
  lemma FileRoundTrip(f: string)
    ensures ToFileText(ToBufferText(f, Detect(f)), Detect(f)) == f
    ensures Canonical(ToBufferText(f, Detect(f)), Detect(f))
  {
    DetectsExactlyPairedText(f);
    if Detect(f) == CRLF {
      CollapsedHasNoPair(f);
      NoCarriageReturnIsFixed(ReplacePairs(f, "\n"));
      ExpandUndoesCollapse(f);
    }
  }

  // ---- Index translation ----

  /** Index `i` falls between the CR and the LF of a pair. */
  predicate InsidePair(s: string, i: nat) {
    0 < i < |s| && s[i - 1] == '\r' && s[i] == '\n'
  }

  lemma {:induction false} CollapseShortensByPairs(s: string)
    ensures |ReplacePairs(s, "\n")| == |s| - CountPairs(s)
  {
    if |s| >= 2 && s[0] == '\r' && s[1] == '\n' {
      CollapseShortensByPairs(s[2..]);
    } else if s != "" {
      CollapseShortensByPairs(s[1..]);
    }
  }

  /** Splitting anywhere but inside a pair splits the replacement and the count. */
  lemma {:induction false} CollapseSplits(s: string, i: nat)
    requires i <= |s| && !InsidePair(s, i)
    ensures ReplacePairs(s, "\n") == ReplacePairs(s[..i], "\n") + ReplacePairs(s[i..], "\n")
    ensures CountPairs(s) == CountPairs(s[..i]) + CountPairs(s[i..])
    decreases |s|
  {
    hide ReplacePairs, CountPairs;
    if i == 0 {
      assert s[..0] == "" && s[0..] == s;
      NoPiece();
    } else {
      var k := if |s| >= 2 && s[0] == '\r' && s[1] == '\n' then 2 else 1;
      assert i >= k;
      var rest, left := s[k..], i - k;
      CollapseSplits(rest, left);
      assert s[..i][k..] == rest[..left] && rest[left..] == s[i..];
      FirstPiece(s);
      FirstPiece(s[..i]);
    }
  }

  lemma NoPiece()
    ensures ReplacePairs("", "\n") == "" && CountPairs("") == 0
  {
  }

  /** What the first character or pair contributes. */
  lemma FirstPiece(s: string)
    requires s != ""
    ensures var pair := |s| >= 2 && s[0] == '\r' && s[1] == '\n'; var k := if pair then 2 else 1;
      && ReplacePairs(s, "\n") == (if pair then "\n" else [s[0]]) + ReplacePairs(s[k..], "\n")
      && CountPairs(s) == (if pair then 1 else 0) + CountPairs(s[k..])
  {
  }

  /** Outside a pair, translating an index is taking a prefix of the buffer text. */
  lemma {:induction false} ShiftTakesPrefixes(s: string, i: nat)
    requires i <= |s|
    ensures 0 <= ShiftIndex(s, i) <= |ReplacePairs(s, "\n")|
    ensures ReplacePairs(s, "\n")[..ShiftIndex(s, i)] == ReplacePairs(s[..i], "\n")
            <==> !InsidePair(s, i)
  {
    CollapseShortensByPairs(s[..i]);
    assert Slice(s, 0, i) == s[..i];
    if !InsidePair(s, i) {
      CollapseSplits(s, i);
    } else {
      assert !InsidePair(s, i - 1);
      CollapseSplits(s, i - 1);
      var head, tail := ReplacePairs(s[..i - 1], "\n"), s[i - 1..];
      assert tail[0] == '\r' && tail[1] == '\n';
      assert ReplacePairs(tail, "\n") == "\n" + ReplacePairs(tail[2..], "\n");
      assert !InsidePair(s[..i], i - 1);
      CollapseSplits(s[..i], i - 1);
      assert s[..i][..i - 1] == s[..i - 1] && s[..i][i - 1..] == "\r";
      assert ReplacePairs("\r", "\n") == "\r" + ReplacePairs("", "\n");
      assert ReplacePairs(s[..i], "\n") == head + "\r";
      assert ReplacePairs(s, "\n")[|head|] == '\n';
      assert (head + "\r")[|head|] == '\r';
    }
  }

  lemma {:induction false} PairsOfPrefix(s: string, i: nat)
    requires i < |s|
    ensures CountPairs(s[..i]) <= CountPairs(s[..i + 1]) <= CountPairs(s[..i]) + 1
    ensures CountPairs(s[..i + 1]) == CountPairs(s[..i]) + 1 <==> InsidePair(s, i)
    decreases |s|
  {
    if |s| >= 2 && s[0] == '\r' && s[1] == '\n' {
      if i >= 2 {
        PairsOfPrefix(s[2..], i - 2);
        assert s[..i][2..] == s[2..][..i - 2] && s[..i + 1][2..] == s[2..][..i - 1];
      } else if i == 0 {
        assert s[..1] == "\r" && s[..0] == "";
      } else {
        assert s[..1] == "\r" && s[..2] == "\r\n";
        assert s[..2][2..] == "" && s[..1][1..] == "";
      }
    } else if i >= 1 {
      PairsOfPrefix(s[1..], i - 1);
      assert s[..i][1..] == s[1..][..i - 1] && s[..i + 1][1..] == s[1..][..i];
    } else {
      assert s[..1][1..] == "" && s[..0] == "";
    }
  }

  /** Translation never reverses two indices; it merges them only across a pair. */
  lemma {:induction false} ShiftIsMonotone(s: string, i: nat, j: nat)
    requires i <= j <= |s|
    ensures ShiftIndex(s, i) <= ShiftIndex(s, j)
    ensures i < j && !(j == i + 1 && InsidePair(s, i)) ==> ShiftIndex(s, i) < ShiftIndex(s, j)
    decreases j - i
  {
    if i < j {
      PairsOfPrefix(s, i);
      assert Slice(s, 0, i) == s[..i] && Slice(s, 0, i + 1) == s[..i + 1];
      ShiftIsMonotone(s, i + 1, j);
      if i + 1 < j && InsidePair(s, i) {
        assert !InsidePair(s, i + 1);
      }
    }
  }
}
