/** NDJSON framing: one JSON value a line, in chunks of any size. */
module Codec {
  import opened Prelude
  import opened Acp
  import opened Messages

  type Bytes = seq<int>

  const NEWLINE := 10

  /** What reading a line comes to: a value, a decode error, or any other exception of
      the reader (an integer of too many digits, nesting too deep). */
  datatype Reading = Loaded(value: Json) | Undecodable | Overwhelmed

  /** JSON text as the library prints and reads it. */
  datatype JsonText = JsonText(dumps: Json -> Bytes, loads: Bytes -> Reading)

  predicate Space(b: int) { b == 32 || 9 <= b <= 13 }

  predicate Blank(line: Bytes) { forall i :: 0 <= i < |line| ==> Space(line[i]) }

  /** The value prints as one non-blank line that reads back. */
  predicate Legible(t: JsonText, j: Json) {
    t.loads(t.dumps(j)) == Loaded(j) && NEWLINE !in t.dumps(j) && !Blank(t.dumps(j))
  }

  /** A line decodes, fails to, or is one on which reading ends in an exception. */
  datatype DecodeResult = DecodedFrame(value: Json) | DecodeFailure(line: Bytes) | ReaderRaised(line: Bytes)

  function Encode(t: JsonText, value: Json): Bytes { t.dumps(value) + [NEWLINE] }

  /** `buffer.find(b"\n")`, the length where there is none. */
  function LineLength(buffer: Bytes): (n: nat)
    ensures n <= |buffer|
    ensures NEWLINE !in buffer[..n]
    ensures n < |buffer| ==> buffer[n] == NEWLINE
  {
    if buffer == [] || buffer[0] == NEWLINE then 0
    else
      var n := 1 + LineLength(buffer[1..]);
      assert buffer[..n] == [buffer[0]] + buffer[1..][..n - 1];
      n
  }

  function DecodeLine(t: JsonText, line: Bytes): seq<DecodeResult> {
    if Blank(line) then []
    else match t.loads(line)
      case Loaded(value) => [DecodedFrame(value)]
      case Undecodable => [DecodeFailure(line)]
      case Overwhelmed => [ReaderRaised(line)]
  }

  /** The results of every complete line, and the incomplete line left over; an exception
      is marked in its place, whatever would come of the lines behind it. */
  function Drain(t: JsonText, buffer: Bytes): (seq<DecodeResult>, Bytes)
    decreases |buffer|
  {
    var n := LineLength(buffer);
    if n == |buffer| then ([], buffer)
    else
      var rest := Drain(t, buffer[n + 1..]);
      (DecodeLine(t, buffer[..n]) + rest.0, rest.1)
  }

  /** The first complete line, then the rest. */
  lemma DrainOne(t: JsonText, buffer: Bytes)
    ensures var n := LineLength(buffer);
      if n == |buffer| then Drain(t, buffer) == ([], buffer)
      else Drain(t, buffer).0 == DecodeLine(t, buffer[..n]) + Drain(t, buffer[n + 1..]).0
           && Drain(t, buffer).1 == Drain(t, buffer[n + 1..]).1
  {
  }

  lemma DecodedLine(t: JsonText, line: Bytes)
    ensures DecodeLine(t, line) == if Blank(line) then [] else
              match t.loads(line)
              case Loaded(value) => [DecodedFrame(value)]
              case Undecodable => [DecodeFailure(line)]
              case Overwhelmed => [ReaderRaised(line)]
  {
  }

  predicate Interrupted(results: seq<DecodeResult>) {
    exists i :: 0 <= i < |results| && results[i].ReaderRaised?
  }

  /** What is behind the first line on which reading raises; without one, the leftover. */
  function Behind(t: JsonText, buffer: Bytes): Bytes
    decreases |buffer|
  {
    var n := LineLength(buffer);
    if n == |buffer| then buffer
    else if !Blank(buffer[..n]) && t.loads(buffer[..n]).Overwhelmed? then buffer[n + 1..]
    else Behind(t, buffer[n + 1..])
  }

  lemma BehindOne(t: JsonText, buffer: Bytes)
    ensures var n := LineLength(buffer);
      Behind(t, buffer) ==
        if n == |buffer| then buffer
        else if !Blank(buffer[..n]) && t.loads(buffer[..n]).Overwhelmed? then buffer[n + 1..]
        else Behind(t, buffer[n + 1..])
  {
  }

  lemma InterruptionsJoin(a: seq<DecodeResult>, b: seq<DecodeResult>)
    ensures Interrupted(a + b) <==> Interrupted(a) || Interrupted(b)
  {
    if Interrupted(a) {
      var i :| 0 <= i < |a| && a[i].ReaderRaised?;
      assert (a + b)[i] == a[i];
    }
    if Interrupted(b) {
      var i :| 0 <= i < |b| && b[i].ReaderRaised?;
      assert (a + b)[|a| + i] == b[i];
    }
  }

  lemma OneInterrupts(x: DecodeResult)
    ensures Interrupted([x]) <==> x.ReaderRaised?
  {
    assert [x][0] == x;
  }

  lemma NoInterruption()
    ensures !Interrupted([])
  {
  }

  class JsonRpcDecoder {
    var buffer: Bytes

    constructor ()
      ensures buffer == []
    {
      buffer := [];
    }

    method Feed(data: Bytes)
      modifies this
      ensures buffer == old(buffer) + data
    {
      buffer := buffer + data;
    }

    /** Every complete line in order; a line on which reading raises is taken out of the
        buffer, and the exception takes the results before it along. */
    method Messages(t: JsonText) returns (out: seq<DecodeResult>, raised: bool)
      modifies this
      ensures raised <==> Interrupted(Drain(t, old(buffer)).0)
      ensures !raised ==> (out, buffer) == Drain(t, old(buffer))
      ensures raised ==> buffer == Behind(t, old(buffer))
    {
      hide Drain, DecodeLine, Behind, Interrupted;
      out, raised := [], false;
      NoInterruption();
      assert out + Drain(t, buffer).0 == Drain(t, buffer).0;
      var n := LineLength(buffer);
      while n != |buffer|
        invariant n == LineLength(buffer)
        invariant out + Drain(t, buffer).0 == Drain(t, old(buffer)).0
        invariant Drain(t, buffer).1 == Drain(t, old(buffer)).1
        invariant !raised && !Interrupted(out) && Behind(t, buffer) == Behind(t, old(buffer))
        decreases |buffer|
      {
        DrainOne(t, buffer);
        BehindOne(t, buffer);
        var line := buffer[..n];
        ghost var results := DecodeLine(t, line);
        assert out + (results + Drain(t, buffer[n + 1..]).0) == (out + results) + Drain(t, buffer[n + 1..]).0;
        buffer := buffer[n + 1..];
        DecodedLine(t, line);
        if !Blank(line) {
          var loaded := t.loads(line);
          OneInterrupts(results[0]);
          InterruptionsJoin(out, results);
          if loaded.Overwhelmed? {
            InterruptionsJoin(out + results, Drain(t, buffer).0);
            raised := true;
            return;
          }
          out := out + [if loaded.Loaded? then DecodedFrame(loaded.value) else DecodeFailure(line)];
        } else {
          assert out + results == out;
        }
        n := LineLength(buffer);
      }
      DrainOne(t, buffer);
      assert out + [] == out;
    }
  }

  // ---- Chunking is invisible ----

  lemma {:induction false} LineLengthOfExtension(a: Bytes, b: Bytes)
    ensures LineLength(a) < |a| ==> LineLength(a + b) == LineLength(a)
  {
    if a != [] && a[0] != NEWLINE {
      assert (a + b)[1..] == a[1..] + b;
      LineLengthOfExtension(a[1..], b);
    }
  }

  /** Draining in between gives the same results and leaves the same bytes. */
  lemma {:induction false} DrainSplits(t: JsonText, a: Bytes, b: Bytes)
    ensures var first := Drain(t, a); var second := Drain(t, first.1 + b);
      Drain(t, a + b) == (first.0 + second.0, second.1)
    decreases |a|
  {
    hide Drain;
    var n := LineLength(a);
    DrainOne(t, a);
    if n < |a| {
      LineLengthOfExtension(a, b);
      DrainOne(t, a + b);
      assert (a + b)[..n] == a[..n];
      var rest := a[n + 1..];
      assert (a + b)[n + 1..] == rest + b;
      DrainSplits(t, rest, b);
      var line, first, second := DecodeLine(t, a[..n]), Drain(t, rest), Drain(t, Drain(t, rest).1 + b);
      assert line + (first.0 + second.0) == (line + first.0) + second.0;
    } else {
      assert Drain(t, a).0 + Drain(t, a + b).0 == Drain(t, a + b).0;
    }
  }

  function FeedAll(t: JsonText, buffer: Bytes, chunks: seq<Bytes>): (seq<DecodeResult>, Bytes)
    decreases |chunks|
  {
    if chunks == [] then ([], buffer)
    else
      var drained := Drain(t, buffer + chunks[0]);
      var rest := FeedAll(t, drained.1, chunks[1..]);
      (drained.0 + rest.0, rest.1)
  }

  function Joined(chunks: seq<Bytes>): Bytes
    decreases |chunks|
  {
    if chunks == [] then [] else chunks[0] + Joined(chunks[1..])
  }

  /** However a stream is cut, the results and the leftover are those of the whole. */
  lemma {:induction false} ChunksAreInvisible(t: JsonText, buffer: Bytes, chunks: seq<Bytes>)
    requires NEWLINE !in buffer
    ensures FeedAll(t, buffer, chunks) == Drain(t, buffer + Joined(chunks))
    decreases |chunks|
  {
    if chunks == [] {
      assert buffer + [] == buffer;
      NoLineNoResult(t, buffer);
    } else {
      var drained := Drain(t, buffer + chunks[0]);
      LeftoverHasNoLine(t, buffer + chunks[0]);
      ChunksAreInvisible(t, drained.1, chunks[1..]);
      DrainSplits(t, buffer + chunks[0], Joined(chunks[1..]));
      assert buffer + chunks[0] + Joined(chunks[1..]) == buffer + Joined(chunks);
    }
  }

  lemma NoLineNoResult(t: JsonText, buffer: Bytes)
    requires NEWLINE !in buffer
    ensures Drain(t, buffer) == ([], buffer)
  {
    assert forall i :: 0 <= i < |buffer| ==> buffer[i] in buffer;
  }

  lemma {:induction false} LeftoverHasNoLine(t: JsonText, buffer: Bytes)
    ensures NEWLINE !in Drain(t, buffer).1
    decreases |buffer|
  {
    var n := LineLength(buffer);
    if n < |buffer| { LeftoverHasNoLine(t, buffer[n + 1..]); }
    else { assert buffer[..n] == buffer; }
  }

  // ---- Messages arrive as they were sent ----

  function Wire(t: JsonText, messages: seq<Message>): Bytes
    decreases |messages|
  {
    if messages == [] then [] else Encode(t, ToJson(messages[0])) + Wire(t, messages[1..])
  }

  /** The envelopes among the results, in order. */
  function Parsed(results: seq<DecodeResult>): seq<Option<Message>>
    decreases |results|
  {
    if results == [] then []
    else [if results[0].DecodedFrame? then ParseMessage(results[0].value) else None] + Parsed(results[1..])
  }

  function Present(messages: seq<Message>): seq<Option<Message>>
    decreases |messages|
  {
    if messages == [] then [] else [Some(messages[0])] + Present(messages[1..])
  }

  lemma EncodedLine(t: JsonText, value: Json, rest: Bytes)
    requires Legible(t, value)
    ensures Drain(t, Encode(t, value) + rest) == ([DecodedFrame(value)] + Drain(t, rest).0, Drain(t, rest).1)
  {
    var text := t.dumps(value);
    assert t.loads(text) == Loaded(value) && NEWLINE !in text;
    var whole := Encode(t, value) + rest;
    assert whole == text + ([NEWLINE] + rest);
    NoLineBefore(text, [NEWLINE] + rest);
    assert whole[..|text|] == text && whole[|text| + 1..] == rest;
  }

  lemma {:induction false} NoLineBefore(a: Bytes, b: Bytes)
    requires NEWLINE !in a && b != [] && b[0] == NEWLINE
    ensures LineLength(a + b) == |a|
  {
    if a == [] {
      assert a + b == b;
    } else {
      assert a[0] in a;
      assert (a + b)[1..] == a[1..] + b;
      NoLineBefore(a[1..], b);
    }
  }

  lemma {:induction false} WireDrains(t: JsonText, messages: seq<Message>, tail: Bytes)
    requires NEWLINE !in tail && forall i :: 0 <= i < |messages| ==> Legible(t, ToJson(messages[i]))
    ensures var r := Drain(t, Wire(t, messages) + tail);
      Parsed(r.0) == Present(messages) && r.1 == tail
    decreases |messages|
  {
    if messages == [] {
      assert [] + tail == tail;
      NoLineNoResult(t, tail);
    } else {
      var value, rest := ToJson(messages[0]), Wire(t, messages[1..]);
      assert Wire(t, messages) + tail == Encode(t, value) + (rest + tail);
      EncodedLine(t, value, rest + tail);
      ParseUndoesToJson(messages[0]);
      WireDrains(t, messages[1..], tail);
      var more := Drain(t, rest + tail).0;
      assert ([DecodedFrame(value)] + more)[1..] == more;
    }
  }

  /** Messages written to the wire, cut into any chunks, come out of the decoder and
      parse back to themselves in order; an unfinished line waits. */
  lemma {:induction false} MessagesSurviveTheWire(t: JsonText, messages: seq<Message>, tail: Bytes, chunks: seq<Bytes>)
    requires NEWLINE !in tail && forall i :: 0 <= i < |messages| ==> Legible(t, ToJson(messages[i]))
    requires Joined(chunks) == Wire(t, messages) + tail
    ensures var r := FeedAll(t, [], chunks);
      Parsed(r.0) == Present(messages) && r.1 == tail
  {
    hide Legible, FeedAll, Drain, Parsed, Present, Joined;
    var nothing: Bytes := [];
    ChunksAreInvisible(t, nothing, chunks);
    assert nothing + Joined(chunks) == Wire(t, messages) + tail;
    WireDrains(t, messages, tail);
  }
}
