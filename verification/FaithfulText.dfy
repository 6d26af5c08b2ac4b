/** JSON text that meets what the codec takes from the library: one such text exists. */
module FaithfulText {
  import opened Prelude
  import opened Acp
  import opened Messages
  import opened Machine
  import opened Events
  import opened SessionSpec
  import opened SessionInvariants
  import opened SessionRuns
  import opened PermissionQueue
  import opened Codec
  import opened PumpSpec
  import opened PumpFrames
  import opened PumpInvariants
  import opened PumpRuns
  import opened Cuts

  // Every value is written as a self-delimiting word over printable bytes, so a word
  // followed by anything reads back in one way only.

  const ONE := 49
  const STOP := 46

  function Unary(n: nat): Bytes { if n == 0 then [STOP] else [ONE] + Unary(n - 1) }

  function Chars(s: string): Bytes
    decreases |s|
  {
    if s == "" then [] else Unary(s[0] as int) + Chars(s[1..])
  }

  function Word(s: string): Bytes { Unary(|s|) + Chars(s) }

  ghost function Pick(keys: set<string>): (k: string)
    requires keys != {}
    ensures k in keys
  {
    var k :| k in keys; k
  }

  ghost function Print(j: Json): Bytes
    decreases j, 1, 0
  {
    match j
    case Null => [110]
    case Bool(b) => [if b then 116 else 102]
    case Int(i) => [if i < 0 then 45 else 43] + Unary(if i < 0 then -i else i)
    case Float(numeral) => [114] + Word(numeral)
    case Str(s) => [34] + Word(s)
    case Arr(items) => [91] + (Unary(|items|) + PrintItems(j, 0))
    case Obj(fields) => [123] + (Unary(|fields.Keys|) + PrintFields(j, fields.Keys))
  }

  ghost function PrintItems(j: Json, i: nat): Bytes
    requires j.Arr? && i <= |j.items|
    decreases j, 0, |j.items| - i
  {
    if i == |j.items| then [] else Print(j.items[i]) + PrintItems(j, i + 1)
  }

  /** The fields with keys in `keys`, in some fixed order. */
  ghost function PrintFields(j: Json, keys: set<string>): Bytes
    requires j.Obj? && keys <= j.fields.Keys
    decreases j, 0, |keys|
  {
    if keys == {} then []
    else Word(Pick(keys)) + (Print(j.fields[Pick(keys)]) + PrintFields(j, keys - {Pick(keys)}))
  }

  // ---- Reading back ----

  lemma Rejoin(a: Bytes, b: Bytes, x: Bytes)
    ensures a + b + x == a + (b + x)
  {
  }

  lemma {:induction false} UnaryReads(m: nat, n: nat, x: Bytes, y: Bytes)
    requires Unary(m) + x == Unary(n) + y
    ensures m == n && x == y
    decreases m
  {
    assert (Unary(m) + x)[0] == (Unary(n) + y)[0];
    assert (Unary(m) + x)[1..] == Unary(m)[1..] + x && (Unary(n) + y)[1..] == Unary(n)[1..] + y;
    if m > 0 && n > 0 {
      UnaryReads(m - 1, n - 1, x, y);
    } else {
      assert x == [] + x && y == [] + y;
    }
  }

  lemma {:induction false} CharsRead(s: string, t: string, x: Bytes, y: Bytes)
    requires |s| == |t| && Chars(s) + x == Chars(t) + y
    ensures s == t && x == y
    decreases |s|
  {
    hide Unary;
    if s == "" {
      assert x == [] + x && y == [] + y;
    } else {
      Rejoin(Unary(s[0] as int), Chars(s[1..]), x);
      Rejoin(Unary(t[0] as int), Chars(t[1..]), y);
      UnaryReads(s[0] as int, t[0] as int, Chars(s[1..]) + x, Chars(t[1..]) + y);
      CharsRead(s[1..], t[1..], x, y);
      assert s == [s[0]] + s[1..] && t == [t[0]] + t[1..];
    }
  }

  lemma WordReads(s: string, t: string, x: Bytes, y: Bytes)
    requires Word(s) + x == Word(t) + y
    ensures s == t && x == y
  {
    hide Unary, Chars;
    Rejoin(Unary(|s|), Chars(s), x);
    Rejoin(Unary(|t|), Chars(t), y);
    UnaryReads(|s|, |t|, Chars(s) + x, Chars(t) + y);
    CharsRead(s, t, x, y);
  }

  /** The first byte tells the kind, and what follows it is the rest. */
  lemma Tagged(tag: int, a: Bytes, x: Bytes, b: Bytes, y: Bytes)
    requires [tag] + a + x == [tag] + b + y
    ensures a + x == b + y
  {
    assert ([tag] + a + x)[1..] == a + x && ([tag] + b + y)[1..] == b + y;
  }

  function Tag(j: Json): int {
    match j
    case Null => 110
    case Bool(b) => if b then 116 else 102
    case Int(i) => if i < 0 then 45 else 43
    case Float(_) => 114
    case Str(_) => 34
    case Arr(_) => 91
    case Obj(_) => 123
  }

  lemma TagFirst(j: Json, x: Bytes)
    ensures Print(j) != [] && (Print(j) + x)[0] == Tag(j)
  {
    hide Unary, Word, PrintItems, PrintFields;
  }

  /** A printed value followed by anything reads back as that value and what followed. */
  lemma {:induction false} PrintReads(a: Json, b: Json, x: Bytes, y: Bytes)
    requires Print(a) + x == Print(b) + y
    ensures a == b && x == y
    decreases a, 1, 0
  {
    hide Unary, Word, PrintItems, PrintFields;
    TagFirst(a, x);
    TagFirst(b, y);
    match a {
      case Null => assert x == (Print(a) + x)[1..] && y == (Print(b) + y)[1..];
      case Bool(_) => assert x == (Print(a) + x)[1..] && y == (Print(b) + y)[1..];
      case Int(i) =>
        var m, n := if i < 0 then -i else i, if b.i < 0 then -b.i else b.i;
        Tagged(Tag(a), Unary(m), x, Unary(n), y);
        UnaryReads(m, n, x, y);
      case Float(s) =>
        Tagged(114, Word(s), x, Word(b.numeral), y);
        WordReads(s, b.numeral, x, y);
      case Str(s) =>
        Tagged(34, Word(s), x, Word(b.s), y);
        WordReads(s, b.s, x, y);
      case Arr(items) =>
        var m, n := |items|, |b.items|;
        Tagged(91, Unary(m) + PrintItems(a, 0), x, Unary(n) + PrintItems(b, 0), y);
        Rejoin(Unary(m), PrintItems(a, 0), x);
        Rejoin(Unary(n), PrintItems(b, 0), y);
        UnaryReads(m, n, PrintItems(a, 0) + x, PrintItems(b, 0) + y);
        ItemsRead(a, b, 0, x, y);
      case Obj(fields) =>
        var m, n := |fields.Keys|, |b.fields.Keys|;
        Tagged(123, Unary(m) + PrintFields(a, fields.Keys), x, Unary(n) + PrintFields(b, b.fields.Keys), y);
        Rejoin(Unary(m), PrintFields(a, fields.Keys), x);
        Rejoin(Unary(n), PrintFields(b, b.fields.Keys), y);
        UnaryReads(m, n, PrintFields(a, fields.Keys) + x, PrintFields(b, b.fields.Keys) + y);
        FieldsRead(a, fields.Keys, b, b.fields.Keys, x, y);
        assert fields == b.fields;
    }
  }

  lemma {:induction false} ItemsRead(a: Json, b: Json, i: nat, x: Bytes, y: Bytes)
    requires a.Arr? && b.Arr? && |a.items| == |b.items| && i <= |a.items|
    requires PrintItems(a, i) + x == PrintItems(b, i) + y
    ensures a.items[i..] == b.items[i..] && x == y
    decreases a, 0, |a.items| - i
  {
    hide Print;
    if i == |a.items| {
      assert x == [] + x && y == [] + y;
    } else {
      Rejoin(Print(a.items[i]), PrintItems(a, i + 1), x);
      Rejoin(Print(b.items[i]), PrintItems(b, i + 1), y);
      PrintReads(a.items[i], b.items[i], PrintItems(a, i + 1) + x, PrintItems(b, i + 1) + y);
      ItemsRead(a, b, i + 1, x, y);
      assert a.items[i..] == [a.items[i]] + a.items[i + 1..] && b.items[i..] == [b.items[i]] + b.items[i + 1..];
    }
  }

  lemma {:induction false} FieldsRead(a: Json, ka: set<string>, b: Json, kb: set<string>, x: Bytes, y: Bytes)
    requires a.Obj? && b.Obj? && ka <= a.fields.Keys && kb <= b.fields.Keys && |ka| == |kb|
    requires PrintFields(a, ka) + x == PrintFields(b, kb) + y
    ensures ka == kb && (forall k :: k in ka ==> a.fields[k] == b.fields[k]) && x == y
    decreases a, 0, |ka|
  {
    hide Print, Word;
    if ka == {} {
      assert x == [] + x && y == [] + y;
    } else {
      var k, l := Pick(ka), Pick(kb);
      var ra, rb := PrintFields(a, ka - {k}), PrintFields(b, kb - {l});
      Rejoin(Word(k), Print(a.fields[k]) + ra, x);
      Rejoin(Word(l), Print(b.fields[l]) + rb, y);
      WordReads(k, l, Print(a.fields[k]) + ra + x, Print(b.fields[l]) + rb + y);
      Rejoin(Print(a.fields[k]), ra, x);
      Rejoin(Print(b.fields[l]), rb, y);
      PrintReads(a.fields[k], b.fields[l], ra + x, rb + y);
      FieldsRead(a, ka - {k}, b, kb - {l}, x, y);
      assert ka == (ka - {k}) + {k} && kb == (kb - {l}) + {l};
    }
  }

  // ---- One line of bytes ----

  /** Printable bytes only. */
  predicate Graphic(bytes: Bytes) { forall i :: 0 <= i < |bytes| ==> 33 <= bytes[i] < 127 }

  lemma {:induction false} UnaryIsGraphic(n: nat)
    ensures Graphic(Unary(n))
  {
    if n > 0 { UnaryIsGraphic(n - 1); }
  }

  lemma {:induction false} CharsAreGraphic(s: string)
    ensures Graphic(Chars(s))
    decreases |s|
  {
    if s != "" {
      UnaryIsGraphic(s[0] as int);
      CharsAreGraphic(s[1..]);
    }
  }

  lemma WordIsGraphic(s: string)
    ensures Graphic(Word(s))
  {
    UnaryIsGraphic(|s|);
    CharsAreGraphic(s);
  }

  lemma {:induction false} PrintIsGraphic(j: Json)
    ensures Graphic(Print(j))
    decreases j, 1, 0
  {
    hide Unary, Word;
    match j {
      case Null =>
      case Bool(_) =>
      case Int(i) => UnaryIsGraphic(if i < 0 then -i else i);
      case Float(s) => WordIsGraphic(s);
      case Str(s) => WordIsGraphic(s);
      case Arr(items) => UnaryIsGraphic(|items|); ItemsAreGraphic(j, 0);
      case Obj(fields) => UnaryIsGraphic(|fields.Keys|); FieldsAreGraphic(j, fields.Keys);
    }
  }

  lemma {:induction false} ItemsAreGraphic(j: Json, i: nat)
    requires j.Arr? && i <= |j.items|
    ensures Graphic(PrintItems(j, i))
    decreases j, 0, |j.items| - i
  {
    hide Print;
    if i < |j.items| {
      PrintIsGraphic(j.items[i]);
      ItemsAreGraphic(j, i + 1);
    }
  }

  lemma {:induction false} FieldsAreGraphic(j: Json, keys: set<string>)
    requires j.Obj? && keys <= j.fields.Keys
    ensures Graphic(PrintFields(j, keys))
    decreases j, 0, |keys|
  {
    hide Print, Word;
    if keys != {} {
      WordIsGraphic(Pick(keys));
      PrintIsGraphic(j.fields[Pick(keys)]);
      FieldsAreGraphic(j, keys - {Pick(keys)});
    }
  }

  // ---- The text ----

  ghost function Read(bytes: Bytes): Reading {
    if exists j :: Print(j) == bytes then
      var j :| Print(j) == bytes;
      Loaded(j)
    else Undecodable
  }

  ghost function Text(): JsonText { JsonText(j => Print(j), bytes => Read(bytes)) }

  /** What the codec takes from the JSON library can be met. */
  lemma TextIsFaithful()
    ensures forall j: Json :: Legible(Text(), j)
  {
    hide Print;
    forall j: Json
      ensures Legible(Text(), j)
    {
      var bytes := Print(j);
      var k :| Print(k) == bytes && Read(bytes) == Loaded(k);
      PrintReads(j, k, [], []);
      PrintIsGraphic(j);
      TagFirst(j, []);
      assert !Space(bytes[0]);
    }
  }

  // ---- A world in the handshake ----

  /** `C-c a`, a word, RET. */
  const FIRST_PROMPT := [UserKey(PromptAgent, None, None), UserKey(MinibufferInput("x"), None, None), UserKey(MinibufferAccept, None, None)]

  lemma PromptTyped(s: Session)
    requires s.pr == NO_PROMPT
    ensures var a := Step(s, PromptAgent, None); var b := Step(a.session, MinibufferInput("x"), None);
      var c := Step(b.session, MinibufferAccept, None);
      && !a.raised && a.events == [MinibufferOpened(AgentLabel)]
      && !b.raised && b.events == []
      && !c.raised && c.events == [AgentPromptSubmitted("x")] && c.session.pr == NO_PROMPT
  {
    hide Settle;
    assert "" + "x" == "x";
  }

  lemma QuietKey(cfg: Config, w: World, c: Command)
    requires w.crash.None? && !w.ended
    requires var r := Step(w.session, c, None); !r.raised && (r.events == [] || r.events == [MinibufferOpened(AgentLabel)])
    ensures Next(cfg, w, UserKey(c, None, None)) == w.(session := Step(w.session, c, None).session)
  {
    hide Step, Submit, Decision1, Quit;
    var events := Step(w.session, c, None).events;
    assert [MinibufferOpened(AgentLabel)][1..] == [];
    assert w.(session := Step(w.session, c, None).session, ended := false) == w.(session := Step(w.session, c, None).session);
  }

  lemma SubmitStarts(cfg: Config, w: World, text: string)
    requires Body(w) && w.pump == IDLE
    ensures var w' := Submit(cfg, w, text, None);
      && w'.ended == w.ended && w'.pump.alive && w'.pump.decoder == [] && w'.pump.transcript.None? && w'.pump.backlog == []
      && w'.pump.machine == Start(FRESH).machine && w'.pump.pending == [text]
  {
    hide SessionOk, SendRequest, Start, Grows, DeliveryTarget;
    StartedIs();
    SendRequestFrame(cfg, w.(pump := w.pump.(alive := true)), Start(FRESH));
  }

  lemma StartedIs()
    ensures var r := Start(FRESH);
      r.Sent? && r.machine.phase == INITIALIZING && r.machine.nextId == 1 && r.machine.outgoing == map[IntId(0) := INITIALIZE]
  {
  }

  lemma SubmittingKey(cfg: Config, w: World, c: Command, text: string)
    requires w.crash.None? && !w.ended
    requires var r := Step(w.session, c, None); !r.raised && r.events == [AgentPromptSubmitted(text)]
    ensures Next(cfg, w, UserKey(c, None, None)) == Submit(cfg, w.(session := Step(w.session, c, None).session), text, None)
  {
    hide Step, Submit, Decision1, Quit;
    var events := [AgentPromptSubmitted(text)];
    var moved := w.(session := Step(w.session, c, None).session);
    assert w.(session := Step(w.session, c, None).session, ended := false) == moved;
    AfterTheFirst(cfg, moved, events, None);
  }

  lemma ThreeInputs(cfg: Config, w: World, a: Stimulus, b: Stimulus, c: Stimulus)
    ensures RunWorld(cfg, w, [a, b, c]) == Next(cfg, Next(cfg, Next(cfg, w, a), b), c)
  {
    hide Next;
    assert [a, b, c][1..] == [b, c] && [b, c][1..] == [c] && [c][1..] == [];
    var w' := Next(cfg, Next(cfg, w, a), b);
    assert RunWorld(cfg, w', [c]) == Next(cfg, w', c);
    assert RunWorld(cfg, Next(cfg, w, a), [b, c]) == RunWorld(cfg, w', [c]);
  }

  /** From any session without a prompt, three keys bring the pump into the handshake. */
  lemma HandshakeIsReached(cfg: Config, s: Session)
    requires SessionOk(s) && s.pr == NO_PROMPT
    ensures var w := RunWorld(cfg, InitialWorld(s), FIRST_PROMPT);
      && WorldOk(w) && w.crash.None? && !w.ended && w.pump.alive && w.pump.decoder == []
      && w.pump.machine.phase == INITIALIZING && w.pump.machine.outgoing == map[IntId(0) := INITIALIZE] && w.pump.pending == ["x"]
  {
    hide SessionOk, Step, Owing, Submit, Start, Next, RunWorld;
    var w := InitialWorld(s);
    NothingOutstanding(s);
    StartIsOk(s);
    PromptTyped(s);
    var a := Step(s, PromptAgent, None).session;
    var b := Step(a, MinibufferInput("x"), None).session;
    QuietKey(cfg, w, PromptAgent);
    QuietKey(cfg, w.(session := a), MinibufferInput("x"));
    var typed := w.(session := b);
    SubmittingKey(cfg, typed, MinibufferAccept, "x");
    var last := w.(session := Step(b, MinibufferAccept, None).session);
    ThreeInputs(cfg, w, FIRST_PROMPT[0], FIRST_PROMPT[1], FIRST_PROMPT[2]);
    StepKeepsSessionOk(s, PromptAgent, None);
    StepKeepsSessionOk(a, MinibufferInput("x"), None);
    StepKeepsSessionOk(b, MinibufferAccept, None);
    NothingOutstanding(last.session);
    StartIsOk(last.session);
    WorldBody(last);
    SubmitStarts(cfg, last, "x");
    SubmitKeeps(cfg, last, "x", None);
    StartedIs();
  }

  /** There the cut of a stream does show. */
  lemma HandshakeShowsCuts(cfg: Config, s: Session)
    requires SessionOk(s) && s.pr == NO_PROMPT && cfg.text == Text()
    ensures CutShows(cfg, RunWorld(cfg, InitialWorld(s), FIRST_PROMPT))
  {
    hide SessionOk, RunWorld, CutShows, Legible, ToJson, WorldOk;
    TextIsFaithful();
    HandshakeIsReached(cfg, s);
    var w := RunWorld(cfg, InitialWorld(s), FIRST_PROMPT);
    assert IntId(0) in w.pump.machine.outgoing;
    CutsShowExactly(cfg, w);
  }

  lemma NothingOutstanding(s: Session)
    ensures s.pr == NO_PROMPT ==> Waiting(s.pr) && Outstanding(s.pr) == []
  {
  }

  lemma WorldBody(w: World)
    requires WorldOk(w) && w.crash.None?
    ensures Body(w) && Good(w, [], [])
  {
    hide SessionOk, Ledger, Coupled, Waiting;
  }
}
