/** Editor state as plain values: operations, transactions and branching history. */
module StateValues {
  import opened Prelude

  datatype Affinity = Left | Right

  datatype OverlayValue = OverlayValue(id: int, start: int, end: int, startAffinity: Affinity, endAffinity: Affinity)

  datatype MessageValue = MessageValue(id: string, subject: string, unread: bool)

  datatype TextValue = TextValue(
    bufferId: int, text: string, overlays: seq<OverlayValue>, processOutput: string, invalidations: seq<(int, int)>)

  datatype MailValue = MailValue(bufferId: int, messages: seq<MessageValue>, selected: Option<string>)

  datatype StateValue = StateValue(text: TextValue, mail: MailValue, lastSequence: int)

  datatype Operation =
    | Insert(position: int, text: string)
    | ProcessDelivery(sequence: int, text: string)
    | MailDelivery(sequence: int, id: string, subject: string)
    | SelectMessage(id: string)
    | MarkRead(id: string)

  // ---- One operation ----

  function Shifted(boundary: int, affinity: Affinity, position: int, amount: int): int {
    if boundary > position || (boundary == position && affinity == Right) then boundary + amount else boundary
  }

  function Grown(o: OverlayValue, position: int, amount: int): OverlayValue {
    o.(start := Shifted(o.start, o.startAffinity, position, amount),
       end := Shifted(o.end, o.endAffinity, position, amount))
  }

  function InsertText(v: TextValue, position: int, text: string): Option<TextValue> {
    if !(0 <= position <= |v.text|) then None
    else
      Some(v.(text := v.text[..position] + text + v.text[position..],
              overlays := seq(|v.overlays|, i requires 0 <= i < |v.overlays| => Grown(v.overlays[i], position, |text|)),
              invalidations := v.invalidations + [(position, position + |text|)]))
  }

  predicate Known(messages: seq<MessageValue>, id: string) {
    exists i :: 0 <= i < |messages| && messages[i].id == id
  }

  /** Replace the first message of that id, keeping its read mark, or append one. */
  function Delivered(messages: seq<MessageValue>, id: string, subject: string): seq<MessageValue>
    decreases |messages|
  {
    if messages == [] then [MessageValue(id, subject, true)]
    else if messages[0].id == id then [messages[0].(subject := subject)] + messages[1..]
    else [messages[0]] + Delivered(messages[1..], id, subject)
  }

  /** Every message of that id has been read. */
  function Read(messages: seq<MessageValue>, id: string): seq<MessageValue> {
    seq(|messages|, i requires 0 <= i < |messages| => if messages[i].id == id then messages[i].(unread := false) else messages[i])
  }

  /** `None` where the operation raises. */
  function ApplyToValue(v: StateValue, op: Operation): Option<StateValue> {
    match op
    case Insert(position, text) =>
      (match InsertText(v.text, position, text)
       case None => None
       case Some(t) => Some(v.(text := t)))
    case ProcessDelivery(sequence, text) =>
      if sequence <= v.lastSequence then None
      else
        var t := InsertText(v.text, |v.text.text|, text).value;
        Some(v.(text := t.(processOutput := v.text.processOutput + text), lastSequence := sequence))
    case MailDelivery(sequence, id, subject) =>
      if sequence <= v.lastSequence then None
      else Some(v.(mail := v.mail.(messages := Delivered(v.mail.messages, id, subject)), lastSequence := sequence))
    case SelectMessage(id) =>
      if Known(v.mail.messages, id) then Some(v.(mail := v.mail.(selected := Some(id)))) else None
    case MarkRead(id) =>
      if Known(v.mail.messages, id) then Some(v.(mail := v.mail.(messages := Read(v.mail.messages, id)))) else None
  }

  function ApplyAll(v: StateValue, ops: seq<Operation>): Option<StateValue>
    decreases |ops|
  {
    if ops == [] then Some(v)
    else match ApplyToValue(v, ops[0])
      case None => None
      case Some(next) => ApplyAll(next, ops[1..])
  }

  /** A transaction starts with nothing invalidated. */
  function Begun(v: StateValue): StateValue { v.(text := v.text.(invalidations := [])) }

  // ---- Identity ----

  /** No two overlays and no two messages share an id. */
  ghost predicate Distinct(v: StateValue) {
    && (forall i, j :: 0 <= i < j < |v.text.overlays| ==> v.text.overlays[i].id != v.text.overlays[j].id)
    && (forall i, j :: 0 <= i < j < |v.mail.messages| ==> v.mail.messages[i].id != v.mail.messages[j].id)
  }

  /** Same buffers, same overlays in the same order. */
  ghost predicate Kin(v: StateValue, w: StateValue) {
    && v.text.bufferId == w.text.bufferId && v.mail.bufferId == w.mail.bufferId
    && |v.text.overlays| == |w.text.overlays|
    && forall i :: 0 <= i < |v.text.overlays| ==> v.text.overlays[i].id == w.text.overlays[i].id
  }

  lemma {:induction false} DeliveredIds(messages: seq<MessageValue>, id: string, subject: string)
    ensures var after := Delivered(messages, id, subject);
      && |messages| <= |after| <= |messages| + 1
      && (forall i :: 0 <= i < |messages| ==> after[i].id == messages[i].id)
      && (|after| > |messages| <==> !Known(messages, id))
      && (!Known(messages, id) ==> after == messages + [MessageValue(id, subject, true)])
    decreases |messages|
  {
    if messages != [] && messages[0].id != id {
      DeliveredIds(messages[1..], id, subject);
      assert Known(messages, id) <==> Known(messages[1..], id) by {
        if Known(messages, id) {
          var i :| 0 <= i < |messages| && messages[i].id == id;
          assert messages[1..][i - 1].id == id;
        }
        if Known(messages[1..], id) {
          var i :| 0 <= i < |messages[1..]| && messages[1..][i].id == id;
          assert messages[i + 1].id == id;
        }
      }
      var after, rest := Delivered(messages, id, subject), Delivered(messages[1..], id, subject);
      forall i | 0 <= i < |messages| ensures after[i].id == messages[i].id {
        if i > 0 { assert after[i] == rest[i - 1] && messages[i] == messages[1..][i - 1]; }
      }
    } else if messages != [] {
      assert Known(messages, id);
    }
  }

  /** An insertion leaves a boundary with all its text on one side: what follows it if
      the insertion is before it, what precedes it if behind; at the boundary itself
      its affinity decides. */
  lemma BoundaryKeepsItsText(v: TextValue, position: nat, text: string, boundary: nat, affinity: Affinity)
    requires position <= |v.text| && boundary <= |v.text|
    ensures var after := InsertText(v, position, text).value.text; var moved := Shifted(boundary, affinity, position, |text|);
      && 0 <= moved <= |after|
      && (position < boundary || (position == boundary && affinity == Right) ==> after[moved..] == v.text[boundary..])
      && (position > boundary || (position == boundary && affinity == Left) ==> after[..moved] == v.text[..boundary])
  {
    var after := v.text[..position] + text + v.text[position..];
    if position <= boundary {
      assert after[boundary + |text|..] == v.text[position..][boundary - position..] == v.text[boundary..];
    }
  }

  /** Operations keep ids distinct, and neither add nor drop an overlay. */
  lemma OperationKeepsIdentity(v: StateValue, op: Operation)
    requires Distinct(v)
    ensures var r := ApplyToValue(v, op); r.Some? ==> Distinct(r.value) && Kin(v, r.value)
  {
    if op.MailDelivery? {
      DeliveredIds(v.mail.messages, op.id, op.subject);
      var after := Delivered(v.mail.messages, op.id, op.subject);
      if |after| > |v.mail.messages| {
        forall i | 0 <= i < |v.mail.messages| ensures v.mail.messages[i].id != op.id {
          assert !Known(v.mail.messages, op.id);
        }
      }
    }
  }

  lemma KinTrans(a: StateValue, b: StateValue, c: StateValue)
    requires Kin(a, b) && Kin(b, c)
    ensures Kin(a, c) && Kin(b, a)
  {
  }

  lemma {:induction false} TransactionKeepsIdentity(v: StateValue, ops: seq<Operation>)
    requires Distinct(v)
    ensures var r := ApplyAll(v, ops); r.Some? ==> Distinct(r.value) && Kin(v, r.value)
    decreases |ops|
  {
    hide Distinct, Kin, ApplyToValue;
    if ops == [] {
      assert Kin(v, v) by { KinRefl(v); }
    } else {
      OperationKeepsIdentity(v, ops[0]);
      var next := ApplyToValue(v, ops[0]);
      if next.Some? {
        TransactionKeepsIdentity(next.value, ops[1..]);
        if ApplyAll(v, ops).Some? { KinTrans(v, next.value, ApplyAll(v, ops).value); }
      }
    }
  }

  lemma KinRefl(v: StateValue)
    ensures Kin(v, v)
  {
  }

  // ---- Branching history ----

  datatype HistoryNode = HistoryNode(parent: Option<int>, value: StateValue, name: string)

  datatype History = History(nodes: map<int, HistoryNode>, children: map<int, seq<int>>, current: int, next: int)

  function NewHistory(initial: StateValue): History {
    History(map[0 := HistoryNode(None, initial, "initial")], map[0 := []], 0, 1)
  }

  function Children(h: History, id: int): seq<int> { if id in h.children then h.children[id] else [] }

  function Commit(h: History, value: StateValue, name: string): History {
    History(h.nodes[h.next := HistoryNode(Some(h.current), value, name)],
            h.children[h.current := Children(h, h.current) + [h.next]][h.next := []],
            h.next, h.next + 1)
  }

  ghost predicate Rooted(h: History) {
    && h.current in h.nodes
    && (forall id :: id in h.nodes <==> 0 <= id < h.next)
    && h.children.Keys == h.nodes.Keys
  }

  ghost predicate ParentsOk(h: History) {
    forall id :: id in h.nodes ==>
      match h.nodes[id].parent
      case None => id == 0
      case Some(p) => p in h.nodes && p < id && p in h.children && id in h.children[p]
  }

  ghost predicate ChildrenOk(h: History) {
    forall id, i :: id in h.children && 0 <= i < |h.children[id]| ==>
      h.children[id][i] in h.nodes && h.nodes[h.children[id][i]].parent == Some(id)
  }

  /** A tree: parents come before children, and both sides know of each other. */
  ghost predicate Tree(h: History) { Rooted(h) && ParentsOk(h) && ChildrenOk(h) }

  datatype Action =
    | Transaction(name: string, operations: seq<Operation>)
    | Undo
    | Redo(branch: int)

  /** A session: what the adapter holds, and the history. */
  datatype Model = Model(value: StateValue, history: History)

  /** One action; the flag is false where it raises. */
  function Dispatch(m: Model, action: Action): (Model, bool)
    requires m.history.current in m.history.nodes
  {
    var h := m.history;
    match action
    case Transaction(name, operations) =>
      (match ApplyAll(Begun(m.value), operations)
       case None => (m, false)
       case Some(v) => (Model(v, Commit(h, v, name)), true))
    case Undo =>
      (match h.nodes[h.current].parent
       case None => (m, false)
       case Some(id) => if id in h.nodes then (Model(h.nodes[id].value, h.(current := id)), true) else (m, false))
    case Redo(branch) =>
      if 0 <= branch < |Children(h, h.current)| && Children(h, h.current)[branch] in h.nodes then
        var id := Children(h, h.current)[branch];
        (Model(h.nodes[id].value, h.(current := id)), true)
      else (m, false)
  }

  /** The adapter always holds the current node's value, ids are distinct everywhere
      in the tree, and every node has the initial state's buffers and overlays. */
  ghost predicate ModelOk(m: Model) {
    && Tree(m.history)
    && m.value == m.history.nodes[m.history.current].value
    && (forall id :: id in m.history.nodes ==> Distinct(m.history.nodes[id].value) && Kin(m.value, m.history.nodes[id].value))
  }

  lemma CommitKeepsTree(h: History, value: StateValue, name: string)
    requires Tree(h)
    ensures Tree(Commit(h, value, name))
  {
    hide Commit, ParentsOk, ChildrenOk;
    CommitFacts(h, value, name);
    CommitKeepsParents(h, value, name);
    CommitKeepsChildren(h, value, name);
  }

  lemma CommitKeepsParents(h: History, value: StateValue, name: string)
    requires Rooted(h) && ParentsOk(h)
    ensures ParentsOk(Commit(h, value, name))
  {
    hide Commit, Rooted;
    var after := Commit(h, value, name);
    CommitFacts(h, value, name);
    forall id | id in after.nodes
      ensures match after.nodes[id].parent
              case None => id == 0
              case Some(p) => p in after.nodes && p < id && p in after.children && id in after.children[p]
    {
      if id == h.next {
        assert after.children[h.current][|h.children[h.current]|] == id;
      } else if h.nodes[id].parent.Some? {
        assert id in h.nodes;
        var p := h.nodes[id].parent.value;
        var i :| 0 <= i < |h.children[p]| && h.children[p][i] == id;
        assert after.children[p][i] == id;
      }
    }
  }

  lemma CommitKeepsChildren(h: History, value: StateValue, name: string)
    requires Rooted(h) && ChildrenOk(h)
    ensures ChildrenOk(Commit(h, value, name))
  {
    hide Commit, Rooted;
    var after := Commit(h, value, name);
    CommitFacts(h, value, name);
    forall id, i | id in after.children && 0 <= i < |after.children[id]|
      ensures after.children[id][i] in after.nodes && after.nodes[after.children[id][i]].parent == Some(id)
    {
      if id != h.next && !(id == h.current && i == |h.children[id]|) { assert after.children[id][i] == h.children[id][i]; }
    }
  }

  /** What a commit adds, and what it leaves. */
  lemma CommitFacts(h: History, value: StateValue, name: string)
    requires Rooted(h)
    ensures var after := Commit(h, value, name);
      && Rooted(after) && h.current in h.nodes && h.current < h.next && h.children.Keys == h.nodes.Keys
      && h.next !in h.nodes && h.next > 0 && after.current == h.next && after.next == h.next + 1
      && after.nodes.Keys == h.nodes.Keys + {h.next} && after.children.Keys == after.nodes.Keys
      && after.nodes[h.next] == HistoryNode(Some(h.current), value, name) && after.children[h.next] == []
      && (forall id :: id in h.nodes ==> after.nodes[id] == h.nodes[id])
      && (forall id :: id in h.nodes ==>
            after.children[id] == if id == h.current then h.children[id] + [h.next] else h.children[id])
  {
  }

  lemma {:induction false} DispatchKeepsModelOk(m: Model, action: Action)
    requires ModelOk(m)
    ensures ModelOk(Dispatch(m, action).0)
  {
    hide Distinct, Kin, ApplyAll, Tree;
    CurrentExists(m.history);
    var h := m.history;
    match action {
      case Transaction(name, operations) =>
        var r := ApplyAll(Begun(m.value), operations);
        if r.Some? {
          BegunIsKin(m.value);
          TransactionKeepsIdentity(Begun(m.value), operations);
          CommitKeepsTree(h, r.value, name);
          KinTrans(m.value, Begun(m.value), r.value);
          KinTrans(m.value, r.value, r.value) by { KinRefl(r.value); }
          forall id | id in h.nodes ensures Kin(r.value, h.nodes[id].value) { KinTrans(r.value, m.value, h.nodes[id].value); }
          KinRefl(r.value);
        }
      case Undo =>
        if Dispatch(m, Undo).1 { Rebase(m, h.nodes[h.current].parent.value); }
      case Redo(branch) =>
        if Dispatch(m, action).1 { Rebase(m, Children(h, h.current)[branch]); }
    }
  }

  lemma CurrentExists(h: History)
    requires Tree(h)
    ensures h.current in h.nodes
  {
  }

  lemma BegunIsKin(v: StateValue)
    ensures Kin(v, Begun(v)) && (Distinct(v) ==> Distinct(Begun(v)))
  {
  }

  lemma Rebase(m: Model, id: int)
    requires ModelOk(m) && id in m.history.nodes
    ensures ModelOk(Model(m.history.nodes[id].value, m.history.(current := id)))
  {
    hide Distinct, Kin;
    var v := m.history.nodes[id].value;
    forall k | k in m.history.nodes ensures Kin(v, m.history.nodes[k].value) {
      KinTrans(m.value, v, v) by { KinRefl(v); }
      KinTrans(v, m.value, m.history.nodes[k].value);
    }
  }

  function RunActions(m: Model, actions: seq<Action>): Model
    requires ModelOk(m)
    decreases |actions|
  {
    if actions == [] then m
    else
      DispatchKeepsModelOk(m, actions[0]);
      RunActions(Dispatch(m, actions[0]).0, actions[1..])
  }

  lemma {:induction false} RunKeepsModelOk(m: Model, actions: seq<Action>)
    requires ModelOk(m)
    ensures ModelOk(RunActions(m, actions))
    decreases |actions|
  {
    hide ModelOk, Dispatch;
    if actions != [] {
      ModelHasCurrent(m);
      DispatchKeepsModelOk(m, actions[0]);
      RunKeepsModelOk(Dispatch(m, actions[0]).0, actions[1..]);
    }
  }

  lemma ModelHasCurrent(m: Model)
    requires ModelOk(m)
    ensures m.history.current in m.history.nodes
  {
  }

  lemma InitialIsOk(v: StateValue)
    requires Distinct(v)
    ensures ModelOk(Model(v, NewHistory(v)))
  {
    KinRefl(v);
  }

  /** Undo takes back exactly a transaction, redo along the newest branch brings it
      back, and older branches stay where they were. */
  lemma {:induction false} UndoThenRedo(m: Model, name: string, operations: seq<Operation>)
    requires ModelOk(m) && Dispatch(m, Transaction(name, operations)).1
    ensures var did := Dispatch(m, Transaction(name, operations)).0;
      && ModelOk(did)
      && var undid := Dispatch(did, Undo);
         && undid.1 && undid.0.value == m.value && undid.0.history.current == m.history.current
         && ModelOk(undid.0)
         && var branches := Children(undid.0.history, m.history.current);
            && branches == Children(m.history, m.history.current) + [m.history.next]
            && Dispatch(undid.0, Redo(|branches| - 1)) == (did, true)
            && forall b :: 0 <= b < |branches| - 1 ==>
                 Dispatch(undid.0, Redo(b)).0.value == Dispatch(m, Redo(b)).0.value
  {
    hide Distinct, Kin, ApplyAll;
    var did := Dispatch(m, Transaction(name, operations)).0;
    DispatchKeepsModelOk(m, Transaction(name, operations));
    DispatchKeepsModelOk(did, Undo);
  }

  /** Undo always comes to the initial state: each one steps to an older node. */
  lemma UndoClimbs(m: Model)
    requires ModelOk(m)
    ensures Dispatch(m, Undo).1 ==> 0 <= Dispatch(m, Undo).0.history.current < m.history.current
    ensures !Dispatch(m, Undo).1 ==> m.history.current == 0 && m.value == m.history.nodes[0].value
  {
    hide Distinct, Kin, ApplyAll;
  }
}
