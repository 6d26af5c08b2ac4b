/** Three owners of the same state: persistent values, controlled mutation, a hybrid. */
module Adapters {
  import opened Prelude
  import opened StateValues

  // ---- Values all the way down ----

  class PersistentAdapter {
    var root: StateValue
    var registry: map<int, TextValue>
    const handle: int

    /** The handle an extension keeps resolves to the current text. */
    ghost predicate Valid()
      reads this
    {
      root.text.bufferId == handle && handle in registry && registry[handle] == root.text
    }

    constructor (v: StateValue)
      ensures Valid() && root == v
    {
      root, registry, handle := v, map[v.text.bufferId := v.text], v.text.bufferId;
    }

    method Begin()
      requires Valid()
      modifies this
      ensures Valid() && root == Begun(old(root))
    {
      if root.text.invalidations == [] {
        return;
      }
      root := root.(text := root.text.(invalidations := []));
      registry := registry[root.text.bufferId := root.text];
    }

    method Apply(op: Operation) returns (ok: bool)
      requires Valid()
      modifies this
      ensures Valid()
      ensures var r := ApplyToValue(old(root), op); ok == r.Some? && root == if ok then r.value else old(root)
    {
      var r := ApplyToValue(root, op);
      if r.None? {
        return false;
      }
      root := r.value;
      registry := registry[root.text.bufferId := root.text];
      return true;
    }

    method Restore(v: StateValue)
      requires Valid() && Kin(root, v)
      modifies this
      ensures Valid() && root == v
    {
      root := v;
      registry := registry[root.text.bufferId := root.text];
    }
  }

  // ---- Objects, changed in place ----

  class MutableOverlay {
    const id: int
    var start: int
    var end: int
    var startAffinity: Affinity
    var endAffinity: Affinity

    function Value(): OverlayValue
      reads this
    {
      OverlayValue(id, start, end, startAffinity, endAffinity)
    }

    constructor (v: OverlayValue)
      ensures Value() == v
    {
      id, start, end, startAffinity, endAffinity := v.id, v.start, v.end, v.startAffinity, v.endAffinity;
    }
  }

  class MutableMessage {
    const id: string
    var subject: string
    var unread: bool

    function Value(): MessageValue
      reads this
    {
      MessageValue(id, subject, unread)
    }

    constructor (v: MessageValue)
      ensures Value() == v
    {
      id, subject, unread := v.id, v.subject, v.unread;
    }
  }

  ghost function OverlayValues(os: seq<MutableOverlay>): (vs: seq<OverlayValue>)
    reads os
    ensures |vs| == |os| && forall i :: 0 <= i < |os| ==> vs[i] == os[i].Value()
  {
    seq(|os|, i requires 0 <= i < |os| reads os => os[i].Value())
  }

  ghost function MessageValues(ms: seq<MutableMessage>): (vs: seq<MessageValue>)
    reads ms
    ensures |vs| == |ms| && forall i :: 0 <= i < |ms| ==> vs[i] == ms[i].Value()
  {
    seq(|ms|, i requires 0 <= i < |ms| reads ms => ms[i].Value())
  }

  predicate OverlayIdsDiffer(os: seq<MutableOverlay>) {
    forall i, j :: 0 <= i < j < |os| ==> os[i].id != os[j].id
  }

  predicate MessageIdsDiffer(ms: seq<MutableMessage>) {
    forall i, j :: 0 <= i < j < |ms| ==> ms[i].id != ms[j].id
  }

  method NewOverlays(vs: seq<OverlayValue>) returns (os: seq<MutableOverlay>)
    ensures |os| == |vs| && forall k :: 0 <= k < |vs| ==> os[k].Value() == vs[k] && fresh(os[k])
  {
    os := [];
    var i := 0;
    while i < |vs|
      invariant 0 <= i <= |vs| && |os| == i
      invariant forall k :: 0 <= k < i ==> os[k].Value() == vs[k] && fresh(os[k])
    {
      var o := new MutableOverlay(vs[i]);
      os := os + [o];
      i := i + 1;
    }
  }

  method NewMessages(vs: seq<MessageValue>) returns (ms: seq<MutableMessage>)
    ensures |ms| == |vs| && forall k :: 0 <= k < |vs| ==> ms[k].Value() == vs[k] && fresh(ms[k])
  {
    ms := [];
    var i := 0;
    while i < |vs|
      invariant 0 <= i <= |vs| && |ms| == i
      invariant forall k :: 0 <= k < i ==> ms[k].Value() == vs[k] && fresh(ms[k])
    {
      var m := new MutableMessage(vs[i]);
      ms := ms + [m];
      i := i + 1;
    }
  }

  /** `messages` is the mail dictionary, in insertion order. */
  class ControlledMutableAdapter {
    const textId: int
    const mailId: int
    var text: string
    var overlays: seq<MutableOverlay>
    var processOutput: string
    var invalidations: seq<(int, int)>
    var messages: seq<MutableMessage>
    var selected: Option<string>
    var lastSequence: int

    ghost function Repr(): (r: set<object>)
      reads this
      ensures forall o :: o in overlays ==> o in r
      ensures forall m :: m in messages ==> m in r
    {
      {this as object} + (set o: MutableOverlay | o in overlays :: o as object) + (set m: MutableMessage | m in messages :: m as object)
    }

    ghost predicate Valid()
      reads this
    {
      OverlayIdsDiffer(overlays) && MessageIdsDiffer(messages)
    }

    ghost function State(): StateValue
      reads this, overlays, messages
    {
      StateValue(TextValue(textId, text, OverlayValues(overlays), processOutput, invalidations),
                 MailValue(mailId, MessageValues(messages), selected), lastSequence)
    }

    constructor (v: StateValue)
      requires Distinct(v)
      ensures Valid() && State() == v && fresh(Repr())
    {
      textId, mailId := v.text.bufferId, v.mail.bufferId;
      text, processOutput, invalidations := v.text.text, v.text.processOutput, v.text.invalidations;
      overlays, messages, selected, lastSequence := [], [], v.mail.selected, v.lastSequence;
      new;
      var os := NewOverlays(v.text.overlays);
      var ms := NewMessages(v.mail.messages);
      overlays, messages := os, ms;
      assert OverlayValues(overlays) == v.text.overlays && MessageValues(messages) == v.mail.messages;
      assert forall k :: 0 <= k < |os| ==> os[k].id == v.text.overlays[k].id;
      assert forall k :: 0 <= k < |ms| ==> ms[k].id == v.mail.messages[k].id;
    }

    method Begin()
      requires Valid()
      modifies this
      ensures Valid() && Repr() == old(Repr()) && overlays == old(overlays) && State() == Begun(old(State()))
    {
      invalidations := [];
    }

    /** Insert in place, shifting every overlay's boundaries. */
    method Insert(position: int, inserted: string) returns (ok: bool)
      requires Valid()
      modifies this, overlays
      ensures Valid() && Repr() == old(Repr()) && overlays == old(overlays) && messages == old(messages)
      ensures var r := InsertText(old(State()).text, position, inserted);
        ok == r.Some? && State() == old(State()).(text := if ok then r.value else old(State()).text)
    {
      if !(0 <= position <= |text|) {
        return false;
      }
      ghost var before := State();
      text := text[..position] + inserted + text[position..];
      var i := 0;
      while i < |overlays|
        modifies overlays
        invariant 0 <= i <= |overlays|
        invariant forall k :: 0 <= k < i ==> overlays[k].Value() == Grown(before.text.overlays[k], position, |inserted|)
        invariant forall k :: i <= k < |overlays| ==> overlays[k].Value() == before.text.overlays[k]
      {
        var o := overlays[i];
        o.start := Shifted(o.start, o.startAffinity, position, |inserted|);
        o.end := Shifted(o.end, o.endAffinity, position, |inserted|);
        i := i + 1;
      }
      invalidations := invalidations + [(position, position + |inserted|)];
      ok := true;
    }

    /** The message of that id. */
    method Find(id: string) returns (found: Option<MutableMessage>)
      ensures found.Some? <==> exists i :: 0 <= i < |messages| && messages[i].id == id
      ensures found.Some? ==> found.value in messages && found.value.id == id
    {
      var i := 0;
      while i < |messages|
        invariant 0 <= i <= |messages| && forall k :: 0 <= k < i ==> messages[k].id != id
      {
        if messages[i].id == id {
          return Some(messages[i]);
        }
        i := i + 1;
      }
      return None;
    }

    /** Revise the message of that id in place, or add one. */
    method Deliver(id: string, subject: string)
      requires Valid()
      modifies this, messages
      ensures Valid() && overlays == old(overlays) && (forall m :: m in messages ==> m in old(messages) || fresh(m))
      ensures State() == old(State()).(mail := old(State()).mail.(messages := Delivered(old(State()).mail.messages, id, subject)))
    {
      hide Delivered, OverlayIdsDiffer;
      ghost var before := State();
      SameIds(messages, before.mail.messages);
      var found := Find(id);
      assert Known(before.mail.messages, id) <==> found.Some?;
      DeliveredIds(before.mail.messages, id, subject);
      if found.Some? {
        found.value.subject := subject;
        DeliveredAt(before.mail.messages, id, subject);
        assert MessageValues(messages) == Delivered(before.mail.messages, id, subject);
      } else {
        assert forall i :: 0 <= i < |messages| ==> messages[i].id != id;
        var m := new MutableMessage(MessageValue(id, subject, true));
        messages := messages + [m];
        assert MessageIdsDiffer(messages);
        assert forall x :: x in messages ==> x in old(messages) || x == m;
        assert MessageValues(messages) == before.mail.messages + [MessageValue(id, subject, true)];
      }
    }

    method Mark(id: string) returns (ok: bool)
      requires Valid()
      modifies messages
      ensures ok <==> Known(old(State()).mail.messages, id)
      ensures State() == if ok then old(State()).(mail := old(State()).mail.(messages := Read(old(State()).mail.messages, id)))
                         else old(State())
    {
      ghost var before := State();
      SameIds(messages, before.mail.messages);
      var found := Find(id);
      ok := found.Some?;
      if ok {
        found.value.unread := false;
        assert MessageValues(messages) == Read(before.mail.messages, id);
      }
    }

    method Apply(op: Operation) returns (ok: bool)
      requires Valid()
      modifies this, overlays, messages
      ensures Valid() && overlays == old(overlays) && fresh(Repr() - old(Repr()))
      ensures var r := ApplyToValue(old(State()), op); ok == r.Some? && State() == if ok then r.value else old(State())
    {
      hide InsertText, Delivered, Read, Known, OverlayIdsDiffer, MessageIdsDiffer;
      match op {
        case Insert(position, inserted) => ok := Insert(position, inserted);
        case ProcessDelivery(sequence, output) =>
          if sequence <= lastSequence {
            return false;
          }
          AppendFits(State().text, output);
          ok := Insert(|text|, output);
          processOutput := processOutput + output;
          lastSequence := sequence;
        case MailDelivery(sequence, id, subject) =>
          if sequence <= lastSequence {
            return false;
          }
          Deliver(id, subject);
          lastSequence := sequence;
          ok := true;
        case SelectMessage(id) =>
          SameIds(messages, State().mail.messages);
          var found := Find(id);
          ok := found.Some?;
          if ok { selected := Some(id); }
        case MarkRead(id) => ok := Mark(id);
      }
    }

    /** Put a value back into the same objects: an overlay or message whose id is
        known keeps its identity. */
    method Restore(v: StateValue)
      requires Valid() && Distinct(v) && Kin(State(), v)
      modifies this, overlays, messages
      ensures Valid() && State() == v && overlays == old(overlays) && fresh(Repr() - old(Repr()))
      ensures forall i, j :: 0 <= i < |old(messages)| && 0 <= j < |messages| && old(messages)[i].id == messages[j].id
                ==> old(messages)[i] == messages[j]
    {
      var os := RestoreOverlays(v.text.overlays);
      var ms := RestoreMessages(v.mail.messages);
      assert os == overlays;
      overlays, messages := os, ms;
      text, processOutput, invalidations := v.text.text, v.text.processOutput, v.text.invalidations;
      selected, lastSequence := v.mail.selected, v.lastSequence;
      assert OverlayValues(overlays) == v.text.overlays && MessageValues(messages) == v.mail.messages;
    }

    method RestoreOverlays(vs: seq<OverlayValue>) returns (os: seq<MutableOverlay>)
      requires OverlayIdsDiffer(overlays) && forall i, j :: 0 <= i < j < |vs| ==> vs[i].id != vs[j].id
      modifies overlays
      ensures |os| == |vs| && forall k :: 0 <= k < |vs| ==> os[k].Value() == vs[k] && (os[k] in overlays || fresh(os[k]))
      ensures forall k, j :: 0 <= k < |vs| && 0 <= j < |overlays| && overlays[j].id == vs[k].id ==> os[k] == overlays[j]
    {
      os := [];
      var i := 0;
      while i < |vs|
        modifies overlays
        invariant 0 <= i <= |vs| && |os| == i
        invariant forall k :: 0 <= k < i ==> os[k].Value() == vs[k] && (os[k] in overlays || fresh(os[k]))
        invariant forall k, j :: 0 <= k < i && 0 <= j < |overlays| && overlays[j].id == vs[k].id ==> os[k] == overlays[j]
      {
        var o := FindOverlay(vs[i].id);
        if o.Some? {
          var at := o.value;
          assert forall k :: 0 <= k < i ==> os[k].id != at.id;
          at.start, at.end := vs[i].start, vs[i].end;
          at.startAffinity, at.endAffinity := vs[i].startAffinity, vs[i].endAffinity;
          os := os + [at];
        } else {
          var made := new MutableOverlay(vs[i]);
          os := os + [made];
        }
        i := i + 1;
      }
    }

    method FindOverlay(id: int) returns (found: Option<MutableOverlay>)
      ensures found.Some? <==> exists i :: 0 <= i < |overlays| && overlays[i].id == id
      ensures found.Some? ==> found.value in overlays && found.value.id == id
    {
      var i := 0;
      while i < |overlays|
        invariant 0 <= i <= |overlays| && forall k :: 0 <= k < i ==> overlays[k].id != id
      {
        if overlays[i].id == id {
          return Some(overlays[i]);
        }
        i := i + 1;
      }
      return None;
    }

    method RestoreMessages(vs: seq<MessageValue>) returns (ms: seq<MutableMessage>)
      requires MessageIdsDiffer(messages) && forall i, j :: 0 <= i < j < |vs| ==> vs[i].id != vs[j].id
      modifies messages
      ensures |ms| == |vs| && forall k :: 0 <= k < |vs| ==> ms[k].Value() == vs[k] && (ms[k] in messages || fresh(ms[k]))
      ensures forall k, j :: 0 <= k < |vs| && 0 <= j < |messages| && messages[j].id == vs[k].id ==> ms[k] == messages[j]
    {
      ms := [];
      var i := 0;
      while i < |vs|
        modifies messages
        invariant 0 <= i <= |vs| && |ms| == i
        invariant forall k :: 0 <= k < i ==> ms[k].Value() == vs[k] && (ms[k] in messages || fresh(ms[k]))
        invariant forall k, j :: 0 <= k < i && 0 <= j < |messages| && messages[j].id == vs[k].id ==> ms[k] == messages[j]
      {
        var m := Find(vs[i].id);
        if m.Some? {
          var at := m.value;
          assert forall k :: 0 <= k < i ==> ms[k].id != at.id;
          at.subject, at.unread := vs[i].subject, vs[i].unread;
          ms := ms + [at];
        } else {
          var made := new MutableMessage(vs[i]);
          ms := ms + [made];
        }
        i := i + 1;
      }
    }
  }

  // ---- Two shells around two values ----

  class HybridAdapter {
    var text: TextValue
    var mail: MailValue
    var lastSequence: int

    function State(): StateValue
      reads this
    {
      StateValue(text, mail, lastSequence)
    }

    constructor (v: StateValue)
      ensures State() == v
    {
      text, mail, lastSequence := v.text, v.mail, v.lastSequence;
    }

    method Begin()
      modifies this
      ensures State() == Begun(old(State()))
    {
      if text.invalidations != [] { text := text.(invalidations := []); }
    }

    /** Only the shell whose value changed is touched. */
    method Apply(op: Operation) returns (ok: bool)
      modifies this
      ensures var r := ApplyToValue(old(State()), op); ok == r.Some? && State() == if ok then r.value else old(State())
    {
      var before := State();
      var r := ApplyToValue(before, op);
      if r.None? {
        return false;
      }
      var after := r.value;
      if after.text != before.text { text := after.text; }
      if after.mail != before.mail { mail := after.mail; }
      lastSequence := after.lastSequence;
      ok := true;
    }

    method Restore(v: StateValue)
      modifies this
      ensures State() == v
    {
      text, mail, lastSequence := v.text, v.mail, v.lastSequence;
    }
  }

  // ---- One protocol for the three ----

  datatype Adapter =
    | Persistent(p: PersistentAdapter)
    | Controlled(c: ControlledMutableAdapter)
    | Hybrid(h: HybridAdapter)

  ghost function Base(a: Adapter): object {
    match a case Persistent(p) => p case Controlled(c) => c case Hybrid(h) => h
  }

  ghost function Footprint(a: Adapter): set<object>
    reads Base(a)
  {
    match a case Persistent(p) => {p} case Controlled(c) => c.Repr() case Hybrid(h) => {h}
  }

  ghost function State(a: Adapter): StateValue
    reads Base(a), Footprint(a)
  {
    match a case Persistent(p) => p.root case Controlled(c) => c.State() case Hybrid(h) => h.State()
  }

  ghost predicate Sound(a: Adapter)
    reads Base(a), Footprint(a)
  {
    && Distinct(State(a))
    && match a case Persistent(p) => p.Valid() case Controlled(c) => c.Valid() case Hybrid(_) => true
  }

  /** The overlay objects an extension may hold on to. */
  function Overlays(a: Adapter): seq<MutableOverlay>
    reads if a.Controlled? then {a.c} else {}
  {
    if a.Controlled? then a.c.overlays else []
  }

  method Begin(a: Adapter)
    requires Sound(a)
    modifies Footprint(a)
    ensures Sound(a) && fresh(Footprint(a) - old(Footprint(a))) && Overlays(a) == old(Overlays(a))
    ensures State(a) == Begun(old(State(a)))
  {
    BegunIsKin(State(a));
    match a { case Persistent(p) => p.Begin(); case Controlled(c) => c.Begin(); case Hybrid(h) => h.Begin(); }
  }

  method Apply(a: Adapter, op: Operation) returns (ok: bool)
    requires Sound(a)
    modifies Footprint(a)
    ensures Sound(a) && fresh(Footprint(a) - old(Footprint(a))) && Overlays(a) == old(Overlays(a))
    ensures var r := ApplyToValue(old(State(a)), op); ok == r.Some? && State(a) == if ok then r.value else old(State(a))
  {
    hide Distinct, ApplyToValue, Kin;
    OperationKeepsIdentity(State(a), op);
    match a {
      case Persistent(p) => ok := p.Apply(op);
      case Controlled(c) => ok := c.Apply(op);
      case Hybrid(h) => ok := h.Apply(op);
    }
  }

  method Restore(a: Adapter, v: StateValue)
    requires Sound(a) && Distinct(v) && Kin(State(a), v)
    modifies Footprint(a)
    ensures Sound(a) && fresh(Footprint(a) - old(Footprint(a))) && Overlays(a) == old(Overlays(a))
    ensures State(a) == v
  {
    hide Distinct, Kin;
    match a { case Persistent(p) => p.Restore(v); case Controlled(c) => c.Restore(v); case Hybrid(h) => h.Restore(v); }
  }

  /** What the controlled adapter materializes, object by object. */
  method Snapshot(a: Adapter) returns (v: StateValue)
    requires Sound(a)
    ensures v == State(a)
  {
    match a {
      case Persistent(p) => v := p.root;
      case Hybrid(h) => v := h.State();
      case Controlled(c) =>
        var os: seq<OverlayValue>, ms: seq<MessageValue> := [], [];
        for i := 0 to |c.overlays|
          invariant |os| == i && forall k :: 0 <= k < i ==> os[k] == c.overlays[k].Value()
        {
          os := os + [c.overlays[i].Value()];
        }
        for i := 0 to |c.messages|
          invariant |ms| == i && forall k :: 0 <= k < i ==> ms[k] == c.messages[k].Value()
        {
          ms := ms + [c.messages[i].Value()];
        }
        assert os == OverlayValues(c.overlays) && ms == MessageValues(c.messages);
        v := StateValue(TextValue(c.textId, c.text, os, c.processOutput, c.invalidations),
                        MailValue(c.mailId, ms, c.selected), c.lastSequence);
    }
  }

  // ---- History and the session ----

  class BranchingHistory {
    var nodes: map<int, HistoryNode>
    var children: map<int, seq<int>>
    var current: int
    var next: int

    function View(): History
      reads this
    {
      History(nodes, children, current, next)
    }

    constructor (initial: StateValue)
      ensures View() == NewHistory(initial)
    {
      nodes, children, current, next := map[0 := HistoryNode(None, initial, "initial")], map[0 := []], 0, 1;
    }

    method Commit(value: StateValue, name: string)
      modifies this
      ensures View() == StateValues.Commit(old(View()), value, name)
    {
      var id := next;
      next := next + 1;
      nodes := nodes[id := HistoryNode(Some(current), value, name)];
      children := children[current := (if current in children then children[current] else []) + [id]];
      children := children[id := []];
      current := id;
    }

    /** The parent's value, or nothing at the root. */
    method Undo() returns (value: Option<StateValue>)
      requires Tree(View())
      modifies this
      ensures var id := old(nodes)[old(current)].parent;
        && (id.Some? ==> id.value in old(nodes))
        && value == (if id.None? then None else Some(old(nodes)[id.value].value))
        && View() == if id.None? then old(View()) else old(View()).(current := id.value)
    {
      var parent := nodes[current].parent;
      if parent.None? {
        return None;
      }
      current := parent.value;
      return Some(nodes[current].value);
    }

    method Redo(branch: int) returns (value: Option<StateValue>)
      requires Tree(View())
      modifies this
      ensures var ids := Children(old(View()), old(current));
        if 0 <= branch < |ids| then
          && ids[branch] in old(nodes) && value == Some(old(nodes)[ids[branch]].value)
          && View() == old(View()).(current := ids[branch])
        else value == None && View() == old(View())
    {
      var ids := children[current];
      if !(0 <= branch < |ids|) {
        return None;
      }
      current := ids[branch];
      return Some(nodes[current].value);
    }
  }

  class Session {
    const adapter: Adapter
    const history: BranchingHistory

    ghost function View(): Model
      reads this, history, Base(adapter), Footprint(adapter)
    {
      Model(State(adapter), history.View())
    }

    ghost predicate Valid()
      reads this, history, Base(adapter), Footprint(adapter)
    {
      && history !in Footprint(adapter) && this !in Footprint(adapter)
      && Sound(adapter) && ModelOk(View())
    }

    constructor (adapter: Adapter)
      requires Sound(adapter)
      ensures Valid() && View() == Model(State(adapter), NewHistory(State(adapter))) && this.adapter == adapter && fresh(history)
    {
      var initial := Snapshot(adapter);
      this.adapter := adapter;
      history := new BranchingHistory(initial);
      new;
      InitialIsOk(initial);
    }

    /** One action. A transaction that fails midway restores the snapshot it started
        from; the overlay objects are the same ones throughout. */
    method Dispatch(action: Action) returns (ok: bool)
      requires Valid()
      modifies history, Footprint(adapter)
      ensures Valid() && Overlays(adapter) == old(Overlays(adapter)) && fresh(Footprint(adapter) - old(Footprint(adapter)))
      ensures (View(), ok) == StateValues.Dispatch(old(View()), action)
    {
      hide ModelOk, Sound, StateValues.Dispatch;
      match action {
        case Transaction(name, operations) => ok := DoTransaction(name, operations);
        case Undo => ok := Travel(Undo);
        case Redo(branch) => ok := Travel(Redo(branch));
      }
    }

    method DoTransaction(name: string, operations: seq<Operation>) returns (ok: bool)
      requires Valid()
      modifies history, Footprint(adapter)
      ensures Valid() && Overlays(adapter) == old(Overlays(adapter)) && fresh(Footprint(adapter) - old(Footprint(adapter)))
      ensures (View(), ok) == StateValues.Dispatch(old(View()), Transaction(name, operations))
    {
      hide ModelOk, Distinct, Kin, ApplyAll, StateValues.Commit;
      ModelHasCurrent(View());
      DispatchKeepsModelOk(View(), Transaction(name, operations));
      ok := Transact(operations);
      if ok {
        var now := Snapshot(adapter);
        history.Commit(now, name);
      }
    }

    /** Undo and redo restore a node of the history. */
    method Travel(action: Action) returns (ok: bool)
      requires Valid() && !action.Transaction?
      modifies history, Footprint(adapter)
      ensures Valid() && Overlays(adapter) == old(Overlays(adapter)) && fresh(Footprint(adapter) - old(Footprint(adapter)))
      ensures (View(), ok) == StateValues.Dispatch(old(View()), action)
    {
      hide ModelOk, Tree, Distinct, Kin;
      ghost var m := View();
      ModelHasCurrent(m);
      ModelHasTree(m);
      DispatchKeepsModelOk(m, action);
      DispatchStays(m, action);
      var value: Option<StateValue>;
      if action.Undo? { value := history.Undo(); } else { value := history.Redo(action.branch); }
      if value.Some? { Restore(adapter, value.value); }
      ok := value.Some?;
    }

    /** A scenario: one action after another, those that raise leaving no trace. */
    method DispatchAll(actions: seq<Action>)
      requires Valid()
      modifies history, Footprint(adapter)
      ensures Valid() && Overlays(adapter) == old(Overlays(adapter)) && fresh(Footprint(adapter) - old(Footprint(adapter)))
      ensures ModelOk(old(View())) && View() == RunActions(old(View()), actions)
    {
      hide ModelOk, Sound, StateValues.Dispatch;
      var i := 0;
      while i < |actions|
        invariant 0 <= i <= |actions| && Valid() && Overlays(adapter) == old(Overlays(adapter))
        invariant fresh(Footprint(adapter) - old(Footprint(adapter)))
        invariant RunActions(View(), actions[i..]) == RunActions(old(View()), actions)
      {
        assert actions[i..][1..] == actions[i + 1..];
        ModelHasCurrent(View());
        var ok := Dispatch(actions[i]);
        i := i + 1;
      }
    }

    /** Apply all the operations, or none of them. */
    method Transact(operations: seq<Operation>) returns (ok: bool)
      requires Sound(adapter) && history !in Footprint(adapter)
      modifies Footprint(adapter)
      ensures Sound(adapter) && Overlays(adapter) == old(Overlays(adapter))
      ensures fresh(Footprint(adapter) - old(Footprint(adapter)))
      ensures var r := ApplyAll(Begun(old(State(adapter))), operations);
        ok == r.Some? && State(adapter) == if ok then r.value else old(State(adapter))
    {
      hide Distinct, Kin, ApplyToValue;
      var before := Snapshot(adapter);
      Begin(adapter);
      BegunIsKin(before);
      ghost var begun := State(adapter);
      var i := 0;
      while i < |operations|
        invariant 0 <= i <= |operations|
        invariant Sound(adapter) && Overlays(adapter) == old(Overlays(adapter))
        invariant fresh(Footprint(adapter) - old(Footprint(adapter)))
        invariant Kin(before, State(adapter))
        invariant ApplyAll(State(adapter), operations[i..]) == ApplyAll(begun, operations)
      {
        ghost var at := State(adapter);
        assert operations[i..][1..] == operations[i + 1..];
        OperationKeepsIdentity(at, operations[i]);
        var done := Apply(adapter, operations[i]);
        if !done {
          KinTrans(before, at, at) by { KinRefl(at); }
          Restore(adapter, before);
          return false;
        }
        KinTrans(before, at, State(adapter));
        i := i + 1;
      }
      ok := true;
    }
  }

  lemma ModelHasTree(m: Model)
    requires ModelOk(m)
    ensures Tree(m.history)
  {
  }

  /** The state the values alone predict for a scenario. */
  ghost function Predicted(initial: StateValue, actions: seq<Action>): StateValue
    requires Distinct(initial)
  {
    InitialIsOk(initial);
    RunActions(Model(initial, NewHistory(initial)), actions).value
  }

  method RunScenario(adapter: Adapter, actions: seq<Action>) returns (final: StateValue)
    requires Sound(adapter)
    modifies Footprint(adapter)
    ensures old(Distinct(State(adapter))) && final == Predicted(old(State(adapter)), actions)
  {
    hide ModelOk, Distinct, RunActions;
    SoundIsDistinct(adapter);
    InitialIsOk(State(adapter));
    var session := new Session(adapter);
    session.DispatchAll(actions);
    final := Snapshot(adapter);
  }

  lemma SoundIsDistinct(a: Adapter)
    requires Sound(a)
    ensures Distinct(State(a))
  {
  }

  method PersistentScenario(initial: StateValue, actions: seq<Action>) returns (final: StateValue)
    requires Distinct(initial)
    ensures final == Predicted(initial, actions)
  {
    hide Distinct, Predicted;
    var adapter := new PersistentAdapter(initial);
    final := RunScenario(Persistent(adapter), actions);
  }

  method ControlledScenario(initial: StateValue, actions: seq<Action>) returns (final: StateValue)
    requires Distinct(initial)
    ensures final == Predicted(initial, actions)
  {
    hide Distinct, Predicted;
    var adapter := new ControlledMutableAdapter(initial);
    final := RunScenario(Controlled(adapter), actions);
  }

  method HybridScenario(initial: StateValue, actions: seq<Action>) returns (final: StateValue)
    requires Distinct(initial)
    ensures final == Predicted(initial, actions)
  {
    hide Distinct, Predicted;
    var adapter := new HybridAdapter(initial);
    final := RunScenario(Hybrid(adapter), actions);
  }

  /** The same scenario through the three adapters ends in the same state. */
  method AdaptersAgree(initial: StateValue, actions: seq<Action>) returns (p: StateValue, c: StateValue, h: StateValue)
    requires Distinct(initial)
    ensures p == Predicted(initial, actions) && c == p && h == p
  {
    hide Distinct, Predicted;
    p := PersistentScenario(initial, actions);
    c := ControlledScenario(initial, actions);
    h := HybridScenario(initial, actions);
  }

  /** Undo and redo only ever restore a kin of the current value. */
  lemma DispatchStays(m: Model, action: Action)
    requires ModelOk(m) && !action.Transaction?
    ensures var v := Dispatch(m, action).0.value; Distinct(v) && Kin(m.value, v)
  {
    hide Distinct, Kin;
  }

  lemma AppendFits(v: TextValue, text: string)
    ensures InsertText(v, |v.text|, text).Some?
    ensures InsertText(v, |v.text|, text).value.processOutput == v.processOutput
  {
  }

  lemma SameIds(ms: seq<MutableMessage>, vs: seq<MessageValue>)
    requires |ms| == |vs| && forall i :: 0 <= i < |ms| ==> vs[i].id == ms[i].id
    ensures forall id :: Known(vs, id) <==> exists i :: 0 <= i < |ms| && ms[i].id == id
  {
    forall id | Known(vs, id) ensures exists i :: 0 <= i < |ms| && ms[i].id == id {
      var i :| 0 <= i < |vs| && vs[i].id == id;
      assert ms[i].id == id;
    }
  }

  /** With distinct ids a delivery revises exactly the message of that id. */
  lemma {:induction false} DeliveredAt(messages: seq<MessageValue>, id: string, subject: string)
    requires forall i, j :: 0 <= i < j < |messages| ==> messages[i].id != messages[j].id
    requires Known(messages, id)
    ensures var after := Delivered(messages, id, subject);
      |after| == |messages|
      && forall i :: 0 <= i < |messages| ==>
           after[i] == if messages[i].id == id then messages[i].(subject := subject) else messages[i]
    decreases |messages|
  {
    if messages[0].id != id {
      var i :| 0 <= i < |messages| && messages[i].id == id;
      assert messages[1..][i - 1].id == id;
      DeliveredAt(messages[1..], id, subject);
      var after, rest := Delivered(messages, id, subject), Delivered(messages[1..], id, subject);
      forall k | 0 <= k < |messages|
        ensures after[k] == if messages[k].id == id then messages[k].(subject := subject) else messages[k]
      {
        if k > 0 { assert after[k] == rest[k - 1] && messages[k] == messages[1..][k - 1]; }
      }
    }
  }
}
