/** What every transition of the ACP machine keeps. */
module MachineInvariants {
  import opened Prelude
  import opened Acp
  import opened Machine

  /** At most one request of ours is unanswered, and the phase says which. */
  ghost predicate OutgoingOk(m: Machine) {
    && (forall id :: id in m.outgoing ==> id.IntId? && 0 <= id.n < m.nextId)
    && match m.phase
       case DISCONNECTED => m.outgoing == map[]
       case INITIALIZING => exists n: nat :: m.outgoing == map[IntId(n) := INITIALIZE]
       case READY => m.outgoing == map[] || exists n: nat :: m.outgoing == map[IntId(n) := SESSION_NEW]
       case SESSION_ACTIVE => m.outgoing == map[]
       case PROMPT_IN_FLIGHT => m.outgoing == map[] || exists n: nat :: m.outgoing == map[IntId(n) := SESSION_PROMPT]
  }

  /** Tracked requests are distinct, have their parameters, and exist in a live session only. */
  ghost predicate IncomingOk(m: Machine) {
    && NoDuplicates(m.incoming)
    && (forall id :: id in m.incoming <==> id in m.params)
    && (m.incoming != [] ==> Live(m.phase))
    && (Live(m.phase) <==> m.sessionId.Some?)
  }

  ghost predicate MachineOk(m: Machine) { OutgoingOk(m) && IncomingOk(m) }

  lemma {:induction false} RemoveFacts(ids: seq<RequestId>, id: RequestId)
    requires NoDuplicates(ids)
    ensures NoDuplicates(Remove(ids, id))
    ensures forall x :: x in Remove(ids, id) <==> x in ids && x != id
    ensures id in ids ==> |Remove(ids, id)| == |ids| - 1
  {
    if ids != [] {
      RemoveFacts(ids[1..], id);
      assert ids[0] !in ids[1..];
      if ids[0] == id {
        RemoveAbsent(ids[1..], id);
      } else {
        var rest := Remove(ids[1..], id);
        assert forall j :: 0 <= j < |rest| ==> rest[j] in rest;
        assert ids[0] !in rest;
      }
    }
  }

  lemma {:induction false} RemoveAbsent(ids: seq<RequestId>, id: RequestId)
    requires id !in ids
    ensures Remove(ids, id) == ids
  {
    if ids != [] { RemoveAbsent(ids[1..], id); }
  }

  /** Answering a tracked request clears it, writes one response with its id, and
      touches nothing of the rest of the protocol state. */
  lemma ResolveKeepsOk(m: Machine, id: RequestId, d: Decision)
    requires MachineOk(m)
    ensures var r := Resolve(m, id, d);
      && (r.NotTracked? <==> id !in m.incoming)
      && (r.Unhashable? <==> id in m.incoming && d.Selected? && !Hashable(KindOf(Options(m.params[id]), d.optionId)))
      && (r.Folded? ==>
            && MachineOk(r.machine) && r.machine.incoming == Remove(m.incoming, id)
            && r.machine.phase == m.phase && r.machine.outgoing == m.outgoing && r.machine.nextId == m.nextId
            && r.machine.sessionId == m.sessionId && r.machine.params == m.params - {id}
            && r.out == [Response(id, DecisionJson(d))]
            && |r.effects| == 1 && r.effects[0].PermissionResolved? && r.effects[0].id == id && r.effects[0].decision == d)
  {
    hide KindOf, Options, IdentityOf, OutgoingOk, DecisionJson, Remember;
    RemoveFacts(m.incoming, id);
    var r := Resolve(m, id, d);
    if r.Folded? { SameOutgoing(m, r.machine); }
  }

  // ---- Our own requests ----

  lemma StartKeepsOk(m: Machine)
    requires MachineOk(m)
    ensures var r := Start(m);
      && (r.OutOfPhase? <==> m.phase != DISCONNECTED)
      && (r.Sent? ==> MachineOk(r.machine) && r.machine.phase == INITIALIZING && r.request.Request?
                      && r.request.id == IntId(m.nextId) && r.machine.incoming == m.incoming)
  {
    var r := Start(m);
    if r.Sent? { assert r.machine.outgoing == map[IntId(m.nextId) := INITIALIZE]; }
  }

  lemma NewSessionKeepsOk(m: Machine, cwd: string)
    requires MachineOk(m) && m.outgoing == map[]
    ensures var r := NewSession(m, cwd);
      && (r.OutOfPhase? <==> m.phase != READY)
      && (r.Sent? ==> MachineOk(r.machine) && r.machine.phase == READY && r.request.Request?
                      && r.request.id == IntId(m.nextId) && r.machine.incoming == m.incoming)
  {
    var r := NewSession(m, cwd);
    if r.Sent? { assert r.machine.outgoing == map[IntId(m.nextId) := SESSION_NEW]; }
  }

  lemma PromptKeepsOk(m: Machine, text: string)
    requires MachineOk(m)
    ensures var r := Prompt(m, text);
      && (r.OutOfPhase? <==> m.phase != SESSION_ACTIVE)
      && (r.Sent? ==> MachineOk(r.machine) && r.machine.phase == PROMPT_IN_FLIGHT && r.request.Request?
                      && r.request.id == IntId(m.nextId) && r.machine.incoming == m.incoming)
  {
    var r := Prompt(m, text);
    if r.Sent? { assert r.machine.outgoing == map[IntId(m.nextId) := SESSION_PROMPT]; }
  }

  /** Two `session/new` from the same READY machine leave two requests unanswered:
      one at a time is the pump's doing, not the machine's. */
  lemma NewSessionTwice(m: Machine, cwd: string)
    requires m.phase == READY && m.outgoing == map[]
    ensures var first := NewSession(m, cwd); var second := NewSession(first.machine, cwd);
      first.Sent? && second.Sent? && |second.machine.outgoing| == 2
  {
    var second := NewSession(NewSession(m, cwd).machine, cwd).machine;
    assert second.outgoing.Keys == {IntId(m.nextId), IntId(m.nextId + 1)};
    assert IntId(m.nextId) != IntId(m.nextId + 1);
    assert |second.outgoing.Keys| == 2;
  }

  // ---- Cancelling ----

  function Resolutions(ids: seq<RequestId>): seq<Effect>
    decreases |ids|
  {
    if ids == [] then [] else [PermissionResolved(ids[0], Cancelled, false)] + Resolutions(ids[1..])
  }

  function Refusals(ids: seq<RequestId>): seq<Message>
    decreases |ids|
  {
    if ids == [] then [] else [Response(ids[0], DecisionJson(Cancelled))] + Refusals(ids[1..])
  }

  lemma {:induction false} SweepAnswersAll(m: Machine, ids: seq<RequestId>)
    requires MachineOk(m) && m.incoming == ids
    ensures var r := Sweep(m, ids);
      && MachineOk(r.0) && r.0.incoming == [] && r.0.params == map[]
      && r.0.phase == m.phase && r.0.outgoing == m.outgoing && r.0.nextId == m.nextId && r.0.sessionId == m.sessionId
      && r.0.approvals == m.approvals
      && r.1 == Refusals(ids) && r.2 == Resolutions(ids)
    decreases |ids|
  {
    if ids == [] {
      assert forall id :: id in m.params <==> id in ids;
    } else {
      ResolveKeepsOk(m, ids[0], Cancelled);
      assert ids[0] !in ids[1..];
      RemoveAbsent(ids[1..], ids[0]);
      SweepAnswersAll(Resolve(m, ids[0], Cancelled).machine, ids[1..]);
    }
  }

  /** A cancelled turn answers every pending request, in order, with a refusal. */
  lemma CancelAnswersAll(m: Machine)
    requires MachineOk(m) && m.phase == PROMPT_IN_FLIGHT
    ensures var r := Cancel(m);
      && r.Folded? && MachineOk(r.machine)
      && r.machine.incoming == [] && r.machine.phase == PROMPT_IN_FLIGHT && r.machine.outgoing == m.outgoing
      && r.machine.nextId == m.nextId && r.machine.sessionId == m.sessionId && r.machine.approvals == m.approvals
      && r.out == [Notification(SESSION_CANCEL, Obj(map["sessionId" := SessionJson(m)]))] + Refusals(m.incoming)
      && r.effects == Resolutions(m.incoming)
  {
    SweepAnswersAll(m, m.incoming);
  }

  // ---- Inbound envelopes ----

  /** The requests a batch of effects surfaces to the human. */
  function Surfaced(effects: seq<Effect>): seq<Permission>
    decreases |effects|
  {
    if effects == [] then []
    else (if effects[0].PermissionRequested? then [effects[0].request] else []) + Surfaced(effects[1..])
  }

  function SurfacedIds(effects: seq<Effect>): seq<RequestId>
    decreases |effects|
  {
    if effects == [] then []
    else (if effects[0].PermissionRequested? then [effects[0].request.id] else []) + SurfacedIds(effects[1..])
  }

  /** The permission requests a list of replies answers. */
  function Answered(out: seq<Message>): seq<RequestId>
    decreases |out|
  {
    if out == [] then []
    else (if out[0].Response? then [out[0].id] else []) + Answered(out[1..])
  }

  // What a search among a request's options trips over.

  predicate Takes(o: PermissionOption, kinds: set<string>) { OneOf(o.kind, kinds) && o.optionId.Str? }

  /** Looking for an option of `kinds`, one meets a kind that is a list or an object. */
  ghost predicate MeetsBadKind(options: seq<PermissionOption>, kinds: set<string>) {
    exists i :: 0 <= i < |options| && !Hashable(options[i].kind) && forall j :: 0 <= j < i ==> !Takes(options[j], kinds)
  }

  /** Looking for an option of `kinds`, one comes upon `id` first. */
  ghost predicate MeetsId(options: seq<PermissionOption>, kinds: set<string>, id: string) {
    exists i :: 0 <= i < |options| && Takes(options[i], kinds) && options[i].optionId == Str(id)
      && forall j :: 0 <= j < i ==> Hashable(options[j].kind) && !Takes(options[j], kinds)
  }

  lemma MeetsNext(options: seq<PermissionOption>, kinds: set<string>)
    requires options != [] && Hashable(options[0].kind)
    ensures MeetsBadKind(options, kinds) <==> !Takes(options[0], kinds) && MeetsBadKind(options[1..], kinds)
    ensures forall id :: MeetsId(options, kinds, id) <==>
              if Takes(options[0], kinds) then options[0].optionId == Str(id) else MeetsId(options[1..], kinds, id)
  {
    var rest := options[1..];
    if MeetsBadKind(options, kinds) {
      var i :| 0 <= i < |options| && !Hashable(options[i].kind) && forall j :: 0 <= j < i ==> !Takes(options[j], kinds);
      assert rest[i - 1] == options[i] && !Takes(options[0], kinds);
      forall j | 0 <= j < i - 1 ensures !Takes(rest[j], kinds) { assert rest[j] == options[j + 1]; }
    }
    if !Takes(options[0], kinds) && MeetsBadKind(rest, kinds) {
      var i :| 0 <= i < |rest| && !Hashable(rest[i].kind) && forall j :: 0 <= j < i ==> !Takes(rest[j], kinds);
      assert options[i + 1] == rest[i];
      forall j | 0 <= j < i + 1 ensures !Takes(options[j], kinds) { if j > 0 { assert options[j] == rest[j - 1]; } }
    }
    forall id
      ensures MeetsId(options, kinds, id) <==>
                if Takes(options[0], kinds) then options[0].optionId == Str(id) else MeetsId(rest, kinds, id)
    {
      MeetsIdNext(options, kinds, id);
    }
  }

  lemma MeetsIdNext(options: seq<PermissionOption>, kinds: set<string>, id: string)
    requires options != [] && Hashable(options[0].kind)
    ensures MeetsId(options, kinds, id) <==>
              if Takes(options[0], kinds) then options[0].optionId == Str(id) else MeetsId(options[1..], kinds, id)
  {
    var rest := options[1..];
    if MeetsId(options, kinds, id) && !Takes(options[0], kinds) {
      var i :| 0 <= i < |options| && Takes(options[i], kinds) && options[i].optionId == Str(id)
        && forall j :: 0 <= j < i ==> Hashable(options[j].kind) && !Takes(options[j], kinds);
      assert rest[i - 1] == options[i];
      forall j | 0 <= j < i - 1 ensures Hashable(rest[j].kind) && !Takes(rest[j], kinds) { assert rest[j] == options[j + 1]; }
    }
    if !Takes(options[0], kinds) && MeetsId(rest, kinds, id) {
      var i :| 0 <= i < |rest| && Takes(rest[i], kinds) && rest[i].optionId == Str(id)
        && forall j :: 0 <= j < i ==> Hashable(rest[j].kind) && !Takes(rest[j], kinds);
      assert options[i + 1] == rest[i];
      forall j | 0 <= j < i + 1 ensures Hashable(options[j].kind) && !Takes(options[j], kinds) {
        if j > 0 { assert options[j] == rest[j - 1]; }
      }
    }
  }

  /** The search raises exactly on such a kind, and else picks what it comes upon. */
  lemma {:induction false} SearchesRaise(options: seq<PermissionOption>, kinds: set<string>)
    ensures PickOf(options, kinds).BadKind? <==> MeetsBadKind(options, kinds)
    ensures forall id :: PickOf(options, kinds) == Picked(id) <==> MeetsId(options, kinds, id)
    decreases |options|
  {
    if options != [] {
      SearchesRaise(options[1..], kinds);
      if Hashable(options[0].kind) { MeetsNext(options, kinds); } else { assert MeetsBadKind(options, kinds); }
    }
  }

  /** The search for an automatic answer takes the first cacheable option, or else, also
      for an empty id, the first that allows once; it trips over a kind on its way. */
  ghost predicate AutoStumbles(options: seq<PermissionOption>) {
    || MeetsBadKind(options, CACHEABLE_KINDS)
    || (MeetsId(options, CACHEABLE_KINDS, "") && MeetsBadKind(options, {"allow_once"}))
  }

  ghost predicate AutoTakes(options: seq<PermissionOption>, id: string) {
    || (id != "" && MeetsId(options, CACHEABLE_KINDS, id))
    || (!MeetsBadKind(options, CACHEABLE_KINDS) && MeetsId(options, {"allow_once"}, id)
        && forall other :: other != "" ==> !MeetsId(options, CACHEABLE_KINDS, other))
  }

  lemma AutoSearch(options: seq<PermissionOption>)
    ensures SelectAuto(options).BadKind? <==> AutoStumbles(options)
    ensures forall id :: SelectAuto(options) == Picked(id) <==> AutoTakes(options, id)
  {
    hide MeetsBadKind, MeetsId, PickOf;
    SearchesRaise(options, CACHEABLE_KINDS);
    SearchesRaise(options, {"allow_once"});
    if PickOf(options, CACHEABLE_KINDS).NoPick? { NoneCacheable(options, {"allow_once"}); }
  }

  /** A search that finds nothing has looked at every kind. */
  lemma {:induction false} NoneCacheable(options: seq<PermissionOption>, kinds: set<string>)
    requires PickOf(options, CACHEABLE_KINDS).NoPick?
    ensures !PickOf(options, kinds).BadKind?
    decreases |options|
  {
    if options != [] { NoneCacheable(options[1..], kinds); }
  }

  /** The malformed envelopes on which the fold raises: an update whose kind cannot be
      looked up, or a request of a cached identity with an option kind that cannot. */
  ghost predicate Raises(m: Machine, message: Message) {
    match message
    case Notification(methodName, params) =>
      && methodName == SESSION_UPDATE && m.sessionId.Some?
      && var fields := FieldsOf(params);
         Get(fields, "sessionId") == Str(m.sessionId.value)
         && Get(fields, "update").Obj? && !Hashable(Get(Get(fields, "update").fields, "sessionUpdate"))
    case Request(id, methodName, params) =>
      && methodName == REQUEST_PERMISSION && Live(m.phase) && id !in m.incoming && IdentityOf(params) in m.approvals
      && var options := Options(params);
         AutoStumbles(options) || exists option :: AutoTakes(options, option) && !Hashable(KindOf(options, option))
    case _ => false
  }

  lemma SingleSurfaced(e: Effect)
    ensures SurfacedIds([e]) == if e.PermissionRequested? then [e.request.id] else []
    ensures SurfacedIds([]) == [] && Answered([]) == []
  {
    assert [e][1..] == [];
  }

  lemma SingleAnswered(out: Message)
    ensures Answered([out]) == if out.Response? then [out.id] else []
  {
    assert [out][1..] == [];
  }

  /** What one fold does to the tracked requests: it appends what it surfaces, and
      answers only the request it is handling. */
  ghost predicate FoldsCleanly(m: Machine, message: Message, r: Folded)
    requires r.Folded?
  {
    && MachineOk(r.machine)
    && r.machine.nextId == m.nextId
    && r.machine.incoming == m.incoming + SurfacedIds(r.effects)
    && (Answered(r.out) == [] || (message.Request? && Answered(r.out) == [message.id] && SurfacedIds(r.effects) == []))
    && (Answered(r.out) != [] || SurfacedIds(r.effects) != [] ==> message.Request? && message.methodName == REQUEST_PERMISSION)
  }

  lemma ResultKeepsIncoming(m: Machine, id: RequestId, result: Json)
    requires MachineOk(m)
    ensures IncomingOk(HandleResult(m, id, result).machine)
  {
    hide NoDuplicates;
  }

  lemma ResultKeepsOk(m: Machine, id: RequestId, result: Json)
    requires MachineOk(m)
    ensures var r := HandleResult(m, id, result);
      r.Folded? && MachineOk(r.machine) && r.machine.nextId == m.nextId && r.machine.incoming == m.incoming
      && r.out == [] && |r.effects| <= 1 && (r.effects != [] ==> !r.effects[0].PermissionRequested?)
  {
    hide NoDuplicates, IncomingOk;
    if id in m.outgoing { assert m.outgoing - {id} == map[]; }
    ResultKeepsIncoming(m, id, result);
  }

  lemma ErrorKeepsOk(m: Machine, id: Option<RequestId>, code: int, text: string)
    requires MachineOk(m)
    ensures var r := HandleError(m, id, code, text);
      r.Folded? && MachineOk(r.machine) && r.machine.nextId == m.nextId && r.machine.incoming == m.incoming
      && r.out == [] && |r.effects| <= 1 && (r.effects != [] ==> !r.effects[0].PermissionRequested?)
  {
    hide NoDuplicates;
    if id.Some? && id.value in m.outgoing { assert m.outgoing - {id.value} == map[]; }
  }

  /** A fold that neither tracks, surfaces nor answers anything. */
  lemma QuietFoldsCleanly(m: Machine, message: Message, r: Folded)
    requires r.Folded? && MachineOk(r.machine) && r.machine.nextId == m.nextId && r.machine.incoming == m.incoming
    requires r.out == [] && |r.effects| <= 1 && (r.effects != [] ==> !r.effects[0].PermissionRequested?)
    ensures FoldsCleanly(m, message, r)
  {
    hide MachineOk;
    if r.effects != [] {
      SingleSurfaced(r.effects[0]);
      assert r.effects == [r.effects[0]];
    }
    assert m.incoming + [] == m.incoming;
  }

  lemma ResultFoldsCleanly(m: Machine, id: RequestId, result: Json)
    requires MachineOk(m)
    ensures var r := HandleResult(m, id, result); r.Folded? && FoldsCleanly(m, Response(id, result), r)
  {
    hide MachineOk, HandleResult, FoldsCleanly;
    ResultKeepsOk(m, id, result);
    QuietFoldsCleanly(m, Response(id, result), HandleResult(m, id, result));
  }

  lemma ErrorFoldsCleanly(m: Machine, id: Option<RequestId>, code: int, text: string, data: Json)
    requires MachineOk(m)
    ensures var r := HandleError(m, id, code, text); r.Folded? && FoldsCleanly(m, ResponseError(id, code, text, data), r)
  {
    hide MachineOk, HandleError, FoldsCleanly;
    ErrorKeepsOk(m, id, code, text);
    QuietFoldsCleanly(m, ResponseError(id, code, text, data), HandleError(m, id, code, text));
  }

  lemma NotificationFoldsCleanly(m: Machine, methodName: string, params: Json)
    requires MachineOk(m)
    ensures var r := HandleNotification(m, methodName, params);
      && (r.Folded? ==> FoldsCleanly(m, Notification(methodName, params), r) && r.machine == m && r.out == [])
      && (r.Unhashable? <==> Raises(m, Notification(methodName, params))) && !r.NotTracked?
  {
    hide MachineOk;
    var r := HandleNotification(m, methodName, params);
    if r.Folded? && r.effects != [] {
      SingleSurfaced(r.effects[0]);
      assert r.effects == [r.effects[0]];
    }
  }

  lemma TrackKeepsOk(m: Machine, id: RequestId, params: Json)
    requires MachineOk(m) && Live(m.phase) && id !in m.incoming
    ensures MachineOk(Track(m, id, params))
  {
    hide OutgoingOk;
    assert OutgoingOk(Track(m, id, params)) by { SameOutgoing(m, Track(m, id, params)); }
  }

  lemma SameOutgoing(m: Machine, m': Machine)
    requires OutgoingOk(m) && m'.outgoing == m.outgoing && m'.phase == m.phase && m'.nextId == m.nextId
    ensures OutgoingOk(m')
  {
  }

  /** A request is refused outright, answered from the cache, or put to the human. */
  lemma RequestCases(m: Machine, id: RequestId, methodName: string, params: Json)
    ensures var r := HandleRequest(m, id, methodName, params);
      var hit, pick := IdentityOf(params) in m.approvals, SelectAuto(Options(params));
      if !Admissible(m, id, methodName) then
        && r.Folded? && r.machine == m && |r.out| + |r.effects| == 1
        && (r.out != [] ==> r.out[0].ResponseError?) && (r.effects != [] ==> r.effects[0].ProtocolError?)
      else if hit && pick.BadKind? then r.Unhashable?
      else if hit && pick.Picked? then r == Resolve(Track(m, id, params), id, Selected(pick.id))
      else r == Folded(Track(m, id, params), [], [PermissionRequested(Permission(id, params))])
  {
    hide KindOf, Options, IdentityOf, SelectAuto, Resolve, Track;
  }

  lemma RequestFoldsCleanly(m: Machine, id: RequestId, methodName: string, params: Json)
    requires MachineOk(m)
    ensures var r := HandleRequest(m, id, methodName, params);
      && (r.Folded? ==> FoldsCleanly(m, Request(id, methodName, params), r))
      && (r.Unhashable? <==> Raises(m, Request(id, methodName, params))) && !r.NotTracked?
  {
    hide AutoStumbles, AutoTakes, KindOf, Options, IdentityOf, SelectAuto, Resolve, MachineOk, HandleRequest, Live;
    RequestCases(m, id, methodName, params);
    AutoSearch(Options(params));
    var r, pick := HandleRequest(m, id, methodName, params), SelectAuto(Options(params));
    assert pick.Picked? ==> AutoTakes(Options(params), pick.id);
    if !Admissible(m, id, methodName) {
      SingleAnswered(if r.out != [] then r.out[0] else Notification("", Null));
      SingleSurfaced(if r.effects != [] then r.effects[0] else Initialized(Null));
      if r.out != [] { assert r.out == [r.out[0]]; } else { assert r.effects == [r.effects[0]]; }
      assert m.incoming + [] == m.incoming;
    } else {
      TrackKeepsOk(m, id, params);
      if IdentityOf(params) in m.approvals && pick.Picked? {
        ResolveKeepsOk(Track(m, id, params), id, Selected(pick.id));
        RemoveLast(m.incoming, id);
        if r.Folded? {
          SingleAnswered(r.out[0]);
          SingleSurfaced(r.effects[0]);
          assert r.effects == [r.effects[0]];
        }
      } else if r.Folded? {
        SingleSurfaced(r.effects[0]);
      }
    }
  }

  lemma {:induction false} RemoveLast(ids: seq<RequestId>, id: RequestId)
    requires id !in ids
    ensures Remove(ids + [id], id) == ids
  {
    if ids != [] {
      RemoveLast(ids[1..], id);
      assert (ids + [id])[1..] == ids[1..] + [id];
    } else {
      assert ([] + [id]) == [id] && [id][1..] == [];
    }
  }

  /** Folding any envelope keeps the machine well formed, or raises on exactly the
      malformed payloads named by `Raises`. */
  lemma HandleKeepsOk(m: Machine, message: Message)
    requires MachineOk(m)
    ensures var r := Handle(m, message);
      && (r.Folded? ==> FoldsCleanly(m, message, r))
      && (r.Unhashable? <==> Raises(m, message)) && !r.NotTracked?
  {
    hide MachineOk, FoldsCleanly, HandleResult, HandleError, HandleNotification, HandleRequest, Raises;
    match message {
      case Response(id, result) => ResultFoldsCleanly(m, id, result); NeverRaises(m, message);
      case ResponseError(id, code, text, data) => ErrorFoldsCleanly(m, id, code, text, data); NeverRaises(m, message);
      case Notification(methodName, params) => NotificationFoldsCleanly(m, methodName, params);
      case Request(id, methodName, params) => RequestFoldsCleanly(m, id, methodName, params);
    }
  }

  lemma NeverRaises(m: Machine, message: Message)
    requires message.Response? || message.ResponseError?
    ensures !Raises(m, message)
  {
  }

  /** No prompt can be carried, and no request of ours is unanswered that could change it. */
  predicate Stranded(m: Machine) { m.phase != SESSION_ACTIVE && m.outgoing == map[] }

  /** The result of a prompt ends the turn exactly when its stop reason is known;
      otherwise the turn is stranded. */
  lemma BadStopReasonStrandsTheTurn(m: Machine, id: RequestId, result: Json)
    requires MachineOk(m) && m.phase == PROMPT_IN_FLIGHT && id in m.outgoing
    ensures var r := Handle(m, Response(id, result)); var stop := Get(FieldsOf(result), "stopReason");
      && r.Folded? && r.machine.outgoing == map[] && r.out == []
      && r.machine.phase == (if OneOf(stop, STOP_REASONS) then SESSION_ACTIVE else PROMPT_IN_FLIGHT)
      && (Stranded(r.machine) <==> !OneOf(stop, STOP_REASONS))
      && r.effects == [if OneOf(stop, STOP_REASONS) then PromptCompleted(stop.s) else ProtocolError(BadStopReason(stop))]
  {
    assert m.outgoing - {id} == map[];
  }

  /** No envelope the agent may send, and no answer of the human's, gets it going again. */
  lemma StrandedForGood(m: Machine, message: Message, id: RequestId, d: Decision)
    requires Stranded(m)
    ensures var r := Handle(m, message);
      r.Folded? ==> Stranded(r.machine) && r.machine.phase == m.phase && r.machine.nextId == m.nextId
    ensures var r := Resolve(m, id, d);
      r.Folded? ==> Stranded(r.machine) && r.machine.phase == m.phase && r.machine.nextId == m.nextId
  {
    hide KindOf, Options, IdentityOf, SelectAuto, Remember;
  }
}
