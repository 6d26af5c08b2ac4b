/** Auto-approval: what entitles it, and what it answers. */
module Approvals {
  import opened Prelude
  import opened Acp
  import opened Machine
  import opened MachineInvariants
  import SessionSpec

  // ---- Equal identities mean equal options ----

  lemma SameIdentitySameOptions(p: Json, q: Json)
    requires IdentityOf(p) == IdentityOf(q)
    ensures Options(p) == Options(q)
  {
    hide Discriminator, ObjectOptions;
    if p.Obj? && q.Obj? {
      var a, b := IdentityOf(p).stripped.fields, IdentityOf(q).stripped.fields;
      assert ("options" in p.fields <==> "options" in a) && ("options" in a ==> a["options"] == p.fields["options"]);
      assert ("options" in q.fields <==> "options" in b) && ("options" in b ==> b["options"] == q.fields["options"]);
    }
  }

  // ---- Provenance ----

  /** One thing that happens to a machine. */
  datatype Op =
    | Begin
    | OpenSession(cwd: string)
    | SendPrompt(text: string)
    | CancelTheTurn
    | HumanDecides(id: RequestId, decision: Decision)
    | Receive(message: Message)

  /** A human's explicit choice of an option of a tracked request. */
  datatype Choice = Choice(params: Json, optionId: string)

  function Apply(m: Machine, op: Op): Machine {
    match op
    case Begin => var r := Start(m); if r.Sent? then r.machine else m
    case OpenSession(cwd) => var r := NewSession(m, cwd); if r.Sent? then r.machine else m
    case SendPrompt(text) => var r := Prompt(m, text); if r.Sent? then r.machine else m
    case CancelTheTurn => var r := Cancel(m); if r.Folded? then r.machine else m
    case HumanDecides(id, d) => var r := Resolve(m, id, d); if r.Folded? then r.machine else m
    case Receive(message) => var r := Handle(m, message); if r.Folded? then r.machine else m
  }

  /** The human's choices since the session was opened. */
  function Record(log: seq<Choice>, m: Machine, op: Op): seq<Choice> {
    match op
    case OpenSession(cwd) => if NewSession(m, cwd).Sent? then [] else log
    case HumanDecides(id, d) =>
      if d.Selected? && id in m.incoming && id in m.params then log + [Choice(m.params[id], d.optionId)] else log
    case _ => log
  }

  function RunMachine(m: Machine, ops: seq<Op>): Machine
    decreases |ops|
  {
    if ops == [] then m else RunMachine(Apply(m, ops[0]), ops[1..])
  }

  function Choices(log: seq<Choice>, m: Machine, ops: seq<Op>): seq<Choice>
    decreases |ops|
  {
    if ops == [] then log else Choices(Record(log, m, ops[0]), Apply(m, ops[0]), ops[1..])
  }

  /** The human chose a session-wide or permanent option of this very request. */
  predicate Entitles(c: Choice, identity: Identity) {
    IdentityOf(c.params) == identity && OneOf(KindOf(Options(c.params), c.optionId), CACHEABLE_KINDS)
  }

  ghost predicate EntitledBy(log: seq<Choice>, identity: Identity) {
    exists j :: 0 <= j < |log| && Entitles(log[j], identity)
  }

  ghost predicate Justified(approvals: seq<Identity>, log: seq<Choice>) {
    forall i :: 0 <= i < |approvals| ==> EntitledBy(log, approvals[i])
  }

  lemma JustifiedByMore(approvals: seq<Identity>, log: seq<Choice>, more: seq<Choice>)
    requires Justified(approvals, log)
    ensures Justified(approvals, log + more)
  {
    var longer := log + more;
    forall i | 0 <= i < |approvals| ensures EntitledBy(longer, approvals[i]) {
      var j :| 0 <= j < |log| && Entitles(log[j], approvals[i]);
      assert longer[j] == log[j];
      assert Entitles(longer[j], approvals[i]);
    }
    assert Justified(approvals, longer);
  }

  lemma ResolveJustified(m: Machine, id: RequestId, d: Decision, log: seq<Choice>)
    requires MachineOk(m) && Justified(m.approvals, log) && id in m.incoming && Resolve(m, id, d).Folded?
    ensures d.Cancelled? ==> Resolve(m, id, d).machine.approvals == m.approvals
    ensures d.Selected? ==>
              Justified(Resolve(m, id, d).machine.approvals, log + [Choice(m.params[id], d.optionId)])
  {
    hide KindOf, Options, IdentityOf;
    if d.Selected? {
      var c := Choice(m.params[id], d.optionId);
      JustifiedByMore(m.approvals, log, [c]);
      assert (log + [c])[|log|] == c;
    }
  }

  /** An auto-approval adds nothing: its identity is in the cache already. */
  lemma AutoAddsNothing(m: Machine, id: RequestId, params: Json)
    requires MachineOk(m) && HandleRequest(m, id, REQUEST_PERMISSION, params).Folded?
    ensures HandleRequest(m, id, REQUEST_PERMISSION, params).machine.approvals == m.approvals
  {
    hide KindOf, Options, IdentityOf, SelectAuto;
  }

  lemma ApplyJustified(m: Machine, op: Op, log: seq<Choice>)
    requires MachineOk(m) && Justified(m.approvals, log) && (op.OpenSession? ==> m.outgoing == map[])
    ensures MachineOk(Apply(m, op)) && Justified(Apply(m, op).approvals, Record(log, m, op))
  {
    hide Justified, Resolve, Handle, Cancel;
    match op {
      case Begin => StartKeepsOk(m);
      case OpenSession(cwd) => NewSessionKeepsOk(m, cwd); NothingJustified();
      case SendPrompt(text) => PromptKeepsOk(m, text);
      case CancelTheTurn =>
        if m.phase == PROMPT_IN_FLIGHT { CancelAnswersAll(m); } else { CancelOutOfPhase(m); }
      case HumanDecides(id, d) =>
        ResolveKeepsOk(m, id, d);
        if Resolve(m, id, d).Folded? { ResolveJustified(m, id, d, log); }
        else if id in m.incoming && d.Selected? { JustifiedByMore(m.approvals, log, [Choice(m.params[id], d.optionId)]); }
      case Receive(message) => HandleKeepsOk(m, message); if Handle(m, message).Folded? { HandleKeepsApprovals(m, message); }
    }
  }

  lemma CancelOutOfPhase(m: Machine)
    requires m.phase != PROMPT_IN_FLIGHT
    ensures !Cancel(m).Folded?
  {
  }

  lemma NothingJustified()
    ensures Justified([], [])
  {
  }

  lemma HandleKeepsApprovals(m: Machine, message: Message)
    requires MachineOk(m) && Handle(m, message).Folded?
    ensures Handle(m, message).machine.approvals == m.approvals
  {
    hide HandleRequest, MachineOk;
    if message.Request? {
      if message.methodName == REQUEST_PERMISSION { AutoAddsNothing(m, message.id, message.params); }
      else { OtherRequests(m, message.id, message.methodName, message.params); }
    }
  }

  lemma OtherRequests(m: Machine, id: RequestId, methodName: string, params: Json)
    requires methodName != REQUEST_PERMISSION
    ensures var r := HandleRequest(m, id, methodName, params); r.Folded? && r.machine == m
  {
  }

  /** The client opens a session only when nothing else is unanswered. */
  ghost predicate OneAtATime(m: Machine, ops: seq<Op>)
    decreases |ops|
  {
    ops != [] ==> (ops[0].OpenSession? ==> m.outgoing == map[]) && OneAtATime(Apply(m, ops[0]), ops[1..])
  }

  lemma {:induction false} RunJustified(m: Machine, log: seq<Choice>, ops: seq<Op>)
    requires MachineOk(m) && Justified(m.approvals, log) && OneAtATime(m, ops)
    ensures MachineOk(RunMachine(m, ops)) && Justified(RunMachine(m, ops).approvals, Choices(log, m, ops))
    decreases |ops|
  {
    hide Apply, Record, Justified, MachineOk;
    if ops != [] {
      ApplyJustified(m, ops[0], log);
      RunJustified(Apply(m, ops[0]), Record(log, m, ops[0]), ops[1..]);
    }
  }

  /** Whatever has happened since the machine started: a permission request that is
      answered without asking has, since the session was opened, had a session-wide
      or permanent option of the same identity chosen by the human. */
  lemma {:induction false} AutoApprovalIsEntitled(ops: seq<Op>, id: RequestId, params: Json)
    requires OneAtATime(FRESH, ops)
    requires var r := HandleRequest(RunMachine(FRESH, ops), id, REQUEST_PERMISSION, params);
      r.Folded? && Answered(r.out) != []
    ensures EntitledBy(Choices([], FRESH, ops), IdentityOf(params))
  {
    hide RunMachine, Choices, Entitles, KindOf, Options, IdentityOf, SelectAuto, Resolve;
    FreshIsOk();
    NothingJustified();
    RunJustified(FRESH, [], ops);
    var m := RunMachine(FRESH, ops);
    var r := HandleRequest(m, id, REQUEST_PERMISSION, params);
    assert Answered([]) == [];
    assert IdentityOf(params) in m.approvals;
    var i :| 0 <= i < |m.approvals| && m.approvals[i] == IdentityOf(params);
  }

  lemma FreshIsOk()
    ensures MachineOk(FRESH)
  {
  }

  // ---- What a cache hit answers ----

  /** Some option of the request can be cached and carries a string id. */
  ghost predicate HasCacheable(options: seq<PermissionOption>) {
    exists i :: 0 <= i < |options| && OneOf(options[i].kind, CACHEABLE_KINDS) && options[i].optionId.Str?
  }

  lemma {:induction false} KindOfFinds(options: seq<PermissionOption>, optionId: string)
    ensures KindOf(options, optionId) != Null ==>
              exists i :: 0 <= i < |options| && options[i].optionId == Str(optionId) && options[i].kind == KindOf(options, optionId)
    decreases |options|
  {
    if options != [] && options[|options| - 1].optionId != Str(optionId) {
      var front := options[..|options| - 1];
      KindOfFinds(front, optionId);
      if KindOf(options, optionId) != Null {
        var i :| 0 <= i < |front| && front[i].optionId == Str(optionId) && front[i].kind == KindOf(front, optionId);
        assert options[i] == front[i];
      }
    }
  }

  /** A justified cache hit is a request with a cacheable option. */
  lemma HitHasCacheable(c: Choice, params: Json)
    requires Entitles(c, IdentityOf(params))
    ensures HasCacheable(Options(params))
  {
    hide Options, IdentityOf, KindOf;
    SameIdentitySameOptions(c.params, params);
    KindOfFinds(Options(params), c.optionId);
  }

  ghost predicate AllHashable(options: seq<PermissionOption>) {
    forall i :: 0 <= i < |options| ==> Hashable(options[i].kind)
  }

  lemma {:induction false} PickOfFinds(options: seq<PermissionOption>, kinds: set<string>)
    requires AllHashable(options)
    ensures match PickOf(options, kinds)
      case Picked(id) => exists i :: 0 <= i < |options| && OneOf(options[i].kind, kinds) && options[i].optionId == Str(id)
      case NoPick => forall i :: 0 <= i < |options| ==> !(OneOf(options[i].kind, kinds) && options[i].optionId.Str?)
      case BadKind => false
  {
    if options != [] && !(OneOf(options[0].kind, kinds) && options[0].optionId.Str?) {
      assert AllHashable(options[1..]);
      PickOfFinds(options[1..], kinds);
      if PickOf(options[1..], kinds).Picked? {
        var i :| 0 <= i < |options[1..]| && OneOf(options[1..][i].kind, kinds)
                 && options[1..][i].optionId == Str(PickOf(options[1..], kinds).id);
        assert options[i + 1] == options[1..][i];
      }
    }
  }

  /** The source calls a cache hit that finds no option impossible. It happens for
      exactly the requests whose first cacheable option has the empty id and that
      offer no `allow_once`. */
  lemma HitFindsOptionExactly(options: seq<PermissionOption>)
    requires AllHashable(options) && HasCacheable(options)
    ensures SelectAuto(options).NoPick? <==>
              PickOf(options, CACHEABLE_KINDS) == Picked("") && PickOf(options, {"allow_once"}).NoPick?
  {
    PickOfFinds(options, CACHEABLE_KINDS);
    PickOfFinds(options, {"allow_once"});
  }

  /** So a request whose identity is cached is put to the human all the same exactly then. */
  lemma CachedIsAskedExactly(m: Machine, id: RequestId, params: Json, c: Choice)
    requires MachineOk(m) && Live(m.phase) && id !in m.incoming
    requires IdentityOf(params) in m.approvals && Entitles(c, IdentityOf(params)) && AllHashable(Options(params))
    ensures var r := HandleRequest(m, id, REQUEST_PERMISSION, params); var options := Options(params);
      && r.Folded?
      && (r.effects == [PermissionRequested(Permission(id, params))] <==>
            PickOf(options, CACHEABLE_KINDS) == Picked("") && PickOf(options, {"allow_once"}).NoPick?)
      && (Answered(r.out) == [id] <==> r.effects != [PermissionRequested(Permission(id, params))])
  {
    hide KindOf, Options, IdentityOf, PickOf, Entitles, Resolve, SelectAuto, MachineOk;
    var options, pick := Options(params), SelectAuto(Options(params));
    HitHasCacheable(c, params);
    HitFindsOptionExactly(options);
    AutoPickIsHashable(options);
    SingleAnswered(Response(id, DecisionJson(Cancelled)));
    SingleSurfaced(Initialized(Null));
    if pick.Picked? {
      var tracked := Track(m, id, params);
      TrackKeepsOk(m, id, params);
      ResolveKeepsOk(tracked, id, Selected(pick.id));
      TrackedParams(m, id, params);
      SingleAnswered(Resolve(tracked, id, Selected(pick.id)).out[0]);
    }
  }

  lemma TrackedParams(m: Machine, id: RequestId, params: Json)
    ensures var t := Track(m, id, params); id in t.incoming && id in t.params && t.params[id] == params
  {
  }

  lemma AutoPickIsHashable(options: seq<PermissionOption>)
    requires AllHashable(options)
    ensures !SelectAuto(options).BadKind?
    ensures forall id :: Hashable(KindOf(options, id))
  {
    PickOfFinds(options, CACHEABLE_KINDS);
    PickOfFinds(options, {"allow_once"});
    forall id ensures Hashable(KindOf(options, id)) { KindOfFinds(options, id); }
  }

  function OptionJson(kind: string, id: string): Json { Obj(map["kind" := Str(kind), "optionId" := Str(id)]) }

  lemma OneOption(kind: string, id: string)
    ensures ObjectOptions([OptionJson(kind, id)]) == [PermissionOption(Str(kind), Str(id), Null)]
  {
    var o := OptionJson(kind, id);
    assert "name"[0] != "kind"[0] && |"name"| != |"optionId"| && |"kind"| != |"optionId"|;
    assert Get(o.fields, "kind") == Str(kind) && Get(o.fields, "optionId") == Str(id) && Get(o.fields, "name") == Null;
    assert [o][1..] == [] && ObjectOptions([]) == [];
  }

  lemma TwoOptions(a: (string, string), b: (string, string))
    ensures ObjectOptions([OptionJson(a.0, a.1), OptionJson(b.0, b.1)])
            == [PermissionOption(Str(a.0), Str(a.1), Null), PermissionOption(Str(b.0), Str(b.1), Null)]
  {
    var x, y := OptionJson(a.0, a.1), OptionJson(b.0, b.1);
    OneOption(a.0, a.1);
    OneOption(b.0, b.1);
    assert [x, y][1..] == [y] && [x][1..] == [];
    assert ObjectOptions([x]) == ObjectOptions([x]) + ObjectOptions([]);
  }

  lemma OfferedOptions(items: seq<Json>)
    ensures Options(Obj(map["options" := Arr(items)])) == ObjectOptions(items)
  {
  }

  /** A request that offers one permanent option, of the empty id. */
  const NAMELESS_OFFER := Obj(map["options" := Arr([OptionJson("allow_always", "")])])

  /** The key `a` grants it for good, and yet the same request is put to the human again. */
  lemma HitCanFindNothing(m: Machine, id: RequestId, id': RequestId)
    requires MachineOk(m) && Live(m.phase) && id !in m.incoming && id' !in m.incoming && id != id'
    requires IdentityOf(NAMELESS_OFFER) !in m.approvals
    ensures var params := NAMELESS_OFFER; var asked := HandleRequest(m, id, REQUEST_PERMISSION, params);
      && asked.Folded? && asked.effects == [PermissionRequested(Permission(id, params))]
      && SessionSpec.KeyDecision(Permission(id, params), "a") == SessionSpec.Answer(Selected(""))
      && var granted := Resolve(asked.machine, id, Selected(""));
         && granted.Folded? && IdentityOf(params) in granted.machine.approvals
         && var again := HandleRequest(granted.machine, id', REQUEST_PERMISSION, params);
            again.Folded? && again.effects == [PermissionRequested(Permission(id', params))]
  {
    hide IdentityOf, Options, MachineOk, Resolve;
    var params := NAMELESS_OFFER;
    OneOption("allow_always", "");
    OfferedOptions([OptionJson("allow_always", "")]);
    var o := PermissionOption(Str("allow_always"), Str(""), Null);
    assert Options(params) == [o];
    assert [o][1..] == [];
    assert PickOf([o], CACHEABLE_KINDS) == Picked("");
    assert PickOf([], {"allow_once"}) == NoPick;
    assert FirstOption([o], {"allow_always"}) == Some("");
    assert KindOf([o], "") == Str("allow_always");
    TrackKeepsOk(m, id, params);
    TrackedParams(m, id, params);
    var tracked := Track(m, id, params);
    ResolveKeepsOk(tracked, id, Selected(""));
    ResolveGrants(tracked, id, "");
    RemoveLast(m.incoming, id);
  }

  /** Ids are strings, none empty, none used twice. */
  ghost predicate DistinctIds(options: seq<PermissionOption>) {
    && (forall i :: 0 <= i < |options| ==> options[i].optionId.Str? && options[i].optionId.s != "")
    && (forall i, j :: 0 <= i < j < |options| ==> options[i].optionId != options[j].optionId)
  }

  lemma {:induction false} KindOfTheOnly(options: seq<PermissionOption>, i: nat)
    requires DistinctIds(options) && i < |options|
    ensures KindOf(options, options[i].optionId.s) == options[i].kind
    decreases |options|
  {
    if i < |options| - 1 {
      var front := options[..|options| - 1];
      assert front[i] == options[i];
      KindOfTheOnly(front, i);
    }
  }

  /** With distinct, non-empty ids every cache hit is answered with a grant. */
  lemma HitIsGranted(m: Machine, id: RequestId, params: Json, c: Choice)
    requires MachineOk(m) && Live(m.phase) && id !in m.incoming
    requires IdentityOf(params) in m.approvals && Entitles(c, IdentityOf(params))
    requires DistinctIds(Options(params)) && AllHashable(Options(params))
    ensures var r := HandleRequest(m, id, REQUEST_PERMISSION, params);
      && r.Folded? && Answered(r.out) == [id] && r.machine.incoming == m.incoming
      && |r.effects| == 1 && r.effects[0].PermissionResolved? && r.effects[0].granted
  {
    hide KindOf, Options, IdentityOf, PickOf, Resolve, Entitles;
    var options := Options(params);
    HitHasCacheable(c, params);
    PickOfFinds(options, CACHEABLE_KINDS);
    var pick := SelectAuto(options);
    var i :| 0 <= i < |options| && OneOf(options[i].kind, CACHEABLE_KINDS) && options[i].optionId == Str(pick.id);
    KindOfTheOnly(options, i);
    var tracked := Track(m, id, params);
    assert MachineOk(tracked);
    ResolveKeepsOk(tracked, id, Selected(pick.id));
    ResolveGrants(tracked, id, pick.id);
    RemoveLast(m.incoming, id);
    SingleAnswered(Resolve(tracked, id, Selected(pick.id)).out[0]);
  }

  lemma ResolveGrants(m: Machine, id: RequestId, optionId: string)
    requires MachineOk(m) && id in m.incoming && Resolve(m, id, Selected(optionId)).Folded?
    ensures var kind := KindOf(Options(m.params[id]), optionId); var r := Resolve(m, id, Selected(optionId));
      && r.effects == [PermissionResolved(id, Selected(optionId), OneOf(kind, ALLOW_KINDS))]
      && r.machine.approvals == (if OneOf(kind, CACHEABLE_KINDS) then Remember(m.approvals, IdentityOf(m.params[id])) else m.approvals)
  {
    hide KindOf, Options, IdentityOf;
  }

  // ---- What RET and `n` can mean ----

  lemma {:induction false} FirstOptionFinds(options: seq<PermissionOption>, kinds: set<string>)
    ensures match FirstOption(options, kinds)
      case Some(id) => exists i :: 0 <= i < |options| && OneOf(options[i].kind, kinds) && options[i].optionId == Str(id)
      case None => forall i :: 0 <= i < |options| ==> !(OneOf(options[i].kind, kinds) && options[i].optionId.Str?)
  {
    if options != [] && !(OneOf(options[0].kind, kinds) && options[0].optionId.Str?) {
      FirstOptionFinds(options[1..], kinds);
      if FirstOption(options[1..], kinds).Some? {
        var i :| 0 <= i < |options[1..]| && OneOf(options[1..][i].kind, kinds)
                 && options[1..][i].optionId == Str(FirstOption(options[1..], kinds).value);
        assert options[i + 1] == options[1..][i];
      }
    }
  }

  /** RET grants the one call or denies it: with distinct ids it never caches
      anything, and it grants exactly when the request offers `allow_once`. */
  lemma ReturnGrantsOneCall(m: Machine, request: Permission)
    requires MachineOk(m) && request.id in m.incoming && m.params[request.id] == request.params
    requires DistinctIds(Options(request.params))
    ensures var d := SessionSpec.AcceptDecision(request); var r := Resolve(m, request.id, d);
      && r.Folded? && r.machine.approvals == m.approvals
      && r.effects == [PermissionResolved(request.id, d, d.Selected?)]
      && (d.Selected? <==> exists i :: 0 <= i < |Options(request.params)| && Options(request.params)[i].kind == Str("allow_once"))
  {
    hide KindOf, Options, IdentityOf, FirstOption;
    var options := Options(request.params);
    FirstOptionFinds(options, {"allow_once"});
    var d := SessionSpec.AcceptDecision(request);
    ResolveKeepsOk(m, request.id, d);
    if d.Selected? {
      var i :| 0 <= i < |options| && OneOf(options[i].kind, {"allow_once"}) && options[i].optionId == Str(d.optionId);
      KindOfTheOnly(options, i);
      ResolveGrants(m, request.id, d.optionId);
    }
  }

  /** Without distinct ids it can: the last option with the chosen id decides. */
  lemma ReturnCachesExactly(m: Machine, request: Permission)
    requires MachineOk(m) && request.id in m.incoming && m.params[request.id] == request.params
    requires IdentityOf(request.params) !in m.approvals
    requires SessionSpec.AcceptDecision(request).Selected? && AllHashable(Options(request.params))
    ensures var d := SessionSpec.AcceptDecision(request); var r := Resolve(m, request.id, d);
      && r.Folded?
      && (IdentityOf(request.params) in r.machine.approvals <==>
            OneOf(KindOf(Options(request.params), d.optionId), CACHEABLE_KINDS))
  {
    hide Options, IdentityOf;
    var d := SessionSpec.AcceptDecision(request);
    KindOfFinds(Options(request.params), d.optionId);
    ResolveKeepsOk(m, request.id, d);
  }

  /** A request that offers one call and every call under the same id. */
  const TWOFOLD_OFFER := Obj(map["options" := Arr([OptionJson("allow_once", "x"), OptionJson("allow_always", "x")])])

  /** There RET, which should grant one call, caches the identity, and the same request
      is granted without asking from then on. */
  lemma ReturnCanCacheDuplicates(m: Machine, id: RequestId, id': RequestId)
    requires MachineOk(m) && Live(m.phase) && id !in m.incoming && id' !in m.incoming && id != id'
    requires IdentityOf(TWOFOLD_OFFER) !in m.approvals
    ensures var params := TWOFOLD_OFFER; var asked := HandleRequest(m, id, REQUEST_PERMISSION, params);
      && asked.Folded? && asked.effects == [PermissionRequested(Permission(id, params))]
      && SessionSpec.AcceptDecision(Permission(id, params)) == Selected("x")
      && var granted := Resolve(asked.machine, id, Selected("x"));
         && granted.Folded? && IdentityOf(params) in granted.machine.approvals
         && var again := HandleRequest(granted.machine, id', REQUEST_PERMISSION, params);
            again.Folded? && again.effects == [PermissionResolved(id', Selected("x"), true)]
  {
    hide IdentityOf, Options, MachineOk, Resolve;
    var params := TWOFOLD_OFFER;
    TwoOptions(("allow_once", "x"), ("allow_always", "x"));
    OfferedOptions([OptionJson("allow_once", "x"), OptionJson("allow_always", "x")]);
    var o, p := PermissionOption(Str("allow_once"), Str("x"), Null), PermissionOption(Str("allow_always"), Str("x"), Null);
    assert Options(params) == [o, p];
    assert [o, p][1..] == [p];
    assert PickOf([p], CACHEABLE_KINDS) == Picked("x") && PickOf([o, p], CACHEABLE_KINDS) == Picked("x");
    assert FirstOption([o, p], {"allow_once"}) == Some("x");
    assert KindOf([o, p], "x") == Str("allow_always");
    TrackKeepsOk(m, id, params);
    TrackedParams(m, id, params);
    var tracked := Track(m, id, params);
    ResolveKeepsOk(tracked, id, Selected("x"));
    ResolveGrants(tracked, id, "x");
    RemoveLast(m.incoming, id);
    var next := Resolve(tracked, id, Selected("x")).machine;
    TrackKeepsOk(next, id', params);
    TrackedParams(next, id', params);
    ResolveKeepsOk(Track(next, id', params), id', Selected("x"));
    ResolveGrants(Track(next, id', params), id', "x");
  }

  /** The option kinds a key may choose. */
  function ScopeOf(key: string): set<string> {
    if key == "y" then {"allow_once"}
    else if key == "s" then {"allow_session"}
    else if key == "a" then {"allow_always"}
    else if key == "n" then REJECT_KINDS
    else {}
  }

  predicate Offers(options: seq<PermissionOption>, kinds: set<string>) {
    exists i :: 0 <= i < |options| && OneOf(options[i].kind, kinds) && options[i].optionId.Str?
  }

  lemma {:induction false} RejectFinds(options: seq<PermissionOption>)
    requires AllHashable(options)
    ensures match SessionSpec.RejectAnswer(options)
      case Answer(Selected(id)) =>
        exists i :: 0 <= i < |options| && OneOf(options[i].kind, REJECT_KINDS) && options[i].optionId == Str(id)
      case Answer(Cancelled) => !Offers(options, REJECT_KINDS)
      case _ => false
  {
    if options != [] && !(OneOf(options[0].kind, REJECT_KINDS) && options[0].optionId.Str?) {
      assert AllHashable(options[1..]);
      RejectFinds(options[1..]);
      var rest := SessionSpec.RejectAnswer(options[1..]);
      if rest.Answer? && rest.decision.Selected? {
        var i :| 0 <= i < |options[1..]| && OneOf(options[1..][i].kind, REJECT_KINDS)
                 && options[1..][i].optionId == Str(rest.decision.optionId);
        assert options[i + 1] == options[1..][i];
      }
    }
  }

  /** What a key answers names an option of the key's own scope, and it answers
      exactly when the request offers one; `n` always answers. */
  lemma KeyChoosesItsScope(request: Permission, key: string)
    requires AllHashable(Options(request.params))
    ensures var options := Options(request.params);
      match SessionSpec.KeyDecision(request, key)
      case Answer(Selected(id)) =>
        exists i :: 0 <= i < |options| && OneOf(options[i].kind, ScopeOf(key)) && options[i].optionId == Str(id)
      case Answer(Cancelled) => key == "n" && !Offers(options, ScopeOf(key))
      case NoAnswer => key != "n" && !Offers(options, ScopeOf(key))
      case BadKind => false
  {
    hide Options;
    var options := Options(request.params);
    RejectFinds(options);
    FirstOptionFinds(options, {"allow_once"});
    FirstOptionFinds(options, {"allow_session"});
    FirstOptionFinds(options, {"allow_always"});
  }

  /** With distinct ids a key grants no more than it says: `y` one call, `s` and `a` the
      identity for the session, `n` nothing; and what it grants it remembers exactly
      for `s` and `a`. */
  lemma KeyMeansItsScope(m: Machine, request: Permission, key: string)
    requires MachineOk(m) && request.id in m.incoming && m.params[request.id] == request.params
    requires DistinctIds(Options(request.params)) && AllHashable(Options(request.params))
    requires SessionSpec.KeyDecision(request, key).Answer?
    ensures var d := SessionSpec.KeyDecision(request, key).decision; var r := Resolve(m, request.id, d);
      && r.Folded? && r.effects == [PermissionResolved(request.id, d, d.Selected? && key != "n")]
      && r.machine.approvals == if key == "s" || key == "a" then Remember(m.approvals, IdentityOf(request.params)) else m.approvals
  {
    hide Options, IdentityOf, KindOf, SessionSpec.KeyDecision, Resolve, MachineOk, Remember;
    var options, d := Options(request.params), SessionSpec.KeyDecision(request, key).decision;
    KeyChoosesItsScope(request, key);
    if d.Selected? {
      var i :| 0 <= i < |options| && OneOf(options[i].kind, ScopeOf(key)) && options[i].optionId == Str(d.optionId);
      KindOfTheOnly(options, i);
      assert HasParams(m, request.id) by { TrackedHasParams(m, request.id); }
      ResolveKeepsOk(m, request.id, d);
      ResolveGrants(m, request.id, d.optionId);
    } else {
      CancelGrantsNothing(m, request.id);
    }
  }

  predicate HasParams(m: Machine, id: RequestId) { id in m.params }

  lemma TrackedHasParams(m: Machine, id: RequestId)
    requires MachineOk(m) && id in m.incoming
    ensures id in m.params
  {
  }

  lemma CancelGrantsNothing(m: Machine, id: RequestId)
    requires id in m.incoming
    ensures var r := Resolve(m, id, Cancelled);
      r.Folded? && r.effects == [PermissionResolved(id, Cancelled, false)] && r.machine.approvals == m.approvals
  {
  }
}
