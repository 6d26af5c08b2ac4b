/** JSON-RPC 2.0 envelopes and their JSON form (sections 4, 4.1, 5 and 5.1 of the
    JSON-RPC 2.0 specification). */
module Messages {
  import opened Prelude
  import opened Acp

  function ToJson(m: Message): Json {
    var version := map["jsonrpc" := Str("2.0")];
    match m
    case Request(id, methodName, params) =>
      Obj(version["id" := IdJson(id)]["method" := Str(methodName)] + Optional("params", params))
    case Notification(methodName, params) => Obj(version["method" := Str(methodName)] + Optional("params", params))
    case Response(id, result) => Obj(version["id" := IdJson(id)]["result" := result])
    case ResponseError(id, code, text, data) =>
      Obj(version["id" := if id.Some? then IdJson(id.value) else Null]
                 ["error" := Obj(map["code" := Int(code), "message" := Str(text)] + Optional("data", data))])
  }

  /** A null member is left out. */
  function Optional(key: string, value: Json): map<string, Json> {
    if value == Null then map[] else map[key := value]
  }

  predicate ValidId(j: Json) { j.Null? || j.Str? || j.Int? }

  function IdOf(j: Json): Option<RequestId> {
    match j
    case Int(n) => Some(IntId(n))
    case Str(s) => Some(StrId(s))
    case _ => None
  }

  /** A decoded value as an envelope, `None` for a structurally invalid one. */
  function ParseMessage(payload: Json): Option<Message> {
    if !payload.Obj? || Get(payload.fields, "jsonrpc") != Str("2.0") then None
    else
      var p := payload.fields;
      var hasId, hasMethod, hasResult, hasError := "id" in p, "method" in p, "result" in p, "error" in p;
      if hasResult && hasError then None
      else if hasMethod && (hasResult || hasError) then None
      else if hasId && !ValidId(p["id"]) then None
      else if hasId && p["id"] == Null && !(hasError && !hasMethod) then None
      else if hasMethod then
        if !p["method"].Str? then None
        else if hasId then
          var id := IdOf(p["id"]);
          if id.None? then None else Some(Request(id.value, p["method"].s, Get(p, "params")))
        else Some(Notification(p["method"].s, Get(p, "params")))
      else if hasId && hasResult then
        var id := IdOf(p["id"]);
        if id.None? then None else Some(Response(id.value, p["result"]))
      else if hasId && hasError then
        var e := p["error"];
        if !e.Obj? || "code" !in e.fields || "message" !in e.fields then None
        else if !e.fields["code"].Int? || !e.fields["message"].Str? then None
        else Some(ResponseError(IdOf(p["id"]), e.fields["code"].i, e.fields["message"].s, Get(e.fields, "data")))
      else None
  }

  /** Every envelope survives the trip over JSON. */
  lemma ParseUndoesToJson(m: Message)
    ensures ParseMessage(ToJson(m)) == Some(m)
  {
    match m {
      case Request(id, methodName, params) => assert IdOf(IdJson(id)) == Some(id);
      case ResponseError(id, code, text, data) => if id.Some? { assert IdOf(IdJson(id.value)) == Some(id.value); }
      case _ =>
    }
  }

  // ---- The four shapes the specification allows ----

  predicate Has(j: Json, key: string) { j.Obj? && key in j.fields }

  predicate IsRequest(j: Json) {
    Has(j, "id") && IdOf(j.fields["id"]).Some? && Has(j, "method") && j.fields["method"].Str?
    && !Has(j, "result") && !Has(j, "error")
  }

  predicate IsNotification(j: Json) {
    !Has(j, "id") && Has(j, "method") && j.fields["method"].Str? && !Has(j, "result") && !Has(j, "error")
  }

  predicate IsResponse(j: Json) {
    Has(j, "id") && IdOf(j.fields["id"]).Some? && Has(j, "result") && !Has(j, "method") && !Has(j, "error")
  }

  predicate IsErrorResponse(j: Json) {
    Has(j, "id") && ValidId(j.fields["id"]) && Has(j, "error") && !Has(j, "method") && !Has(j, "result")
    && Has(j.fields["error"], "code") && j.fields["error"].fields["code"].Int?
    && Has(j.fields["error"], "message") && j.fields["error"].fields["message"].Str?
  }

  /** A value is accepted exactly when it carries the version and has one of the
      four shapes, and the shape decides what it becomes. */
  lemma ParsesExactlyTheShapes(j: Json)
    ensures ParseMessage(j).Some? <==>
              Has(j, "jsonrpc") && j.fields["jsonrpc"] == Str("2.0")
              && (IsRequest(j) || IsNotification(j) || IsResponse(j) || IsErrorResponse(j))
    ensures ParseMessage(j).Some? ==>
              var m := ParseMessage(j).value;
              && (m.Request? <==> IsRequest(j)) && (m.Notification? <==> IsNotification(j))
              && (m.Response? <==> IsResponse(j)) && (m.ResponseError? <==> IsErrorResponse(j))
  {
  }
}
