/**
 * The chaincode entry points. `Invoke` reads the transaction arguments
 * (operation type, document category, method, JSON payload), dispatches, and
 * turns the completion into a success carrying the handler's buffer or a
 * failure carrying the JSON text of an error. JSON.parse of the payload is a
 * parameter: `None` stands for the SyntaxError it throws.
 */
module Chaincode {
  import opened Json
  import opened Errors
  import opened Ledger
  import opened Constants
  import opened SampleData
  import opened CommonHandler
  import opened SampleValidation
  import opened Helper
  import opened ValidateData

  /** `shim.success(payload)` or `shim.error(message)`. */
  datatype Response = Success(payload: Bytes) | Failure(message: Bytes)

  /** The response of one transaction and the ledger state after it. */
  datatype Completion = Completion(response: Response, state: State)

  /** The arguments `Invoke` reads, once the payload is parsed. */
  datatype Request = Request(kind: Value, category: Value, methodName: Value, data: Value)

  /** `args[i]`: `undefined` beyond the end. */
  function Arg(args: seq<string>, i: nat): Value {
    if i < |args| then Str(args[i]) else Undefined
  }

  /** The JSON document `JSON.stringify(err)` writes for a formatted error. */
  function ErrorJson(e: ErrorValue): (doc: Value)
    ensures IsJson(doc) && doc.Obj?
  {
    var doc := Obj([
      Field("name", e.name), Field("message", e.message), Field("statusCode", e.statusCode),
      Field("status", e.status), Field("object", Obj(e.context))]);
    SerialiseIsJson(doc);
    Serialise(doc)
  }

  /** `shim.error(JSON.stringify(e))`. */
  function FailWith(e: ErrorValue): Response {
    Failure(JsonText(ErrorJson(e)))
  }

  /**
   * The argument handling of `Invoke`: the payload is parsed first (a missing
   * or empty one is the empty object), then the operation type must be
   * `invoke` or `query`.
   */
  function Prepare(catalog: Catalog, parse: string -> Option<Value>, args: seq<string>): (r: Result<Request>)
    ensures r.Ok? ==> r.value.kind in {Str("invoke"), Str("query")}
    ensures r.Ok? ==> r.value.category == Arg(args, 1) && r.value.methodName == Arg(args, 2)
    ensures r.Err? ==> r.thrown == Unnamed || r.thrown == Plain(catalog, UNKNOWN_CHAINCODE_OPERATION_TYPE)
  {
    var payload := Arg(args, 3);
    var parsed := if Truthy(payload) then parse(payload.s) else Some(Obj([]));
    match parsed
    case None => Err(Unnamed)
    case Some(data) =>
      var kind := Arg(args, 0);
      if kind != Str("invoke") && kind != Str("query") then Err(Plain(catalog, UNKNOWN_CHAINCODE_OPERATION_TYPE))
      else Ok(Request(kind, Arg(args, 1), Arg(args, 2), data))
  }

  /**
   * The tail of `Invoke`: a buffer is a success; anything else returned, and
   * any error without its own `name`, becomes CHAINCODE_ERROR; a formatted
   * error is passed on as it is.
   */
  function Respond(catalog: Catalog, outcome: Outcome): (r: Response)
    ensures r.Success? <==> outcome.Returned?
    ensures outcome.Returned? ==> r.payload == outcome.payload
    ensures outcome.Threw? && outcome.thrown.Raised? ==> r == FailWith(outcome.thrown.error)
    ensures outcome.ReturnedOther? || outcome == Threw(Unnamed) ==>
              r == FailWith(Format(catalog, CHAINCODE_ERROR, Undefined))
  {
    match outcome
    case Returned(b) => Success(b)
    case Threw(Raised(e)) => FailWith(e)
    case _ => FailWith(Format(catalog, CHAINCODE_ERROR, Undefined))
  }

  /** The `try` block of `Invoke`: read the arguments, then run the operation. */
  function AttemptSpec(cfg: Config, parse: string -> Option<Value>, query: (State, Value) -> seq<Step>, state: State, args: seq<string>): Effect {
    match Prepare(cfg.errors, parse, args)
    case Err(t) => Effect(Threw(t), state)
    case Ok(req) => RunOperationSpec(cfg, query, state, req.category, req.methodName, req.data)
  }

  /** One `Invoke` transaction. */
  function InvokeSpec(cfg: Config, parse: string -> Option<Value>, query: (State, Value) -> seq<Step>, state: State, args: seq<string>): Completion {
    var eff := AttemptSpec(cfg, parse, query, state, args);
    Completion(Respond(cfg.errors, eff.outcome), eff.state)
  }

  /** `Init(stub)`: acknowledges the deployment and writes nothing. */
  method Init(stub: Stub) returns (r: Response)
    ensures r.Success? && IsEmpty(r.payload)
  {
    r := Success(Utf8(""));
  }

  /** The `try` block of `Invoke`, up to the value `runOperation` completes with. */
  method Attempt(stub: Stub, cfg: Config, parse: string -> Option<Value>, args: seq<string>) returns (outcome: Outcome)
    modifies stub
    ensures Effect(outcome, stub.state) == AttemptSpec(cfg, parse, stub.query, old(stub.state), args)
  {
    var chaincodeOperationType := Arg(args, 0);
    var categoryType := Arg(args, 1);
    var methodName := Arg(args, 2);
    var payload := Arg(args, 3);
    var operationData := Obj([]);
    if Truthy(payload) {
      var parsed := parse(payload.s);
      if parsed.None? {
        return Threw(Unnamed);
      }
      operationData := parsed.value;
    }
    if chaincodeOperationType != Str("invoke") && chaincodeOperationType != Str("query") {
      var e := Error(cfg.errors, UNKNOWN_CHAINCODE_OPERATION_TYPE, Undefined);
      return Threw(Raised(e));
    }
    outcome := RunOperation(stub, cfg, categoryType, methodName, operationData);
  }

  /** The buffer check and the `catch` block of `Invoke`. */
  method Reply(cfg: Config, outcome: Outcome) returns (r: Response)
    ensures r == Respond(cfg.errors, outcome)
  {
    if outcome.Returned? {
      return Success(outcome.payload);
    }
    if outcome.Threw? && outcome.thrown.Raised? {
      return FailWith(outcome.thrown.error);
    }
    var e := Error(cfg.errors, CHAINCODE_ERROR, Undefined);
    r := FailWith(e);
  }

  method Invoke(stub: Stub, cfg: Config, parse: string -> Option<Value>, args: seq<string>) returns (r: Response)
    modifies stub
    ensures Completion(r, stub.state) == InvokeSpec(cfg, parse, stub.query, old(stub.state), args)
  {
    var outcome := Attempt(stub, cfg, parse, args);
    r := Reply(cfg, outcome);
  }

  /** A missing or empty payload argument is the empty object. */
  lemma PayloadDefaultsToEmptyObject(catalog: Catalog, parse: string -> Option<Value>, args: seq<string>)
    requires |args| <= 3 || args[3] == ""
    requires |args| >= 1 && args[0] in {"invoke", "query"}
    ensures Prepare(catalog, parse, args).Ok? && Prepare(catalog, parse, args).value.data == Obj([])
  {
  }

  /**
   * An operation type other than `invoke` or `query` is refused with
   * UNKNOWN_CHAINCODE_OPERATION_TYPE, unless the payload fails to parse,
   * which is checked first and reported as CHAINCODE_ERROR; nothing is written.
   */
  lemma UnknownOperationTypeRefused(cfg: Config, parse: string -> Option<Value>, query: (State, Value) -> seq<Step>, state: State, args: seq<string>)
    requires Arg(args, 0) !in {Str("invoke"), Str("query")}
    ensures var c := InvokeSpec(cfg, parse, query, state, args);
            && c.state == state
            && var payload := Arg(args, 3);
            && (Truthy(payload) && parse(payload.s).None? ==>
                  c.response == FailWith(Format(cfg.errors, CHAINCODE_ERROR, Undefined)))
            && (!(Truthy(payload) && parse(payload.s).None?) ==>
                  c.response == FailWith(Format(cfg.errors, UNKNOWN_CHAINCODE_OPERATION_TYPE, Undefined)))
  {
  }

  /** `invoke` and `query` are handled alike: a query may write as much as an invoke. */
  lemma InvokeAndQueryAgree(cfg: Config, parse: string -> Option<Value>, query: (State, Value) -> seq<Step>, state: State, rest: seq<string>)
    ensures InvokeSpec(cfg, parse, query, state, ["invoke"] + rest) == InvokeSpec(cfg, parse, query, state, ["query"] + rest)
  {
    var a, b := ["invoke"] + rest, ["query"] + rest;
    assert forall i :: 1 <= i <= 3 ==> Arg(a, i) == Arg(b, i);
    var pa, pb := Prepare(cfg.errors, parse, a), Prepare(cfg.errors, parse, b);
    assert pa.Ok? <==> pb.Ok?;
    if pa.Ok? {
      assert pa.value.(kind := Str("query")) == pb.value;
    } else {
      assert pa == pb;
    }
  }

  /** A failed transaction leaves the ledger as it found it. */
  lemma FailureWritesNothing(cfg: Config, parse: string -> Option<Value>, query: (State, Value) -> seq<Step>, state: State, args: seq<string>)
    ensures var c := InvokeSpec(cfg, parse, query, state, args);
            c.response.Failure? ==> c.state == state
  {
    match Prepare(cfg.errors, parse, args)
    case Err(_) =>
    case Ok(req) =>
      OnlySuccessWrites(cfg, query, state, req.category, req.methodName, req.data);
  }

  /** The JSON text of an error with defined fields has exactly the five fields, in this order. */
  lemma ErrorJsonKeys(e: ErrorValue)
    requires FieldsDefined(e)
    ensures Keys(ErrorJson(e).fields) == ["name", "message", "statusCode", "status", "object"]
  {
    var fs := [
      Field("name", e.name), Field("message", e.message), Field("statusCode", e.statusCode),
      Field("status", e.status), Field("object", Obj(e.context))];
    var mapped := seq(|fs|, i requires 0 <= i < |fs| => Field(fs[i].key, Serialise(fs[i].val)));
    assert forall i :: 0 <= i < |mapped| ==> !mapped[i].val.Undefined?;
    assert Serialise(Obj(fs)) == Obj(mapped);
    KeysAt(mapped);
    assert forall i :: 0 <= i < |mapped| ==> mapped[i].key == fs[i].key;
  }

  /** A response to a formatted or built-in error carries an error document with the five fields. */
  lemma RespondNamesError(catalog: Catalog, outcome: Outcome)
    requires outcome.Threw? ==> Formatted(outcome.thrown)
    ensures var r := Respond(catalog, outcome);
            r.Failure? ==>
              && r.message.JsonText?
              && r.message.doc.Obj?
              && Keys(r.message.doc.fields) == ["name", "message", "statusCode", "status", "object"]
  {
    if outcome.Threw? && outcome.thrown.Raised? {
      ErrorJsonKeys(outcome.thrown.error);
    } else if !outcome.Returned? {
      ErrorJsonKeys(Format(catalog, CHAINCODE_ERROR, Undefined));
    }
  }

  /**
   * Every failure carries the JSON text of an error object with its `name`,
   * `message`, `statusCode`, `status` and `object` fields.
   */
  lemma FailureNamesItsError(cfg: Config, parse: string -> Option<Value>, query: (State, Value) -> seq<Step>, state: State, args: seq<string>)
    ensures var r := InvokeSpec(cfg, parse, query, state, args).response;
            r.Failure? ==>
              && r.message.JsonText?
              && r.message.doc.Obj?
              && Keys(r.message.doc.fields) == ["name", "message", "statusCode", "status", "object"]
  {
    match Prepare(cfg.errors, parse, args)
    case Err(t) =>
      RespondNamesError(cfg.errors, Threw(t));
    case Ok(req) =>
      OnlySuccessWrites(cfg, query, state, req.category, req.methodName, req.data);
      RespondNamesError(cfg.errors, RunOperationSpec(cfg, query, state, req.category, req.methodName, req.data).outcome);
  }

  /** The payload of the scenario below: an id and a name with a space on each side. */
  const SampleRecord := Obj([Field("id", Num(7)), Field("firstName", Str(" Ann "))])

  /** What the scenario stores: the id, the trimmed name and the document type. */
  function StoredSample(documentType: string): Value {
    Obj([Field("id", Num(7)), Field("firstName", Str("Ann")), Field("documentType", Str(documentType))])
  }

  lemma TrimSampleName()
    ensures Trim(" Ann ") == "Ann"
  {
    assert " Ann "[1..] == "Ann " && !IsJsSpace('A');
    assert TrimStart(" Ann ") == "Ann ";
    assert "Ann "[..3] == "Ann" && !IsJsSpace('n');
  }

  lemma SampleRecordNormalised()
    ensures SampleDataValid(SampleRecord)
    ensures Normalise(SampleRecord) == Obj([Field("id", Num(7)), Field("firstName", Str("Ann"))])
  {
    TrimSampleName();
    var fs := SampleRecord.fields;
    assert Lookup(fs, "id") == Num(7);
    assert Lookup(fs, "firstName") == Str(" Ann ");
    assert Lookup(fs, "lastName") == Undefined;
    assert NormaliseFields(fs) == [NormaliseField(fs[0]), NormaliseField(fs[1])];
  }

  lemma SampleRecordStamped(documentType: string)
    ensures SetField(NormaliseFields(SampleRecord.fields), "documentType", Str(documentType))
            == StoredSample(documentType).fields
  {
    var trimmed := [Field("id", Num(7)), Field("firstName", Str("Ann"))];
    assert NormaliseFields(SampleRecord.fields) == trimmed by {
      SampleRecordNormalised();
    }
    assert Keys(trimmed) == ["id", "firstName"];
    SetFieldAppends(trimmed, "documentType", Str(documentType));
    assert trimmed + [Field("documentType", Str(documentType))] == StoredSample(documentType).fields;
  }

  lemma SampleRecordCreated(cfg: Config, state: State)
    ensures CreateSpec(cfg, state, SampleRecord)
            == Effect(Returned(SUCCESS), state[GenerateKey(cfg.documentTypeData, Num(7)).value := StoredSample(cfg.documentTypeData)])
  {
    SampleRecordNormalised();
    assert IsJson(SampleRecord);
    assert Lookup(SampleRecord.fields, "id") == Num(7);
    CreateWritesStamped(cfg, state, SampleRecord);
    SampleRecordStamped(cfg.documentTypeData);
  }

  /**
   * A create followed by a get of the same id, both through `Invoke`: the
   * create succeeds with "success" and the get returns the stored record,
   * which carries the document type and the trimmed name.
   */
  lemma CreateThenGetThroughInvoke(cfg: Config, parse: string -> Option<Value>, query: (State, Value) -> seq<Step>, state: State)
    requires parse("{\"id\":7,\"firstName\":\" Ann \"}") == Some(SampleRecord)
    requires parse("7") == Some(Num(7))
    ensures var created := InvokeSpec(cfg, parse, query, state,
                             ["invoke", cfg.documentTypeData, "create", "{\"id\":7,\"firstName\":\" Ann \"}"]);
            var read := InvokeSpec(cfg, parse, query, created.state, ["query", cfg.documentTypeData, "get", "7"]);
            && created.response == Success(Utf8("success"))
            && read.state == created.state
            && read.response == Success(JsonText(StoredSample(cfg.documentTypeData)))
  {
    var dt := cfg.documentTypeData;
    CreateSampleThroughInvoke(cfg, parse, query, state);
    var after := state[GenerateKey(dt, Num(7)).value := StoredSample(dt)];
    GetThroughInvoke(cfg, parse, query, after, "7", Num(7));
  }

  /** The scenario's create, through `Invoke`: "success", and the trimmed, stamped record is stored under its key. */
  lemma CreateSampleThroughInvoke(cfg: Config, parse: string -> Option<Value>, query: (State, Value) -> seq<Step>, state: State)
    requires parse("{\"id\":7,\"firstName\":\" Ann \"}") == Some(SampleRecord)
    ensures InvokeSpec(cfg, parse, query, state, ["invoke", cfg.documentTypeData, "create", "{\"id\":7,\"firstName\":\" Ann \"}"])
            == Completion(Success(Utf8("success")), state[GenerateKey(cfg.documentTypeData, Num(7)).value := StoredSample(cfg.documentTypeData)])
  {
    var dt := cfg.documentTypeData;
    RoutesToHandlers(dt);
    InvokeRuns(cfg, parse, query, state, "invoke", "create", "{\"id\":7,\"firstName\":\" Ann \"}", SampleRecord);
    assert RunOperationSpec(cfg, query, state, Str(dt), Str("create"), SampleRecord) == CreateSpec(cfg, state, SampleRecord);
    SampleRecordCreated(cfg, state);
  }

  /** A get through `Invoke` of a stored key answers with the stored document's text and writes nothing. */
  lemma GetThroughInvoke(cfg: Config, parse: string -> Option<Value>, query: (State, Value) -> seq<Step>, state: State, text: string, id: Value)
    requires text != "" && parse(text) == Some(id)
    requires !ConversionThrows(id) && GenerateKey(cfg.documentTypeData, id).value in state
    ensures InvokeSpec(cfg, parse, query, state, ["query", cfg.documentTypeData, "get", text])
            == Completion(Success(JsonText(state[GenerateKey(cfg.documentTypeData, id).value])), state)
  {
    var dt := cfg.documentTypeData;
    RoutesToHandlers(dt);
    InvokeRuns(cfg, parse, query, state, "query", "get", text, id);
    assert RunOperationSpec(cfg, query, state, Str(dt), Str("get"), id) == GetSpec(cfg, state, id);
  }

  /**
   * A get whose payload is an object with its own `toString` field: building
   * the key throws a TypeError, which has no own `name`, so the client sees
   * CHAINCODE_ERROR and nothing is written.
   */
  lemma GetUnconvertibleThroughInvoke(cfg: Config, parse: string -> Option<Value>, query: (State, Value) -> seq<Step>, state: State,
                                      text: string, fs: seq<Field>)
    requires text != "" && parse(text) == Some(Obj(fs)) && "toString" in Keys(fs)
    ensures InvokeSpec(cfg, parse, query, state, ["query", cfg.documentTypeData, "get", text])
            == Completion(FailWith(Format(cfg.errors, CHAINCODE_ERROR, Undefined)), state)
  {
    var dt := cfg.documentTypeData;
    RoutesToHandlers(dt);
    InvokeRuns(cfg, parse, query, state, "query", "get", text, Obj(fs));
    assert RunOperationSpec(cfg, query, state, Str(dt), Str("get"), Obj(fs)) == GetSpec(cfg, state, Obj(fs));
    assert GetSpec(cfg, state, Obj(fs)) == Effect(Threw(Unnamed), state);
  }

  /** With a well-formed request, `Invoke` answers with whatever the dispatched operation completes with. */
  lemma InvokeRuns(cfg: Config, parse: string -> Option<Value>, query: (State, Value) -> seq<Step>, state: State,
                   kind: string, methodName: string, payload: string, data: Value)
    requires kind == "invoke" || kind == "query"
    requires payload != "" && parse(payload) == Some(data)
    ensures var eff := RunOperationSpec(cfg, query, state, Str(cfg.documentTypeData), Str(methodName), data);
            InvokeSpec(cfg, parse, query, state, [kind, cfg.documentTypeData, methodName, payload])
            == Completion(Respond(cfg.errors, eff.outcome), eff.state)
  {
    var args := [kind, cfg.documentTypeData, methodName, payload];
    assert Arg(args, 3) == Str(payload) && Arg(args, 0) == Str(kind);
    assert Prepare(cfg.errors, parse, args) == Ok(Request(Str(kind), Str(cfg.documentTypeData), Str(methodName), data));
  }

  /** Without a payload, `Invoke` runs the named operation on `{}` and answers with what it completes with. */
  lemma InvokeRunsWithoutPayload(cfg: Config, parse: string -> Option<Value>, query: (State, Value) -> seq<Step>, state: State,
                                 kind: string, methodName: string)
    requires kind == "invoke" || kind == "query"
    ensures var eff := RunOperationSpec(cfg, query, state, Str(cfg.documentTypeData), Str(methodName), Obj([]));
            InvokeSpec(cfg, parse, query, state, [kind, cfg.documentTypeData, methodName])
            == Completion(Respond(cfg.errors, eff.outcome), eff.state)
  {
    var args := [kind, cfg.documentTypeData, methodName];
    PayloadDefaultsToEmptyObject(cfg.errors, parse, args);
    assert Prepare(cfg.errors, parse, args) == Ok(Request(Str(kind), Str(cfg.documentTypeData), Str(methodName), Obj([])));
  }

  /**
   * `getAllByFilter` through `Invoke` without a payload: the filter is `{}`,
   * so the host is asked for records whose `id` equals `{}`; the answer is
   * the drained records' JSON text and nothing is written.
   */
  lemma GetAllWithoutPayload(cfg: Config, parse: string -> Option<Value>, query: (State, Value) -> seq<Step>, state: State, kind: string)
    requires kind == "invoke" || kind == "query"
    ensures var sel := Selector(cfg.documentTypeData, Obj([]));
            && sel.fields[0].val.fields[0].val == Obj([Field("$eq", Obj([]))])
            && InvokeSpec(cfg, parse, query, state, [kind, cfg.documentTypeData, "getAllByFilter"])
               == Completion(Success(JsonText(Arr(Collect(query(state, sel))))), state)
  {
    var dt := cfg.documentTypeData;
    var sel := Selector(dt, Obj([]));
    SelectorText(dt, Obj([]));
    assert GetAllByFilterSpec(cfg, query, state, Obj([]))
        == Effect(Returned(JsonText(Arr(Collect(query(state, sel))))), state);
    RoutesToHandlers(dt);
    assert RunOperationSpec(cfg, query, state, Str(dt), Str("getAllByFilter"), Obj([]))
        == GetAllByFilterSpec(cfg, query, state, Obj([]));
    InvokeRunsWithoutPayload(cfg, parse, query, state, kind, "getAllByFilter");
  }
}
