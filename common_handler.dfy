/**
 * The dispatcher: picks the handler module for a document category and the
 * handler for a method name, and runs it. Unknown categories and methods are
 * refused with their own errors.
 */
module CommonHandler {
  import opened Json
  import opened Errors
  import opened Ledger
  import opened Constants
  import opened SampleData

  /** The four handlers the sample-data module exports. */
  datatype Operation = Create | Get | Update | GetAllByFilter

  /** Where a (category, method) pair leads. */
  datatype Route =
    | UnknownCategory
    | UnknownMethod
    | Unconvertible  // the method name cannot be turned into a property key
    | Call(op: Operation)
    | Inherited(name: string)  // a function every object inherits, not a handler

  /** The handler a property name selects on the sample-data module, if any. */
  function HandlerNamed(name: string): (r: Option<Operation>)
    ensures r.Some? <==> name in {"create", "get", "update", "getAllByFilter"}
  {
    if name == "create" then Some(Create)
    else if name == "get" then Some(Get)
    else if name == "update" then Some(Update)
    else if name == "getAllByFilter" then Some(GetAllByFilter)
    else None
  }

  /** The function-valued properties every plain object inherits from `Object.prototype`. */
  const PrototypeFunctions: set<string> := {
    "constructor", "hasOwnProperty", "isPrototypeOf", "propertyIsEnumerable",
    "toString", "toLocaleString", "valueOf",
    "__defineGetter__", "__defineSetter__", "__lookupGetter__", "__lookupSetter__"}

  /**
   * The dispatch as written: the category must equal the configured document
   * type; then `typeof module[method] !== 'function'` decides, which inherited
   * functions pass. Reading `module[method]` converts the name to a property
   * key, which throws where the conversion does.
   */
  function ResolveAsWritten(documentType: string, category: Value, methodName: Value): Route {
    if category != Str(documentType) then UnknownCategory
    else
      match JsString(methodName)
      case None => Unconvertible
      case Some(name) =>
        match HandlerNamed(name)
        case Some(op) => Call(op)
        case None => if name in PrototypeFunctions then Inherited(name) else UnknownMethod
  }

  /**
   * The dispatch as intended: only the module's own handlers are callable;
   * every other method name is an unknown method.
   */
  function Resolve(documentType: string, category: Value, methodName: Value): (r: Route)
    ensures r == UnknownCategory <==> category != Str(documentType)
    ensures r == Unconvertible <==> category == Str(documentType) && ConversionThrows(methodName)
    ensures r.Call? <==>
              category == Str(documentType) && JsString(methodName).Some? && HandlerNamed(JsString(methodName).value).Some?
    ensures r.Call? ==> HandlerNamed(JsString(methodName).value) == Some(r.op)
    ensures !r.Inherited?
  {
    if category != Str(documentType) then UnknownCategory
    else
      match JsString(methodName)
      case None => Unconvertible
      case Some(name) =>
        match HandlerNamed(name)
        case Some(op) => Call(op)
        case None => UnknownMethod
  }

  /**
   * What calling an inherited function as `(stub, data)` gives back: the two
   * `__define…__` functions throw a TypeError because the parsed payload is
   * never a function; the others return something that is not a buffer.
   */
  function InheritedOutcome(name: string): Outcome {
    if name in {"__defineGetter__", "__defineSetter__"} then Threw(Unnamed) else ReturnedOther
  }

  /** The handler `op` run on the given payload. */
  function Perform(cfg: Config, query: (State, Value) -> seq<Step>, state: State, op: Operation, data: Value): Effect {
    match op
    case Create => CreateSpec(cfg, state, data)
    case Get => GetSpec(cfg, state, data)
    case Update => UpdateSpec(cfg, state, data)
    case GetAllByFilter => GetAllByFilterSpec(cfg, query, state, data)
  }

  /** What a route does to the ledger and how the call completes. */
  function Dispatch(cfg: Config, query: (State, Value) -> seq<Step>, state: State, route: Route, methodName: Value, data: Value): Effect {
    match route
    case UnknownCategory => Effect(Threw(Plain(cfg.errors, UNKNOWN_DATA_CATEGORY)), state)
    case UnknownMethod =>
      Effect(Threw(Raised(Format(cfg.errors, UNKNOWN_METHOD_ERROR, Obj([Field("methodName", methodName)])))), state)
    case Unconvertible => Effect(Threw(Unnamed), state)
    case Call(op) => Perform(cfg, query, state, op, data)
    case Inherited(name) => Effect(InheritedOutcome(name), state)
  }

  function RunOperationAsWritten(cfg: Config, query: (State, Value) -> seq<Step>, state: State, category: Value, methodName: Value, data: Value): Effect {
    Dispatch(cfg, query, state, ResolveAsWritten(cfg.documentTypeData, category, methodName), methodName, data)
  }

  /** `runOperation(stub, category, method, data)` with the intended dispatch. */
  function RunOperationSpec(cfg: Config, query: (State, Value) -> seq<Step>, state: State, category: Value, methodName: Value, data: Value): Effect {
    Dispatch(cfg, query, state, Resolve(cfg.documentTypeData, category, methodName), methodName, data)
  }

  method RunOperation(stub: Stub, cfg: Config, category: Value, methodName: Value, data: Value) returns (outcome: Outcome)
    modifies stub
    ensures Effect(outcome, stub.state) == RunOperationSpec(cfg, stub.query, old(stub.state), category, methodName, data)
  {
    var route := Resolve(cfg.documentTypeData, category, methodName);
    if route.UnknownCategory? {
      var e := Error(cfg.errors, UNKNOWN_DATA_CATEGORY, Undefined);
      return Threw(Raised(e));
    }
    if route.UnknownMethod? {
      var e := Error(cfg.errors, UNKNOWN_METHOD_ERROR, Obj([Field("methodName", methodName)]));
      return Threw(Raised(e));
    }
    if route.Unconvertible? {
      return Threw(Unnamed);
    }
    match route.op
    case Create => outcome := SampleData.Create(stub, cfg, data);
    case Get => outcome := SampleData.Get(stub, cfg, data);
    case Update => outcome := SampleData.Update(stub, cfg, data);
    case GetAllByFilter => outcome := SampleData.GetAllByFilter(stub, cfg, data);
  }

  /**
   * The two dispatches differ only on inherited names: for each of them the
   * code as written calls the inherited function instead of refusing the
   * method; everywhere else they agree.
   */
  lemma {:induction false} ResolveAgreesExceptInherited(documentType: string, category: Value, methodName: Value)
    ensures var written := ResolveAsWritten(documentType, category, methodName);
            && (written.Inherited? <==>
                 category == Str(documentType) && JsString(methodName).Some? && JsString(methodName).value in PrototypeFunctions)
            && (written.Inherited? ==> Resolve(documentType, category, methodName) == UnknownMethod)
            && (!written.Inherited? ==> Resolve(documentType, category, methodName) == written)
  {
    if JsString(methodName).Some? && JsString(methodName).value in PrototypeFunctions {
      assert HandlerNamed(JsString(methodName).value).None?;
    }
  }

  /**
   * `toString` is not a handler, yet as written it is dispatched: the call
   * returns a string instead of refusing with UNKNOWN_METHOD_ERROR; the
   * intended dispatch refuses it and names the method.
   */
  lemma InheritedNameDispatched(cfg: Config, query: (State, Value) -> seq<Step>, state: State, data: Value)
    ensures RunOperationAsWritten(cfg, query, state, Str(cfg.documentTypeData), Str("toString"), data)
            == Effect(ReturnedOther, state)
    ensures RunOperationSpec(cfg, query, state, Str(cfg.documentTypeData), Str("toString"), data)
            == Effect(Threw(Raised(Format(cfg.errors, UNKNOWN_METHOD_ERROR, Obj([Field("methodName", Str("toString"))])))), state)
  {
    assert HandlerNamed("toString") == None;
  }

  /** On the configured category, each handler's name selects that handler. */
  lemma RoutesToHandlers(documentType: string)
    ensures var c := Str(documentType);
            && Resolve(documentType, c, Str("create")) == Call(Create)
            && Resolve(documentType, c, Str("get")) == Call(Get)
            && Resolve(documentType, c, Str("update")) == Call(Update)
            && Resolve(documentType, c, Str("getAllByFilter")) == Call(GetAllByFilter)
  {
  }

  /** A refused category or method changes nothing. */
  lemma RefusalChangesNothing(cfg: Config, query: (State, Value) -> seq<Step>, state: State, category: Value, methodName: Value, data: Value)
    ensures category != Str(cfg.documentTypeData) ==>
              RunOperationSpec(cfg, query, state, category, methodName, data)
              == Effect(Threw(Plain(cfg.errors, UNKNOWN_DATA_CATEGORY)), state)
    ensures category == Str(cfg.documentTypeData) && JsString(methodName).Some? && HandlerNamed(JsString(methodName).value).None? ==>
              RunOperationSpec(cfg, query, state, category, methodName, data)
              == Effect(Threw(Raised(Format(cfg.errors, UNKNOWN_METHOD_ERROR, Obj([Field("methodName", methodName)])))), state)
    ensures category == Str(cfg.documentTypeData) && ConversionThrows(methodName) ==>
              RunOperationSpec(cfg, query, state, category, methodName, data) == Effect(Threw(Unnamed), state)
  {
  }

  /** A handler that does not return a buffer has written nothing, and a throw is a formatted or a built-in error. */
  lemma PerformOnlySuccessWrites(cfg: Config, query: (State, Value) -> seq<Step>, state: State, op: Operation, data: Value)
    ensures var eff := Perform(cfg, query, state, op, data);
            && (!eff.outcome.Returned? ==> eff.state == state)
            && (eff.outcome.Threw? ==> Formatted(eff.outcome.thrown))
  {
    match op
    case Create =>
      assert Perform(cfg, query, state, op, data) == CreateSpec(cfg, state, data);
      CreateThrowLeavesState(cfg, state, data);
    case Get =>
      assert Perform(cfg, query, state, op, data) == GetSpec(cfg, state, data);
      GetReadsStore(cfg, state, data);
    case Update =>
      assert Perform(cfg, query, state, op, data) == UpdateSpec(cfg, state, data);
      UpdateThrowLeavesState(cfg, state, data);
    case GetAllByFilter =>
      assert Perform(cfg, query, state, op, data) == GetAllByFilterSpec(cfg, query, state, data);
  }

  /**
   * Whatever is dispatched, a call that does not return a buffer has written
   * nothing, and a throw is a formatted or a built-in error.
   */
  lemma OnlySuccessWrites(cfg: Config, query: (State, Value) -> seq<Step>, state: State, category: Value, methodName: Value, data: Value)
    ensures var eff := RunOperationSpec(cfg, query, state, category, methodName, data);
            && (!eff.outcome.Returned? ==> eff.state == state)
            && (eff.outcome.Threw? ==> Formatted(eff.outcome.thrown))
  {
    var route := Resolve(cfg.documentTypeData, category, methodName);
    if route.Call? {
      PerformOnlySuccessWrites(cfg, query, state, route.op, data);
    }
  }
}
