/**
 * The error formatter: builds the structured error value
 * `{name, message, statusCode, status, object}` from the error catalog
 * (a JSON object keyed by symbolic error name) and a context object.
 */
module Errors {
  import opened Json

  /** The error catalog, keyed by symbolic error name. */
  type Catalog = map<string, Value>

  datatype ErrorValue = ErrorValue(
    name: Value,
    message: Value,
    statusCode: Value,
    status: Value,
    context: seq<Field>)  // the `object` field

  /**
   * A thrown JavaScript error: one built by the formatter, which carries its
   * own `name` field, or a built-in TypeError or SyntaxError, which does not.
   */
  datatype Thrown = Raised(error: ErrorValue) | Unnamed

  /** The error's own fields are all defined, as every formatted error's are. */
  predicate FieldsDefined(e: ErrorValue) {
    !e.name.Undefined? && !e.message.Undefined? && !e.statusCode.Undefined? && !e.status.Undefined?
  }

  /** A thrown value is a built-in error or an error whose own fields are all defined. */
  predicate Formatted(t: Thrown) {
    t.Raised? ==> FieldsDefined(t.error)
  }

  /** The completion of a call that may throw. */
  datatype Result<+T> = Ok(value: T) | Err(thrown: Thrown)

  /** How a handler call completes: a byte buffer, some other value, or a throw. */
  datatype Outcome = Returned(payload: Bytes) | ReturnedOther | Threw(thrown: Thrown)

  const UNKNOWN_DATA_CATEGORY := "UNKNOWN_DATA_CATEGORY"
  const UNKNOWN_METHOD_ERROR := "UNKNOWN_METHOD_ERROR"
  const UNKNOWN_CHAINCODE_OPERATION_TYPE := "UNKNOWN_CHAINCODE_OPERATION_TYPE"
  const KEY_NOT_FOUND := "KEY_NOT_FOUND"
  const VALIDATION_ERRORS_ENCOUNTERED := "VALIDATION_ERRORS_ENCOUNTERED"
  const CHAINCODE_ERROR := "CHAINCODE_ERROR"

  /** The catalog entry for `name` defines `field` (lodash `_.get` finds a value). */
  predicate Defines(catalog: Catalog, name: string, field: string) {
    name in catalog && catalog[name].Obj? && Lookup(catalog[name].fields, field) != Undefined
  }

  /** `_.get(catalog, name + '.' + field, fallback)`. */
  function CatalogField(catalog: Catalog, name: string, field: string, fallback: Value): Value {
    if Defines(catalog, name, field) then Lookup(catalog[name].fields, field) else fallback
  }

  /** A plain object with at least one key (`_.isPlainObject(d) && !_.isEmpty(d)`). */
  predicate IsNonEmptyPlainObject(data: Value) {
    data.Obj? && data.fields != []
  }

  /**
   * `error(name, data)`: each field from the catalog entry, with the error
   * name, the empty text and the empty text as fallbacks; `status` repeats
   * `statusCode`; the context copies the keys of a non-empty plain object.
   * Never throws. `data` is `Undefined` when the caller passes none.
   */
  function Format(catalog: Catalog, name: string, data: Value): (e: ErrorValue)
    ensures Defines(catalog, name, "name") ==> e.name == Lookup(catalog[name].fields, "name")
    ensures !Defines(catalog, name, "name") ==> e.name == Str(name)
    ensures Defines(catalog, name, "message") ==> e.message == Lookup(catalog[name].fields, "message")
    ensures !Defines(catalog, name, "message") ==> e.message == Str("")
    ensures Defines(catalog, name, "statusCode") ==> e.statusCode == Lookup(catalog[name].fields, "statusCode")
    ensures !Defines(catalog, name, "statusCode") ==> e.statusCode == Str("")
    ensures e.status == e.statusCode
    ensures FieldsDefined(e)
    ensures !IsNonEmptyPlainObject(data) ==> e.context == []
  {
    var statusCode := CatalogField(catalog, name, "statusCode", Str(""));
    ErrorValue(
      CatalogField(catalog, name, "name", Str(name)),
      CatalogField(catalog, name, "message", Str("")),
      statusCode,
      statusCode,
      if IsNonEmptyPlainObject(data) then Assign([], data.fields) else [])
  }

  /** `error(name, data)` as the code builds it: the context keys copied one at a time. */
  method Error(catalog: Catalog, name: string, data: Value) returns (e: ErrorValue)
    ensures e == Format(catalog, name, data)
  {
    var context: seq<Field> := [];
    // `data || {}` turns a falsy argument into an empty object, which copies nothing.
    if IsNonEmptyPlainObject(data) {
      context := AssignFields([], data.fields);
    }
    var statusCode := CatalogField(catalog, name, "statusCode", Str(""));
    e := ErrorValue(
      CatalogField(catalog, name, "name", Str(name)),
      CatalogField(catalog, name, "message", Str("")),
      statusCode,
      statusCode,
      context);
  }

  /**
   * The context is a shallow copy: every key of a non-empty plain object
   * reads the same value in the error; with distinct keys the copy is the
   * object's fields in their order; anything else gives an empty context.
   */
  lemma FormatCopiesContext(catalog: Catalog, name: string, data: Value, k: string)
    ensures IsNonEmptyPlainObject(data) ==>
              Lookup(Format(catalog, name, data).context, k) == Lookup(data.fields, k)
    ensures IsNonEmptyPlainObject(data) && UniqueKeys(data.fields) ==>
              Format(catalog, name, data).context == data.fields
    ensures !IsNonEmptyPlainObject(data) ==> Format(catalog, name, data).context == []
  {
    if IsNonEmptyPlainObject(data) {
      AssignLookup([], data.fields, k);
      if UniqueKeys(data.fields) {
        CopyIsIdentity(data.fields);
      }
    }
  }

  /** Two errors formatted under the same name differ at most in their context. */
  lemma FormatDependsOnlyOnCatalog(catalog: Catalog, name: string, d1: Value, d2: Value)
    ensures Format(catalog, name, d1).(context := []) == Format(catalog, name, d2).(context := [])
  {
  }

  /** `error(name)` with no context: the error a caller raises without details. */
  function Plain(catalog: Catalog, name: string): (t: Thrown)
    ensures t.Raised? && t.error.context == []
  {
    Raised(Format(catalog, name, Undefined))
  }
}
