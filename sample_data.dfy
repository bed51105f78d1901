/**
 * The sample-data document handlers: create, read, update and query records
 * of the configured document type. Each handler is a method over the stub,
 * proved against a function that gives its outcome and the ledger state it
 * leaves; the properties are lemmas about those functions.
 */
module SampleData {
  import opened Json
  import opened Errors
  import opened Ledger
  import opened Constants
  import opened SampleValidation
  import opened ValidateData
  import opened Helper

  /** How a handler completes, and the ledger state it leaves behind. */
  datatype Effect = Effect(outcome: Outcome, state: State)

  /** `Buffer.from('success')`. */
  const SUCCESS: Bytes := Utf8("success")

  /** KEY_NOT_FOUND with the document label the handler writes and the key it was given. */
  function NotFound(catalog: Catalog, documentLabel: string, key: Value): Thrown {
    Raised(Format(catalog, KEY_NOT_FOUND, Obj([Field("documentType", Str(documentLabel)), Field("key", key)])))
  }

  // ------------------------------------------------------------------ create

  /**
   * `create(stub, data)`: validate, add the document type, then store the
   * record under the key built from its `id`.
   */
  function CreateSpec(cfg: Config, state: State, data: Value): Effect {
    match Validate(cfg.errors, data)
    case Err(t) => Effect(Threw(t), state)
    case Ok(validated) =>
      match Stamp(cfg.documentTypeData, validated)
      case Err(t) => Effect(Threw(t), state)
      case Ok(stamped) =>
        match Prop(stamped, "id")
        case None => Effect(Threw(Unnamed), state)
        case Some(id) =>
          match PutDataSpec(state, cfg.documentTypeData, id, stamped)
          case Err(t) => Effect(Threw(t), state)
          case Ok(next) => Effect(Returned(SUCCESS), next)
  }

  method Create(stub: Stub, cfg: Config, data: Value) returns (outcome: Outcome)
    modifies stub
    ensures Effect(outcome, stub.state) == CreateSpec(cfg, old(stub.state), data)
  {
    var validated := ValidateData.ValidateData(cfg.errors, data);
    if validated.Err? {
      return Threw(validated.thrown);
    }
    var stamped := AddDocumentTypeToData(cfg.documentTypeData, validated.value);
    if stamped.Err? {
      return Threw(stamped.thrown);
    }
    var id := Prop(stamped.value, "id");
    if id.None? {
      return Threw(Unnamed);
    }
    var written := PutData(stub, cfg.documentTypeData, id.value, stamped.value);
    if written.Err? {
      return Threw(Unnamed);
    }
    outcome := Returned(SUCCESS);
  }

  /** A value the schema refuses is reported with every violation, and nothing is written. */
  lemma CreateRefusesInvalid(cfg: Config, state: State, data: Value)
    requires !SampleDataValid(data)
    ensures CreateSpec(cfg, state, data) ==
            Effect(Threw(Raised(Format(cfg.errors, VALIDATION_ERRORS_ENCOUNTERED, ErrorObject(Details(data))))), state)
  {
  }

  /** An absent payload passes the schema, but reading its `id` throws a TypeError; nothing is written. */
  lemma CreateWithoutPayload(cfg: Config, state: State)
    ensures CreateSpec(cfg, state, Undefined) == Effect(Threw(Unnamed), state)
  {
  }

  /**
   * A valid record is stored under the key built from its id, whether or not
   * that key is already taken (a second create overwrites the first); the
   * stored document carries the document type, the same id, the names
   * trimmed, and nothing else; no other key changes.
   */
  lemma CreateStoresRecord(cfg: Config, state: State, data: Value)
    requires SampleDataValid(data) && data.Obj? && IsJson(data)
    ensures var eff := CreateSpec(cfg, state, data);
            var key := GenerateKey(cfg.documentTypeData, Lookup(data.fields, "id")).value;
            && eff.outcome == Returned(SUCCESS)
            && key in eff.state && eff.state == state[key := eff.state[key]]
            && eff.state[key].Obj?
            && var stored := eff.state[key].fields;
            && Lookup(stored, "documentType") == Str(cfg.documentTypeData)
            && Lookup(stored, "id") == Lookup(data.fields, "id")
            && (forall k :: k in {"firstName", "lastName"} && Lookup(data.fields, k).Str? ==>
                  Lookup(stored, k) == Str(Trim(Lookup(data.fields, k).s)))
            && (forall k :: k != "documentType" && !(k in {"firstName", "lastName"} && Lookup(data.fields, k).Str?) ==>
                  Lookup(stored, k) == Lookup(data.fields, k))
  {
    CreateWritesStamped(cfg, state, data);
    StampedFields(cfg.documentTypeData, data.fields);
  }

  /** The record create stores: the document type, the same id, the names trimmed, all else as given. */
  lemma StampedFields(dt: string, fs: seq<Field>)
    ensures var stored := SetField(NormaliseFields(fs), "documentType", Str(dt));
            && Lookup(stored, "documentType") == Str(dt)
            && Lookup(stored, "id") == Lookup(fs, "id")
            && (forall k :: k in {"firstName", "lastName"} && Lookup(fs, k).Str? ==>
                  Lookup(stored, k) == Str(Trim(Lookup(fs, k).s)))
            && (forall k :: k != "documentType" && !(k in {"firstName", "lastName"} && Lookup(fs, k).Str?) ==>
                  Lookup(stored, k) == Lookup(fs, k))
  {
    var gs := NormaliseFields(fs);
    SetFieldReads(gs, "documentType", Str(dt));
    forall k ensures Lookup(gs, k) == NormaliseField(Field(k, Lookup(fs, k))).val {
      LookupNormalised(fs, k);
    }
  }

  /** A valid record is written, trimmed and stamped, under the key built from its id. */
  lemma CreateWritesStamped(cfg: Config, state: State, data: Value)
    requires SampleDataValid(data) && data.Obj? && IsJson(data)
    ensures var dt := cfg.documentTypeData;
            var stamped := Obj(SetField(NormaliseFields(data.fields), "documentType", Str(dt)));
            CreateSpec(cfg, state, data)
            == Effect(Returned(SUCCESS), state[GenerateKey(dt, Lookup(data.fields, "id")).value := stamped])
  {
    var dt := cfg.documentTypeData;
    var fs := NormaliseFields(data.fields);
    var stamped := Obj(SetField(fs, "documentType", Str(dt)));
    assert Validate(cfg.errors, data) == Ok(Obj(fs));
    assert Stamp(dt, Obj(fs)) == Ok(stamped);
    SetFieldLookup(fs, "documentType", Str(dt), "id");
    LookupNormalised(data.fields, "id");
    assert Prop(stamped, "id") == Some(Lookup(data.fields, "id"));
    NormaliseKeepsJson(data);
    SetFieldKeepsJson(fs, "documentType", Str(dt));
    SerialiseJson(stamped);
  }

  // --------------------------------------------------------------------- get

  /** `get(stub, key)`: the stored bytes, or KEY_NOT_FOUND when the buffer is empty. */
  function GetSpec(cfg: Config, state: State, key: Value): Effect {
    match GetDataSpec(state, cfg.documentTypeData, key)
    case Err(t) => Effect(Threw(t), state)
    case Ok(found) =>
      if IsEmpty(found) then Effect(Threw(NotFound(cfg.errors, "Sample data", key)), state)
      else Effect(Returned(found), state)
  }

  method Get(stub: Stub, cfg: Config, key: Value) returns (outcome: Outcome)
    ensures Effect(outcome, stub.state) == GetSpec(cfg, stub.state, key)
  {
    var results := GetData(stub, cfg.documentTypeData, key);
    if results.Err? {
      return Threw(results.thrown);
    }
    if IsEmpty(results.value) {
      var e := Error(cfg.errors, KEY_NOT_FOUND, Obj([Field("documentType", Str("Sample data")), Field("key", key)]));
      return Threw(Raised(e));
    }
    outcome := Returned(results.value);
  }

  /**
   * A read changes nothing; it returns the stored document's text, or names
   * the missing key; a key that cannot be built throws a TypeError.
   */
  lemma GetReadsStore(cfg: Config, state: State, key: Value)
    ensures var eff := GetSpec(cfg, state, key);
            && eff.state == state
            && (ConversionThrows(key) ==> eff.outcome == Threw(Unnamed))
            && (!ConversionThrows(key) ==>
                  var k := GenerateKey(cfg.documentTypeData, key).value;
                  && (k in state ==> eff.outcome == Returned(JsonText(state[k])))
                  && (k !in state ==> eff.outcome == Threw(NotFound(cfg.errors, "Sample data", key))))
  {
  }

  /** After a successful create, a get with the record's id returns the stored record. */
  lemma CreateThenGet(cfg: Config, state: State, data: Value)
    requires SampleDataValid(data) && data.Obj? && IsJson(data)
    ensures var after := CreateSpec(cfg, state, data).state;
            var id := Lookup(data.fields, "id");
            var key := GenerateKey(cfg.documentTypeData, id).value;
            && key in after
            && GetSpec(cfg, after, id) == Effect(Returned(JsonText(after[key])), after)
            && after[key].Obj? && Lookup(after[key].fields, "documentType") == Str(cfg.documentTypeData)
  {
    CreateStoresRecord(cfg, state, data);
    var eff := CreateSpec(cfg, state, data);
    var key := GenerateKey(cfg.documentTypeData, Lookup(data.fields, "id")).value;
    var stored := eff.state[key];
    assert stored.Obj? && Lookup(stored.fields, "documentType") == Str(cfg.documentTypeData);
    assert Stored(eff.state, key) == JsonText(stored);
  }

  // ------------------------------------------------------------------ update

  /**
   * `for (let key in validated) original[key] = validated[key]`: an object
   * takes each key; an array takes them as named properties, which its JSON
   * text leaves out; on any other value an assignment throws a TypeError.
   */
  function Merge(original: Value, source: seq<Field>): (r: Result<Value>)
    ensures original.Obj? ==>
              && r.Ok? && r.value.Obj?
              && Keys(original.fields) <= Keys(r.value.fields)
              && forall k :: Lookup(r.value.fields, k) ==
                   if k in Keys(source) then Lookup(source, k) else Lookup(original.fields, k)
    ensures original.Arr? ==> r == Ok(original)
    ensures !original.Obj? && !original.Arr? ==> (r.Ok? <==> source == []) && (r.Ok? ==> r.value == original)
    ensures r.Err? ==> r.thrown == Unnamed
  {
    match original
    case Obj(ofs) =>
      AssignKeepsKeys(ofs, source);
      AssignReads(ofs, source);
      Ok(Obj(Assign(ofs, source)))
    case Arr(_) => Ok(original)
    case _ => if source == [] then Ok(original) else Err(Unnamed)
  }

  /** `original.id` after the merge: an array answers with the named property just assigned. */
  function MergedId(original: Value, source: seq<Field>, merged: Value): Option<Value> {
    if original.Arr? then Some(Lookup(source, "id")) else Prop(merged, "id")
  }

  /**
   * `update(stub, info)`: find the stored record by the raw `id` (before any
   * validation), validate the payload, copy its keys onto the stored record,
   * and store the result under the key built from the merged `id`.
   */
  function UpdateSpec(cfg: Config, state: State, info: Value): Effect {
    var dt := cfg.documentTypeData;
    match Prop(info, "id")
    case None => Effect(Threw(Unnamed), state)
    case Some(rawId) =>
      match GenerateKey(dt, rawId)
      case Err(t) => Effect(Threw(t), state)
      case Ok(key) =>
      if IsEmpty(Stored(state, key)) then Effect(Threw(NotFound(cfg.errors, "Sample Data", rawId)), state)
      else
        // JSON.parse of the stored text
        var original := Serialise(state[key]);
        match Validate(cfg.errors, info)
        case Err(t) => Effect(Threw(t), state)
        case Ok(validated) =>
          var source := if validated.Obj? then validated.fields else [];
          match Merge(original, source)
          case Err(t) => Effect(Threw(t), state)
          case Ok(merged) =>
            match MergedId(original, source, merged)
            case None => Effect(Threw(Unnamed), state)
            case Some(id) =>
              match PutDataSpec(state, dt, id, merged)
              case Err(t) => Effect(Threw(t), state)
              case Ok(next) => Effect(Returned(SUCCESS), next)
  }

  method Update(stub: Stub, cfg: Config, info: Value) returns (outcome: Outcome)
    modifies stub
    ensures Effect(outcome, stub.state) == UpdateSpec(cfg, old(stub.state), info)
  {
    var dt := cfg.documentTypeData;
    var rawId := Prop(info, "id");
    if rawId.None? {
      return Threw(Unnamed);
    }
    var foundData := GetData(stub, dt, rawId.value);
    if foundData.Err? {
      return Threw(foundData.thrown);
    }
    ghost var key := GenerateKey(dt, rawId.value).value;
    assert foundData.value == Stored(stub.state, key);
    if IsEmpty(foundData.value) {
      var e := Error(cfg.errors, KEY_NOT_FOUND, Obj([Field("documentType", Str("Sample Data")), Field("key", rawId.value)]));
      return Threw(Raised(e));
    }
    var original := Serialise(foundData.value.doc);
    assert original == Serialise(stub.state[key]);
    var validated := ValidateData.ValidateData(cfg.errors, info);
    if validated.Err? {
      return Threw(validated.thrown);
    }
    var source := if validated.value.Obj? then validated.value.fields else [];
    var merged: Value;
    if original.Obj? {
      var fs := AssignFields(original.fields, source);
      merged := Obj(fs);
    } else if original.Arr? || source == [] {
      merged := original;
    } else {
      return Threw(Unnamed);
    }
    var id := MergedId(original, source, merged);
    if id.None? {
      return Threw(Unnamed);
    }
    var written := PutData(stub, dt, id.value, merged);
    if written.Err? {
      return Threw(Unnamed);
    }
    outcome := Returned(SUCCESS);
  }

  /** A missing record is reported before the payload is validated: even an invalid payload gets KEY_NOT_FOUND. */
  lemma UpdateMissingKey(cfg: Config, state: State, info: Value)
    requires Prop(info, "id").Some? && !ConversionThrows(Prop(info, "id").value)
    requires GenerateKey(cfg.documentTypeData, Prop(info, "id").value).value !in state
    ensures UpdateSpec(cfg, state, info) == Effect(Threw(NotFound(cfg.errors, "Sample Data", Prop(info, "id").value)), state)
  {
  }

  /**
   * The key is built from the raw `id` before anything else: an id the
   * concatenation cannot convert (an object with its own `toString` field)
   * throws a TypeError, whatever is stored and whatever the schema would say.
   */
  lemma UpdateUnconvertibleId(cfg: Config, state: State, info: Value)
    requires Prop(info, "id").Some? && ConversionThrows(Prop(info, "id").value)
    ensures UpdateSpec(cfg, state, info) == Effect(Threw(Unnamed), state)
  {
  }

  /** A stored record and a payload the schema refuses: every violation is reported and nothing is written. */
  lemma UpdateRefusesInvalid(cfg: Config, state: State, info: Value)
    requires Prop(info, "id").Some? && !ConversionThrows(Prop(info, "id").value)
    requires GenerateKey(cfg.documentTypeData, Prop(info, "id").value).value in state
    requires !SampleDataValid(info)
    ensures UpdateSpec(cfg, state, info) ==
            Effect(Threw(Raised(Format(cfg.errors, VALIDATION_ERRORS_ENCOUNTERED, ErrorObject(Details(info))))), state)
  {
  }

  /**
   * A valid payload for a stored object is merged into it and written back
   * under the key it was read from: each payload key takes the validated
   * value, every other key (the document type among them) keeps the stored
   * one, and no other record changes.
   */
  lemma UpdateMergesIntoStored(cfg: Config, state: State, info: Value)
    requires StoreIsJson(state) && IsJson(info) && SampleDataValid(info) && info.Obj?
    requires GenerateKey(cfg.documentTypeData, Lookup(info.fields, "id")).value in state
    requires state[GenerateKey(cfg.documentTypeData, Lookup(info.fields, "id")).value].Obj?
    ensures var key := GenerateKey(cfg.documentTypeData, Lookup(info.fields, "id")).value;
            var ofs := state[key].fields;
            var eff := UpdateSpec(cfg, state, info);
            && eff.outcome == Returned(SUCCESS)
            && key in eff.state && eff.state == state[key := eff.state[key]]
            && eff.state[key].Obj?
            && (forall k :: Lookup(eff.state[key].fields, k) ==
                  if k in Keys(info.fields) then Lookup(Normalise(info).fields, k) else Lookup(ofs, k))
            && Lookup(eff.state[key].fields, "documentType") == Lookup(ofs, "documentType")
  {
    var key := GenerateKey(cfg.documentTypeData, Lookup(info.fields, "id")).value;
    UpdateWritesMerged(cfg, state, info);
    MergedFields(state[key].fields, info.fields);
  }

  /** A valid payload for a stored object: the merge is written back under the key it was read from. */
  lemma UpdateWritesMerged(cfg: Config, state: State, info: Value)
    requires StoreIsJson(state) && IsJson(info) && SampleDataValid(info) && info.Obj?
    requires GenerateKey(cfg.documentTypeData, Lookup(info.fields, "id")).value in state
    requires state[GenerateKey(cfg.documentTypeData, Lookup(info.fields, "id")).value].Obj?
    ensures var key := GenerateKey(cfg.documentTypeData, Lookup(info.fields, "id")).value;
            var merged := Assign(state[key].fields, NormaliseFields(info.fields));
            UpdateSpec(cfg, state, info) == Effect(Returned(SUCCESS), state[key := Obj(merged)])
  {
    var dt := cfg.documentTypeData;
    var id := Lookup(info.fields, "id");
    var key := GenerateKey(dt, id).value;
    var ofs := state[key].fields;
    var source := NormaliseFields(info.fields);
    var merged := Assign(ofs, source);
    assert Prop(info, "id") == Some(id);
    assert !IsEmpty(Stored(state, key));
    SerialiseJson(state[key]);
    assert Validate(cfg.errors, info) == Ok(Obj(source));
    assert Merge(Obj(ofs), source) == Ok(Obj(merged));
    assert "id" in Keys(source);
    AssignLookup(ofs, source, "id");
    LookupNormalised(info.fields, "id");
    assert MergedId(Obj(ofs), source, Obj(merged)) == Some(id);
    NormaliseKeepsJson(info);
    AssignKeepsJson(ofs, source);
    SerialiseJson(Obj(merged));
  }

  /** The merge: each payload key reads the validated value, every other key (the document type among them) the stored one. */
  lemma MergedFields(ofs: seq<Field>, fs: seq<Field>)
    requires SampleDataValid(Obj(fs))
    ensures var merged := Assign(ofs, NormaliseFields(fs));
            && (forall k :: Lookup(merged, k) ==
                  if k in Keys(fs) then Lookup(NormaliseFields(fs), k) else Lookup(ofs, k))
            && Lookup(merged, "documentType") == Lookup(ofs, "documentType")
  {
    var source := NormaliseFields(fs);
    forall k ensures Lookup(Assign(ofs, source), k) == if k in Keys(source) then Lookup(source, k) else Lookup(ofs, k) {
      AssignLookup(ofs, source, k);
    }
    assert "documentType" !in Keys(fs) by {
      if "documentType" in Keys(fs) { DocumentTypeRefused(fs); }
    }
  }

  // ---------------------------------------------------------- getAllByFilter

  /** The rich query: records whose `id` equals the filter and whose key matches the document type. */
  function Selector(documentType: string, filterParam: Value): Value {
    Obj([Field("selector", Obj([
      Field("id", Obj([Field("$eq", filterParam)])),
      Field("_id", Obj([Field("$regex", Str(documentType))]))]))])
  }

  /** `getAllByFilter(stub, filterParam)`: the records the host's answer to the selector yields. */
  function GetAllByFilterSpec(cfg: Config, query: (State, Value) -> seq<Step>, state: State, filterParam: Value): Effect {
    Effect(Returned(JsonText(Arr(Collect(query(state, Serialise(Selector(cfg.documentTypeData, filterParam))))))), state)
  }

  method GetAllByFilter(stub: Stub, cfg: Config, filterParam: Value) returns (outcome: Outcome)
    ensures Effect(outcome, stub.state) == GetAllByFilterSpec(cfg, stub.query, stub.state, filterParam)
  {
    var b, _ := GetDataByQuery(stub, Selector(cfg.documentTypeData, filterParam));
    outcome := Returned(b);
  }

  /** The host receives the selector as written when the filter is a JSON value. */
  lemma SelectorText(documentType: string, filterParam: Value)
    requires IsJson(filterParam)
    ensures Serialise(Selector(documentType, filterParam)) == Selector(documentType, filterParam)
  {
    var eq := Obj([Field("$eq", filterParam)]);
    var regex := Obj([Field("$regex", Str(documentType))]);
    assert IsJson(eq) && IsJson(regex);
    assert IsJson(Obj([Field("id", eq), Field("_id", regex)]));
    SerialiseJson(Selector(documentType, filterParam));
  }

  /**
   * Called directly without a filter, the selector's text has no `$eq`: the
   * `id` condition is the empty object. (`Invoke` never passes `undefined`: a
   * missing payload is `{}`, which `SelectorText` covers.)
   */
  lemma SelectorWithoutFilter(documentType: string)
    ensures Serialise(Selector(documentType, Undefined)) ==
            Obj([Field("selector", Obj([
              Field("id", Obj([])),
              Field("_id", Obj([Field("$regex", Str(documentType))]))]))])
  {
    var regex := Obj([Field("$regex", Str(documentType))]);
    var eq := Obj([Field("$eq", Undefined)]);
    assert Serialise(eq) == Obj([]);
    assert IsJson(regex);
    SerialiseJson(regex);
    var inner := Obj([Field("id", eq), Field("_id", regex)]);
    assert Serialise(inner) == Obj([Field("id", Obj([])), Field("_id", regex)]);
  }

  // ------------------------------------------------------ across the handlers

  /**
   * A create either returns a buffer or throws; one that throws has written
   * nothing, and throws a formatted or a built-in error.
   */
  lemma CreateThrowLeavesState(cfg: Config, state: State, data: Value)
    ensures var eff := CreateSpec(cfg, state, data);
            !eff.outcome.Returned? ==> eff.outcome.Threw? && eff.state == state && Formatted(eff.outcome.thrown)
  {
    var dt := cfg.documentTypeData;
    match Validate(cfg.errors, data)
    case Err(_) =>
    case Ok(validated) =>
      match Stamp(dt, validated)
      case Err(_) =>
      case Ok(stamped) =>
        match Prop(stamped, "id")
        case None =>
        case Some(id) =>
          assert PutDataSpec(state, dt, id, stamped).Ok? ==> CreateSpec(cfg, state, data).outcome.Returned?;
  }

  /**
   * An update either returns a buffer or throws; one that throws has written
   * nothing, and throws a formatted or a built-in error.
   */
  lemma UpdateThrowLeavesState(cfg: Config, state: State, info: Value)
    ensures var eff := UpdateSpec(cfg, state, info);
            !eff.outcome.Returned? ==> eff.outcome.Threw? && eff.state == state && Formatted(eff.outcome.thrown)
  {
    var dt := cfg.documentTypeData;
    match Prop(info, "id")
    case None =>
    case Some(rawId) =>
      match GenerateKey(dt, rawId)
      case Err(_) =>
      case Ok(key) =>
      if !IsEmpty(Stored(state, key)) {
        var original := Serialise(state[key]);
        match Validate(cfg.errors, info)
        case Err(_) =>
        case Ok(validated) =>
          var source := if validated.Obj? then validated.fields else [];
          match Merge(original, source)
          case Err(_) =>
          case Ok(merged) =>
            match MergedId(original, source, merged)
            case None =>
            case Some(id) =>
              assert PutDataSpec(state, dt, id, merged).Ok? ==> UpdateSpec(cfg, state, info).outcome.Returned?;
      }
  }

  /** Create stores only JSON documents. */
  lemma CreateKeepsStoreJson(cfg: Config, state: State, data: Value)
    requires StoreIsJson(state)
    ensures StoreIsJson(CreateSpec(cfg, state, data).state)
  {
    var dt := cfg.documentTypeData;
    match Validate(cfg.errors, data)
    case Err(_) =>
    case Ok(validated) =>
      match Stamp(dt, validated)
      case Err(_) =>
      case Ok(stamped) =>
        match Prop(stamped, "id")
        case None =>
        case Some(id) =>
          if PutDataSpec(state, dt, id, stamped).Ok? {
            WriteKeepsStoreJson(state, GenerateKey(dt, id).value, stamped);
          }
  }

  /** Update stores only JSON documents. */
  lemma UpdateKeepsStoreJson(cfg: Config, state: State, info: Value)
    requires StoreIsJson(state)
    ensures StoreIsJson(UpdateSpec(cfg, state, info).state)
  {
    var dt := cfg.documentTypeData;
    match Prop(info, "id")
    case None =>
    case Some(rawId) =>
      match GenerateKey(dt, rawId)
      case Err(_) =>
      case Ok(key) =>
      if !IsEmpty(Stored(state, key)) {
        var original := Serialise(state[key]);
        match Validate(cfg.errors, info)
        case Err(_) =>
        case Ok(validated) =>
          var source := if validated.Obj? then validated.fields else [];
          match Merge(original, source)
          case Err(_) =>
          case Ok(merged) =>
            match MergedId(original, source, merged)
            case None =>
            case Some(id) =>
              if PutDataSpec(state, dt, id, merged).Ok? {
                WriteKeepsStoreJson(state, GenerateKey(dt, id).value, merged);
              }
      }
  }
}
