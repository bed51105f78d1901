/**
 * The key builder and state accessor: storage keys are the document type
 * followed by the key id, records are stamped with their document type, and
 * reads, writes, deletes and rich queries go to the stub under derived keys.
 */
module Helper {
  import opened Json
  import opened Errors
  import opened Ledger

  /**
   * `String(documentType + keyId)`: no separator between the two parts; the
   * concatenation throws a TypeError where `keyId` cannot be converted.
   */
  function GenerateKey(documentType: string, keyId: Value): (r: Result<string>)
    ensures r.Err? <==> ConversionThrows(keyId)
    ensures r.Err? ==> r.thrown == Unnamed
    ensures r.Ok? ==> |documentType| <= |r.value| && r.value[..|documentType|] == documentType
    ensures r.Ok? ==> JsString(keyId) == Some(r.value[|documentType|..])
  {
    match JsString(keyId)
    case None => Err(Unnamed)
    case Some(text) => Ok(documentType + text)
  }

  /** Within one document type, distinct integer ids never share a key. */
  lemma GenerateKeyInjective(documentType: string, a: int, b: int)
    requires GenerateKey(documentType, Num(a)) == GenerateKey(documentType, Num(b))
    ensures a == b
  {
    assert Some(IntText(a)) == JsString(Num(a)) == JsString(Num(b)) == Some(IntText(b));
    IntTextInjective(a, b);
  }

  /**
   * Because nothing separates the parts, two document types of which one
   * extends the other can share a key; distinct types of equal length cannot.
   */
  lemma GenerateKeyWithoutSeparator()
    ensures GenerateKey("sampleData1", Num(2)) == GenerateKey("sampleData", Num(12))
    ensures GenerateKey("DATA", Num(42)) != GenerateKey("DATB", Num(42))
  {
    assert NatText(12) == NatText(1) + [Digit(2)];
    assert GenerateKey("sampleData1", Num(2)) == Ok("sampleData1" + NatText(2));
    assert GenerateKey("sampleData", Num(12)) == Ok("sampleData" + NatText(12));
    assert NatText(1) == [Digit(1)] && NatText(2) == [Digit(2)];
    assert "sampleData1" + NatText(2) == "sampleData" + NatText(12);
    assert GenerateKey("DATA", Num(42)).value[3] == 'A';
  }

  /**
   * An id object with its own `toString` field, directly or inside an array
   * id, has no key: building it throws.
   */
  lemma GenerateKeyThrows(documentType: string, fs: seq<Field>)
    requires "toString" in Keys(fs)
    ensures GenerateKey(documentType, Obj(fs)) == Err(Unnamed)
    ensures GenerateKey(documentType, Arr([Num(1), Obj(fs)])) == Err(Unnamed)
  {
    assert Arr([Num(1), Obj(fs)]).items[1] == Obj(fs);
  }

  // ---------------------------------------------------- addDocumentTypeToData

  /**
   * `record.documentType = documentType` in strict mode: an object gains (or
   * overwrites) the field; an array takes a named property that its JSON text
   * leaves out; any other value makes the assignment throw a TypeError.
   */
  function StampRecord(documentType: string, record: Value): (r: Result<Value>)
    ensures r.Ok? <==> record.Obj? || record.Arr?
  {
    match record
    case Obj(fs) => Ok(Obj(SetField(fs, "documentType", Str(documentType))))
    case Arr(_) => Ok(record)
    case _ => Err(Unnamed)
  }

  function StampRecords(documentType: string, items: seq<Value>): (r: Result<seq<Value>>)
    ensures r.Ok? <==> forall i :: 0 <= i < |items| ==> items[i].Obj? || items[i].Arr?
    ensures r.Err? ==> r.thrown == Unnamed
  {
    if items == [] then Ok([])
    else match StampRecords(documentType, items[..|items| - 1])
      case Err(t) => Err(t)
      case Ok(done) =>
        match StampRecord(documentType, items[|items| - 1])
        case Err(t) => Err(t)
        case Ok(x) => Ok(done + [x])
  }

  /** What `addDocumentTypeToData` returns: falsy data as is, arrays element by element, else the one record. */
  function Stamp(documentType: string, data: Value): Result<Value> {
    if !Truthy(data) then Ok(data)
    else if data.Arr? then
      match StampRecords(documentType, data.items)
      case Ok(items) => Ok(Arr(items))
      case Err(t) => Err(t)
    else StampRecord(documentType, data)
  }

  method AddDocumentTypeToData(documentType: string, data: Value) returns (r: Result<Value>)
    ensures r == Stamp(documentType, data)
  {
    if !Truthy(data) {
      return Ok(data);
    }
    if data.Arr? {
      var items := data.items;
      var stamped: seq<Value> := [];
      var i := 0;
      while i < |items|
        invariant 0 <= i <= |items|
        invariant StampRecords(documentType, items[..i]) == Ok(stamped)
      {
        assert items[..i + 1][..i] == items[..i];
        var x := StampRecord(documentType, items[i]);
        if x.Err? {
          return Err(x.thrown);
        }
        stamped := stamped + [x.value];
        i := i + 1;
      }
      assert items[..i] == items;
      return Ok(Arr(stamped));
    }
    r := StampRecord(documentType, data);
  }

  /**
   * On an array every object element gets the document type and keeps every
   * other field; the length and the order stay; the call succeeds exactly
   * when every element is an object or an array.
   */
  lemma {:induction false} StampRecordsEach(documentType: string, items: seq<Value>)
    ensures StampRecords(documentType, items).Ok? ==>
              var out := StampRecords(documentType, items).value;
              && |out| == |items|
              && forall i :: 0 <= i < |items| ==>
                   if items[i].Obj? then
                     && out[i].Obj?
                     && Lookup(out[i].fields, "documentType") == Str(documentType)
                     && (forall k :: k != "documentType" ==> Lookup(out[i].fields, k) == Lookup(items[i].fields, k))
                   else out[i] == items[i]
  {
    if items != [] {
      var init := items[..|items| - 1];
      StampRecordsEach(documentType, init);
      assert forall i :: 0 <= i < |init| ==> init[i] == items[i];
      var last := items[|items| - 1];
      if last.Obj? {
        SetFieldReads(last.fields, "documentType", Str(documentType));
      }
    }
  }

  /** A single record gets the document type and keeps every other field; falsy data comes back unchanged. */
  lemma StampSingle(documentType: string, data: Value)
    ensures !Truthy(data) ==> Stamp(documentType, data) == Ok(data)
    ensures data.Obj? ==>
              && Stamp(documentType, data).Ok?
              && var r := Stamp(documentType, data).value;
              && r.Obj?
              && Lookup(r.fields, "documentType") == Str(documentType)
              && (forall k :: k != "documentType" ==> Lookup(r.fields, k) == Lookup(data.fields, k))
  {
    if data.Obj? {
      SetFieldReads(data.fields, "documentType", Str(documentType));
    }
  }

  // ----------------------------------------------------- getData / putData / deleteData

  /** `getData(stub, documentType, keyId)`: the bytes stored under the generated key. */
  function GetDataSpec(state: State, documentType: string, keyId: Value): (r: Result<Bytes>)
    ensures r.Err? <==> ConversionThrows(keyId)
    ensures r.Ok? ==> r.value == Stored(state, GenerateKey(documentType, keyId).value)
  {
    match GenerateKey(documentType, keyId)
    case Err(t) => Err(t)
    case Ok(key) => Ok(Stored(state, key))
  }

  method GetData(stub: Stub, documentType: string, keyId: Value) returns (r: Result<Bytes>)
    ensures r == GetDataSpec(stub.state, documentType, keyId)
  {
    var key := GenerateKey(documentType, keyId);
    if key.Err? {
      return Err(key.thrown);
    }
    var b := stub.GetState(key.value);
    r := Ok(b);
  }

  /**
   * `putState(key, Buffer.from(JSON.stringify(data)))`: `undefined` has no
   * JSON text, and the buffer conversion throws a TypeError.
   */
  function Write(state: State, key: string, data: Value): Result<State> {
    if data.Undefined? then Err(Unnamed) else Ok(state[key := Serialise(data)])
  }

  /** Every stored document is a JSON value, as JSON.parse gives back for its text. */
  predicate StoreIsJson(state: State) {
    forall key :: key in state ==> IsJson(state[key])
  }

  /** A write stores JSON text, so the store stays JSON. */
  lemma WriteKeepsStoreJson(state: State, key: string, data: Value)
    requires StoreIsJson(state) && Write(state, key, data).Ok?
    ensures StoreIsJson(Write(state, key, data).value)
  {
    SerialiseIsJson(data);
  }

  /** `putData(stub, documentType, keyId, data)`: the key is built first, then the JSON text is written. */
  function PutDataSpec(state: State, documentType: string, keyId: Value, data: Value): (r: Result<State>)
    ensures r.Err? <==> ConversionThrows(keyId) || data.Undefined?
    ensures r.Err? ==> r.thrown == Unnamed
    ensures r.Ok? ==> r == Write(state, GenerateKey(documentType, keyId).value, data)
  {
    match GenerateKey(documentType, keyId)
    case Err(t) => Err(t)
    case Ok(key) => Write(state, key, data)
  }

  method PutData(stub: Stub, documentType: string, keyId: Value, data: Value) returns (r: Result<()>)
    modifies stub
    ensures var w := PutDataSpec(old(stub.state), documentType, keyId, data);
            && (w.Ok? ==> r == Ok(()) && stub.state == w.value)
            && (w.Err? ==> r == Err(w.thrown) && stub.state == old(stub.state))
  {
    var key := GenerateKey(documentType, keyId);
    if key.Err? {
      return Err(key.thrown);
    }
    if data.Undefined? {
      return Err(Unnamed);
    }
    stub.PutState(key.value, Serialise(data));
    r := Ok(());
  }

  /**
   * After a write, reading the same key gives the serialised data (the data
   * itself when it is a JSON value), and every other key reads as before.
   */
  lemma PutThenGet(state: State, documentType: string, keyId: Value, data: Value, other: string)
    requires !data.Undefined? && !ConversionThrows(keyId)
    ensures var key := GenerateKey(documentType, keyId).value;
            var w := PutDataSpec(state, documentType, keyId, data);
            && w.Ok?
            && GetDataSpec(w.value, documentType, keyId) == Ok(JsonText(Serialise(data)))
            && (IsJson(data) ==> GetDataSpec(w.value, documentType, keyId) == Ok(JsonText(data)))
            && (other != key ==> Stored(w.value, other) == Stored(state, other))
  {
    if IsJson(data) { SerialiseJson(data); }
  }

  /** `deleteData(stub, documentType, keyId)`: removes exactly the generated key. */
  method DeleteData(stub: Stub, documentType: string, keyId: Value) returns (r: Result<()>)
    modifies stub
    ensures var key := GenerateKey(documentType, keyId);
            && (key.Ok? ==> r == Ok(()) && stub.state == old(stub.state) - {key.value})
            && (key.Err? ==> r == Err(key.thrown) && stub.state == old(stub.state))
  {
    var key := GenerateKey(documentType, keyId);
    if key.Err? {
      return Err(key.thrown);
    }
    stub.DeleteState(key.value);
    r := Ok(());
  }

  // -------------------------------------------------------------- getDataByQuery

  /** The records one step contributes: its parsed value, unless the value is absent or empty. */
  function Kept(item: Item): seq<Value> {
    if item.Record? then [item.doc] else []
  }

  /**
   * What the drain loop collects from position `p` on: each step's record in
   * cursor order, up to and including the first step flagged done; a cursor
   * whose steps run out reports done.
   */
  function CollectFrom(steps: seq<Step>, p: nat): seq<Value>
    decreases |steps| - p
  {
    if p >= |steps| then []
    else Kept(steps[p].item) + (if steps[p].done then [] else CollectFrom(steps, p + 1))
  }

  function Collect(steps: seq<Step>): seq<Value> {
    CollectFrom(steps, 0)
  }

  /** Every record of the steps, in order, ignoring the done flags. */
  function Records(steps: seq<Step>): seq<Value> {
    if steps == [] then [] else Kept(steps[0].item) + Records(steps[1..])
  }

  lemma {:induction false} CollectFromUpTo(steps: seq<Step>, p: nat, i: nat)
    requires p <= i < |steps| && steps[i].done
    requires forall j :: p <= j < i ==> !steps[j].done
    ensures CollectFrom(steps, p) == Records(steps[p..i + 1])
    decreases i - p
  {
    if p < i {
      CollectFromUpTo(steps, p + 1, i);
      assert steps[p..i + 1][1..] == steps[p + 1..i + 1];
    } else {
      assert steps[p..i + 1][1..] == [];
    }
  }

  /**
   * The loop stops after the first step flagged done and still keeps that
   * step's record: what it collects is exactly the records of the steps up to
   * that one, in order, with absent and empty values skipped.
   */
  lemma CollectUpToFirstDone(steps: seq<Step>, i: nat)
    requires i < |steps| && steps[i].done
    requires forall j :: 0 <= j < i ==> !steps[j].done
    ensures Collect(steps) == Records(steps[..i + 1])
  {
    CollectFromUpTo(steps, 0, i);
    assert steps[0..i + 1] == steps[..i + 1];
  }

  lemma {:induction false} CollectFromWithoutDone(steps: seq<Step>, p: nat)
    requires p <= |steps|
    requires forall j :: p <= j < |steps| ==> !steps[j].done
    ensures CollectFrom(steps, p) == Records(steps[p..])
    decreases |steps| - p
  {
    if p < |steps| {
      CollectFromWithoutDone(steps, p + 1);
      assert steps[p..][1..] == steps[p + 1..];
    }
  }

  /** With no step flagged done, the loop drains every step. */
  lemma CollectWithoutDone(steps: seq<Step>)
    requires forall j :: 0 <= j < |steps| ==> !steps[j].done
    ensures Collect(steps) == Records(steps)
  {
    CollectFromWithoutDone(steps, 0);
    assert steps[0..] == steps;
  }

  /**
   * One round of the drain loop: reading the step at position `p` moves its
   * record (if any) to the collected list, and either ends the drain or leaves
   * the rest to collect from the next position.
   */
  lemma DrainStep(steps: seq<Step>, p: nat, s: Step, p': nat, before: seq<Value>, after: seq<Value>)
    requires p <= |steps|
    requires p < |steps| ==> s == steps[p] && p' == p + 1
    requires p >= |steps| ==> s == Step(NoValue, true)
    requires Collect(steps) == before + CollectFrom(steps, p)
    requires after == before + Kept(s.item)
    ensures s.done ==> Collect(steps) == after
    ensures !s.done ==> Collect(steps) == after + CollectFrom(steps, p')
  {
    var kept := Kept(s.item);
    if p < |steps| {
      var rest := if s.done then [] else CollectFrom(steps, p');
      assert CollectFrom(steps, p) == kept + rest;
      assert before + (kept + rest) == after + rest;
    } else {
      assert CollectFrom(steps, p) == [] && kept == [];
      assert before + [] == after;
    }
  }

  /**
   * `getDataByQuery(stub, query)`: the host receives the query's JSON text,
   * the cursor is drained until a step reports done and closed once, and the
   * records come back as the JSON text of one array.
   */
  method GetDataByQuery(stub: Stub, q: Value) returns (b: Bytes, ghost cursor: QueryCursor)
    ensures b == JsonText(Arr(Collect(stub.query(stub.state, Serialise(q)))))
    ensures fresh(cursor) && cursor.steps == stub.query(stub.state, Serialise(q)) && cursor.closes == 1
  {
    var results := stub.GetQueryResult(Serialise(q));
    ghost var steps := results.steps;
    var queryResult: seq<Value> := [];
    var shouldContinue := true;
    while shouldContinue
      invariant results.steps == steps && results.closes == 0
      invariant results.position <= |steps|
      invariant shouldContinue ==> Collect(steps) == queryResult + CollectFrom(steps, results.position)
      invariant !shouldContinue ==> Collect(steps) == queryResult
      decreases |steps| - results.position + (if shouldContinue then 1 else 0)
    {
      ghost var p := results.position;
      ghost var before := queryResult;
      var step := results.Next();
      if step.item.Record? {
        queryResult := queryResult + [step.item.doc];
      }
      DrainStep(steps, p, step, results.position, before, queryResult);
      if step.done {
        shouldContinue := false;
      }
    }
    results.Close();
    cursor := results;
    b := JsonText(Arr(queryResult));
  }
}
