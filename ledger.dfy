/**
 * The host ledger as the chaincode sees it through its stub: a key-value state
 * whose entries are JSON documents, and a rich-query facility that hands back
 * a cursor over result steps. How the host matches a query is not modelled:
 * the stub carries it as a function of the state and the query.
 */
module Ledger {
  import opened Json

  type State = map<string, Value>

  /** What one `next()` of a query cursor carries as its value. */
  datatype Item = NoValue | EmptyValue | Record(doc: Value)

  /** One `next()` result: the item and the `done` flag. */
  datatype Step = Step(item: Item, done: bool)

  /** `getState(key)`: the stored document's JSON text, or an empty buffer for an absent key. */
  function Stored(state: State, key: string): (b: Bytes)
    ensures IsEmpty(b) <==> key !in state
  {
    if key in state then JsonText(state[key]) else Utf8("")
  }

  class QueryCursor {
    const steps: seq<Step>
    var position: nat
    var closes: nat

    constructor (steps: seq<Step>)
      ensures this.steps == steps && position == 0 && closes == 0
    {
      this.steps := steps;
      position := 0;
      closes := 0;
    }

    /** `await results.next()`; once the steps run out, every call reports done. */
    method Next() returns (s: Step)
      requires closes == 0
      modifies this`position
      ensures old(position) < |steps| ==> s == steps[old(position)] && position == old(position) + 1
      ensures old(position) >= |steps| ==> s == Step(NoValue, true) && position == old(position)
    {
      if position < |steps| {
        s := steps[position];
        position := position + 1;
      } else {
        s := Step(NoValue, true);
      }
    }

    /** `await results.close()`. */
    method Close()
      modifies this`closes
      ensures closes == old(closes) + 1
    {
      closes := closes + 1;
    }
  }

  class Stub {
    var state: State
    const query: (State, Value) -> seq<Step>

    constructor (initial: State, query: (State, Value) -> seq<Step>)
      ensures state == initial && this.query == query
    {
      state := initial;
      this.query := query;
    }

    method GetState(key: string) returns (b: Bytes)
      ensures b == Stored(state, key)
    {
      b := Stored(state, key);
    }

    method PutState(key: string, doc: Value)
      modifies this`state
      ensures state == old(state)[key := doc]
    {
      state := state[key := doc];
    }

    method DeleteState(key: string)
      modifies this`state
      ensures state == old(state) - {key}
    {
      state := state - {key};
    }

    method GetQueryResult(q: Value) returns (cursor: QueryCursor)
      ensures fresh(cursor) && cursor.steps == query(state, q)
      ensures cursor.position == 0 && cursor.closes == 0
    {
      cursor := new QueryCursor(query(state, q));
    }
  }
}
