# ChaincodeTemplate, modelled in Dafny

A Hyperledger Fabric chaincode that stores "sample data" records in the
ledger's key-value state. The model covers the following parts.

- **The entry point** (`Chaincode`). `Init` acknowledges a deployment.
  `Invoke` reads four positional arguments: the operation type, the document
  category, the method name and a JSON payload. It defaults the payload to
  `{}` and refuses operation types other than `invoke` and `query`. It then
  dispatches and turns the completion into `shim.success(buffer)` or
  `shim.error(JSON text of an error)`. A result that is not a buffer, and a
  thrown error without its own `name`, become `CHAINCODE_ERROR`.
- **The dispatcher** (`CommonHandler`). It resolves the document category
  first (`UNKNOWN_DATA_CATEGORY`) and the method second
  (`UNKNOWN_METHOD_ERROR` with `{methodName}`), then calls the handler with
  the payload.
- **The record handlers** (`SampleData`).
  - `create` validates the record, stamps the document type on it and writes
    it, with no existence check.
  - `get` reads the record and answers `KEY_NOT_FOUND` on empty bytes.
  - `update` looks the record up first, then validates the payload, copies
    its keys onto the stored object and writes the merge back.
  - `getAllByFilter` builds a rich-query selector and drains the answer.
- **The key builder and state accessor** (`Helper`). A storage key is the
  document type followed by the id, with no separator. The module also
  stamps records, writes JSON text, reads, deletes, and drains query cursors.
- **The schema and the validator** (`SampleValidation`, `ValidateData`).
  - `id` is a required integer in 0..65535.
  - `firstName` and `lastName` are optional; each is trimmed and must then
    hold 1..255 characters.
  - No other key is allowed.
  - Every violation is reported, one formatted line each, in a
    `VALIDATION_ERRORS_ENCOUNTERED` error.
- **The error formatter** (`Errors`). It reads `name`, `message` and
  `statusCode` from the error catalog, with fallbacks. `status` repeats
  `statusCode`, and the context object is shallow-copied into `object`.

JavaScript values are `Json.Value`. An object is an ordered list of fields,
so key order, and with it the JSON text, follows insertion order. The host
ledger is `Ledger.Stub`, a class whose `state` map the handlers update. Its
rich-query engine is a function of the state and the query, and a query
cursor is a class that walks a sequence of steps. Each handler is a method
over the stub, proved against a specification function (`CreateSpec`,
`UpdateSpec`, …). The properties are lemmas about those functions. `Invoke`
is a method proved against `InvokeSpec`.

Where the code's behaviour may surprise, the model follows the code:

- `Invoke` checks only `Buffer.isBuffer`, so an empty buffer is a success.
  An empty query answer is the non-empty text `[]`.
- The query cursor is closed only after a drain that completes; nothing
  closes it when the drain throws.
- The storage key is built by string concatenation before any validation,
  so a `get` or an `update` whose id is an object with its own `toString`
  field throws a TypeError there, and the client sees CHAINCODE_ERROR.

The one exception is the method lookup, `typeof module[method] ===
'function'`, which also accepts inherited functions. The dispatcher the
handlers run through refuses them; the code as written is modelled beside it
(see "Findings" and "Left out").

## Model

| member | source | states |
|---|---|---|
| Json.Keys | utils/error.js:21 | definition of `Object.keys`; one key per field (properties in `KeysAt`, `SetFieldKeys`) |
| Json.SetField | utils/helper.js:33 | definition of property assignment; properties in `SetFieldLookup`, `SetFieldKeys`, `SetFieldAppends` |
| Json.AssignKeepsKeys | models/sampleData.js:57-59 | copying keys onto an object keeps its own keys first, in their order |
| Json.AssignReads | models/sampleData.js:57-59 | `AssignLookup` for every key at once |
| Json.ConversionThrows | utils/helper.js:18 | definition: converting an object with its own `toString` field, or an array holding one at any depth, throws a TypeError |
| Json.JsString | utils/helper.js:18 | `String(v)` fails exactly where the conversion throws; a number gives its decimal text, a string itself, another object "[object Object]" |
| Json.DropUndefinedOne | utils/helper.js:59 | on one field, `JSON.stringify` keeps it exactly when it is defined |
| Json.DropUndefinedAppend | utils/helper.js:59 | dropping distributes over concatenation, so the defined fields are kept in their order |
| Json.DropUndefinedLookup | utils/helper.js:59 | with distinct keys, every key reads the same after the `undefined` fields are dropped |
| Json.KeysAt | utils/error.js:21 | `Object.keys` lists each field's key at that field's position |
| Json.Lookup | models/sampleData.js:57-59 | a property read gives `undefined` for a key the object does not have |
| Json.SetFieldLookup | utils/helper.js:33 | after `obj[k] = v`, `k` reads `v` and every other key reads what it read before |
| Json.SetFieldReads | utils/helper.js:30 | the assignment's effect on reads, for the assigned key and for every other key at once |
| Json.SetFieldKeys | models/sampleData.js:58 | an assignment keeps the key order; a new key goes to the end |
| Json.SetFieldKeepsUnique | models/sampleData.js:58 | an assignment never makes a key occur twice |
| Json.SetFieldAppends | utils/helper.js:33 | assigning a key the object lacks appends exactly that field |
| Json.LookupUnique | utils/error.js:22-24 | with distinct keys, each field is what a read of its key finds |
| Json.Prop | models/sampleData.js:48 | a property read throws on `null`/`undefined`, reads the field of an object, and is `undefined` on other values |
| Json.AssignFields | models/sampleData.js:57-59 | the key-by-key copy loop computes `Assign`, the copy of every source key in order |
| Json.AssignLookup | models/sampleData.js:57-59 | after the copy, a source key reads the source's value and every other key reads the target's |
| Json.CopyIsIdentity | utils/error.js:21-24 | copying an object with distinct keys onto `{}` gives the same fields in the same order |
| Json.AssignKeepsJson | models/sampleData.js:57-59 | copying one JSON object onto another gives a JSON object |
| Json.NatText | utils/helper.js:18 | the decimal text of a natural number is non-empty digits, with two or more digits exactly from 10 on |
| Json.IntText | utils/helper.js:18 | `String(n)` starts with `-` exactly for negative `n` |
| Json.NatTextInjective | utils/helper.js:18 | distinct naturals have distinct decimal texts |
| Json.IntTextInjective | utils/helper.js:18 | distinct integers have distinct `String` texts |
| Json.DropUndefined | utils/helper.js:59 | `JSON.stringify` drops every field holding `undefined` and keeps all fields when none does; that every defined field is kept, in order, is `DropUndefinedOne` with `DropUndefinedAppend` |
| Json.Serialise | utils/helper.js:59 | `JSON.parse(JSON.stringify(v))` is `undefined` exactly when `v` is |
| Json.SerialiseJson | models/sampleData.js:55 | serialising a JSON value and parsing the text back gives the value itself |
| Json.SerialiseIsJson | utils/helper.js:59 | whatever is serialised parses back to a JSON value |
| Errors.Format | utils/error.js:11-27 | name, message and statusCode come from the catalog, falling back to the name, `''` and `''`; status repeats statusCode; all four are defined; the context is empty unless the data is a non-empty plain object; it never throws |
| Errors.Error | utils/error.js:11-27 | the formatter as written, with its field-by-field context copy, builds exactly `Format` |
| Errors.FormatCopiesContext | utils/error.js:17-25 | a non-empty plain object is shallow-copied key by key, and with distinct keys the copy is the object's fields in order; anything else gives `{}` |
| Errors.FormatDependsOnlyOnCatalog | utils/error.js:12-16 | two errors under the same name differ at most in their context |
| Errors.Plain | utils/error.js:17 | `error(name)` with no data is a formatted error with an empty context |
| Ledger.Stored | utils/helper.js:47 | `getState` gives empty bytes exactly for an absent key |
| Ledger.QueryCursor.Next | utils/helper.js:85 | `next()` yields the step at the cursor and advances; once the steps run out it reports done |
| Ledger.QueryCursor.Close | utils/helper.js:92 | `close()` is counted once per call |
| Ledger.Stub.GetState | utils/helper.js:47 | reads the stored bytes under a key |
| Ledger.Stub.PutState | utils/helper.js:59 | stores under one key and changes no other |
| Ledger.Stub.DeleteState | utils/helper.js:70 | removes one key and changes no other |
| Ledger.Stub.GetQueryResult | utils/helper.js:82 | a fresh, open cursor over the engine's answer to the query |
| SampleValidation.SampleDataValid | validations/sampleValidation.js:4-8 | definition of the schema; properties in `DetailsEmptyIffValid`, `NormaliseValid`, `DocumentTypeRefused` |
| SampleValidation.Details | validations/sampleValidation.js:4-8 | definition of the reported violations; properties in `DetailsEmptyIffValid`, `DetailsPerField` |
| SampleValidation.Normalise | validations/sampleValidation.js:6-7 | definition of the returned value; properties in `NormaliseValid`, `NormaliseKeepsJson` |
| SampleValidation.KeysKnownAt | validations/sampleValidation.js:8 | `.unknown(false)` holds exactly when the key at every position is one of `id`, `firstName`, `lastName` |
| SampleValidation.UnknownKeyDetailsOne | validations/sampleValidation.js:8 | one field yields an "is not allowed" detail exactly when its key is outside the schema |
| SampleValidation.UnknownKeyDetailsAppend | validations/sampleValidation.js:8 | the unknown-key details follow the fields in order: those of `a + b` are those of `a`, then of `b` |
| SampleValidation.UnknownKeyDetailsCount | validations/sampleValidation.js:8 | exactly one detail per field whose key is outside the schema |
| SampleValidation.UnknownKeyReported | validations/sampleValidation.js:8 | every field whose key is outside the schema is reported by its key |
| SampleValidation.Trim | validations/sampleValidation.js:6-7 | a trimmed name neither starts nor ends with white space |
| SampleValidation.TrimShape | validations/sampleValidation.js:6-7 | trimming keeps the stretch between the white space cut from the start and the white space cut from the end |
| SampleValidation.TrimIdempotent | validations/sampleValidation.js:6-7 | trimming twice is trimming once |
| SampleValidation.Utf16Length | validations/sampleValidation.js:6-7 | a string's length counts between one and two units per character and is 0 only for the empty string |
| SampleValidation.IdDetails | validations/sampleValidation.js:5 | `id` yields one violation exactly when it is not an integer in 0..65535, absence included, at path `id` |
| SampleValidation.NameDetails | validations/sampleValidation.js:6-7 | a name yields one violation exactly when it is present and not a string whose trimmed text holds 1..255 characters |
| SampleValidation.UnknownKeyDetails | validations/sampleValidation.js:8 | violations only at keys outside the schema, and none exactly when every key is known; one per such field, in order, is `UnknownKeyDetailsCount`, `UnknownKeyReported` and `UnknownKeyDetailsAppend` |
| SampleValidation.DetailsEmptyIffValid | validations/sampleValidation.js:4-8 | no violation is reported exactly when the value satisfies the schema |
| SampleValidation.DetailsPerField | validations/sampleValidation.js:4-8 | every violation is reported: one per invalid declared field and one per position holding an unknown key |
| SampleValidation.NormaliseFields | validations/sampleValidation.js:6-7 | normalising trims names field by field and keeps every key in place |
| SampleValidation.NormaliseValid | validations/sampleValidation.js:4-8 | normalising keeps the keys and the id, trims each string name, stays valid and is idempotent |
| SampleValidation.NormaliseKeepsJson | validations/sampleValidation.js:6-7 | trimming names keeps a JSON value JSON |
| SampleValidation.DocumentTypeRefused | validations/sampleValidation.js:4-8 | a payload naming `documentType` always fails the schema |
| ValidateData.StripQuotes | utils/validateData.js:25 | removing quotes leaves no quote, and changes nothing in a text without one; that every other character is kept, in order, is `StripQuotesOne` with `StripQuotesAppend` |
| ValidateData.StripQuotesOne | utils/validateData.js:25 | one character is removed exactly when it is a quote |
| ValidateData.StripQuotesAppend | utils/validateData.js:25 | the replacement works character by character, so every other character is kept, in order |
| ValidateData.ErrorLines | utils/validateData.js:24-26 | one line per detail, in detail order |
| ValidateData.Validate | utils/validateData.js:20-30 | success exactly when the schema holds, returning the normalised value; otherwise VALIDATION_ERRORS_ENCOUNTERED carrying every violation |
| ValidateData.ValidateData | utils/validateData.js:20-30 | the push loop over the details builds exactly `Validate`'s result |
| ValidateData.RefusalListsEveryViolation | utils/validateData.js:21-27 | a refusal carries the fixed message and one line per violation, in order: a space, the quote-free message, " at ", the path |
| ValidateData.AcceptedValueIsNormal | utils/validateData.js:29 | an accepted value satisfies the schema and is already normalised |
| Helper.GenerateKey | utils/helper.js:17-19 | the key is the document type followed by the id's text, with no separator; it throws a TypeError exactly where the id cannot be converted |
| Helper.GenerateKeyThrows | utils/helper.js:17-19 | an id object with its own `toString` field, alone or inside an array, has no key: building it throws |
| Helper.GenerateKeyInjective | utils/helper.js:17-19 | within one document type, distinct integer ids never share a key |
| Helper.GenerateKeyWithoutSeparator | utils/helper.js:17-19 | two document types where one extends the other can share a key |
| Helper.Stamp | utils/helper.js:26-37 | definition of `addDocumentTypeToData`'s result; properties in `StampSingle`, `StampRecordsEach` |
| Helper.Write | utils/helper.js:57-60 | definition of `putData`'s effect; properties in `PutThenGet`, `WriteKeepsStoreJson` |
| Helper.Collect | utils/helper.js:84-91 | definition of what the drain loop collects; properties in `CollectUpToFirstDone`, `CollectWithoutDone` |
| Helper.StampRecord | utils/helper.js:30 | stamping succeeds exactly on objects and arrays |
| Helper.StampRecords | utils/helper.js:28-31 | an array is stamped exactly when each element is an object or an array; otherwise a TypeError |
| Helper.AddDocumentTypeToData | utils/helper.js:26-37 | the in-place stamping loop computes `Stamp` |
| Helper.StampRecordsEach | utils/helper.js:28-31 | each object element gets the document type and keeps its other fields; length and order stay |
| Helper.StampSingle | utils/helper.js:26-36 | falsy data comes back unchanged; an object gets the document type and keeps its other fields |
| Helper.GetDataSpec | utils/helper.js:45-48 | fails exactly where the key cannot be built; otherwise the stored bytes under the derived key |
| Helper.GetData | utils/helper.js:45-48 | the read's outcome is `GetDataSpec`'s, and nothing is written |
| Helper.PutDataSpec | utils/helper.js:57-60 | fails with a TypeError exactly where the key cannot be built or the data is `undefined`; otherwise `Write` under the derived key |
| Helper.PutData | utils/helper.js:57-60 | writes the serialised data under the derived key and nothing else, as `PutDataSpec` says; a throw writes nothing |
| Helper.WriteKeepsStoreJson | utils/helper.js:59 | a write stores JSON text, so the store stays JSON |
| Helper.PutThenGet | utils/helper.js:45-60 | after a write the key reads the serialised data (the data itself when it is JSON), and every other key reads as before |
| Helper.DeleteData | utils/helper.js:68-71 | removes exactly the derived key; a key that cannot be built throws and removes nothing |
| Helper.CollectUpToFirstDone | utils/helper.js:84-91 | the drain keeps the records of the steps up to and including the first done step, in order, skipping absent values |
| Helper.CollectWithoutDone | utils/helper.js:84-91 | with no step flagged done, the drain keeps every record |
| Helper.DrainStep | utils/helper.js:85-90 | one round of the loop moves one step's record to the list and either ends or leaves the rest to collect |
| Helper.GetDataByQuery | utils/helper.js:80-94 | answers with the JSON text of the collected records, and the cursor over the host's answer to this query is closed exactly once |
| SampleData.Create | models/sampleData.js:16-23 | the handler's outcome and the new state are `CreateSpec`'s |
| SampleData.CreateRefusesInvalid | models/sampleData.js:18 | an invalid record throws VALIDATION_ERRORS_ENCOUNTERED listing every violation and writes nothing |
| SampleData.CreateWithoutPayload | models/sampleData.js:18-20 | an absent payload passes the schema but reading its id throws; nothing is written |
| SampleData.CreateWritesStamped | models/sampleData.js:18-22 | a valid record is stored trimmed and stamped under the key built from its id, overwriting any earlier entry, and "success" is returned |
| SampleData.StampedFields | models/sampleData.js:18-19 | the stored record has the document type, the same id, the names trimmed, and every other field as given |
| SampleData.CreateStoresRecord | models/sampleData.js:16-23 | create succeeds, changes only the record's key, and stores the document type, the id and the trimmed names |
| SampleData.Get | models/sampleData.js:30-39 | the handler's outcome is `GetSpec`'s, and it writes nothing |
| SampleData.GetReadsStore | models/sampleData.js:30-38 | a read changes nothing; it returns the stored text, or KEY_NOT_FOUND with `{documentType: 'Sample data', key}`, or a TypeError when the key cannot be built |
| SampleData.CreateThenGet | models/sampleData.js:16-39 | after a create, a get of the same id returns the stored, stamped record |
| SampleData.Merge | models/sampleData.js:57-59 | on a stored object: success, the stored keys stay first, each payload key reads the payload's value and every other key the stored one; an array is unchanged; any other value throws a TypeError unless there is nothing to copy |
| SampleData.Update | models/sampleData.js:46-63 | the handler's outcome and the new state are `UpdateSpec`'s |
| SampleData.UpdateMissingKey | models/sampleData.js:48-54 | a missing record gives KEY_NOT_FOUND with `{documentType: 'Sample Data', key}` before any validation, and nothing is written |
| SampleData.UpdateUnconvertibleId | models/sampleData.js:46-48 | an `id` that cannot be converted throws a TypeError before anything is read or validated, and nothing is written |
| SampleData.UpdateRefusesInvalid | models/sampleData.js:55-56 | an invalid payload for a stored record throws VALIDATION_ERRORS_ENCOUNTERED and writes nothing |
| SampleData.UpdateWritesMerged | models/sampleData.js:55-62 | a valid payload is merged into the stored object and written back under the same key, returning "success" |
| SampleData.MergedFields | models/sampleData.js:57-59 | payload keys take the validated values and every other key, `documentType` included, keeps the stored one |
| SampleData.UpdateMergesIntoStored | models/sampleData.js:46-63 | update merges rather than replaces, changes no other key and returns "success" |
| SampleData.GetAllByFilter | models/sampleData.js:71-83 | answers with what the drain of the selector's query yields, and writes nothing |
| SampleData.SelectorText | models/sampleData.js:72-82 | the host receives `{selector: {id: {$eq: filter}, _id: {$regex: type}}}` as built |
| SampleData.SelectorWithoutFilter | models/sampleData.js:72-82 | called directly without a filter, the `id` condition's text is `{}` |
| SampleData.CreateThrowLeavesState | models/sampleData.js:16-23 | a create returns a buffer or throws; one that throws has written nothing, and its error is formatted or built-in |
| SampleData.UpdateThrowLeavesState | models/sampleData.js:46-63 | an update returns a buffer or throws; one that throws has written nothing, and its error is formatted or built-in |
| SampleData.CreateKeepsStoreJson | models/sampleData.js:20 | create stores only JSON documents |
| SampleData.UpdateKeepsStoreJson | models/sampleData.js:60 | update stores only JSON documents |
| CommonHandler.HandlerNamed | commonHandler.js:29 | the handlers are exactly create, get, update and getAllByFilter |
| CommonHandler.Resolve | commonHandler.js:20-32 | the category is checked first; a method name that cannot be converted to a property key throws; the method is a call exactly for a handler's name; nothing else is called |
| CommonHandler.RunOperation | commonHandler.js:17-33 | the dispatch's outcome and new state are `RunOperationSpec`'s |
| CommonHandler.RoutesToHandlers | commonHandler.js:20-24 | each handler's name on the registered category selects that handler |
| CommonHandler.RefusalChangesNothing | commonHandler.js:25-31 | an unknown category gives UNKNOWN_DATA_CATEGORY whatever the method; an unknown method gives UNKNOWN_METHOD_ERROR with `{methodName}`; a method name that cannot be converted throws a TypeError; nothing is written |
| CommonHandler.PerformOnlySuccessWrites | commonHandler.js:32 | a handler that does not return a buffer has written nothing, and its error is formatted or built-in |
| CommonHandler.OnlySuccessWrites | commonHandler.js:17-33 | whatever is dispatched, a call that does not return a buffer has written nothing |
| CommonHandler.ResolveAsWritten | commonHandler.js:20-31 | definition of the dispatch as written; properties in `ResolveAgreesExceptInherited`, `InheritedNameDispatched` |
| CommonHandler.ResolveAgreesExceptInherited | commonHandler.js:29-31 | the dispatch as written differs from the intended one exactly on inherited function names |
| CommonHandler.InheritedNameDispatched | commonHandler.js:29-32 | as written, method `toString` is called instead of being refused |
| Chaincode.ErrorJson | mychaincode.js:43-45 | the JSON text of an error is a JSON object |
| Chaincode.ErrorJsonKeys | mychaincode.js:45 | an error with defined fields serialises to exactly name, message, statusCode, status and object, in this order |
| Chaincode.Prepare | mychaincode.js:27-34 | a request goes on only with kind `invoke` or `query`; category and method are arguments 1 and 2; errors are the parse error or UNKNOWN_CHAINCODE_OPERATION_TYPE |
| Chaincode.Respond | mychaincode.js:36-46 | success exactly for a buffer, unchanged; a named error is passed on; anything else becomes CHAINCODE_ERROR |
| Chaincode.Init | mychaincode.js:15-17 | always a success, with an empty payload |
| Chaincode.Attempt | mychaincode.js:24-35 | the `try` block's outcome and new state are `AttemptSpec`'s |
| Chaincode.Reply | mychaincode.js:36-46 | the buffer check and the `catch` block build exactly `Respond` |
| Chaincode.Invoke | mychaincode.js:23-47 | the response and the new state are `InvokeSpec`'s |
| Chaincode.PayloadDefaultsToEmptyObject | mychaincode.js:31 | a missing or empty payload argument is `{}` |
| Chaincode.UnknownOperationTypeRefused | mychaincode.js:31-34 | another kind gives UNKNOWN_CHAINCODE_OPERATION_TYPE (CHAINCODE_ERROR if the payload fails to parse first) and writes nothing |
| Chaincode.InvokeAndQueryAgree | mychaincode.js:34-35 | `invoke` and `query` take the identical path |
| Chaincode.InvokeRuns | mychaincode.js:27-39 | with a well-formed request, the response is built from the dispatch's completion |
| Chaincode.FailureWritesNothing | mychaincode.js:23-47 | a failed transaction leaves the ledger as it found it |
| Chaincode.RespondNamesError | mychaincode.js:40-46 | a failure to a formatted or built-in error carries an error document with the five fields |
| Chaincode.FailureNamesItsError | mychaincode.js:40-46 | every failure carries the JSON text of an error with name, message, statusCode, status and object |
| Chaincode.SampleRecordCreated | models/sampleData.js:16-23 | the record `{id: 7, firstName: " Ann "}` is stored as `{id: 7, firstName: "Ann", documentType}` |
| Chaincode.CreateSampleThroughInvoke | mychaincode.js:23-47 | a create through `Invoke` answers "success" and stores the trimmed, stamped record |
| Chaincode.GetThroughInvoke | mychaincode.js:23-47 | a get through `Invoke` of a stored key answers with the stored text and writes nothing |
| Chaincode.InvokeRunsWithoutPayload | mychaincode.js:27-39 | without a payload the dispatched operation runs on `{}`, and the response is built from its completion |
| Chaincode.GetAllWithoutPayload | mychaincode.js:31-35 | `getAllByFilter` through `Invoke` without a payload queries for `id` equal to `{}` and answers with the drained records, writing nothing |
| Chaincode.GetUnconvertibleThroughInvoke | mychaincode.js:31-46 | a get whose payload is an object with its own `toString` field answers CHAINCODE_ERROR and writes nothing |
| Chaincode.CreateThenGetThroughInvoke | mychaincode.js:23-47 | a create, then a get of the same id, both through `Invoke`, returns the stored record |

## Left out

- The Fabric shim is abstracted: `stub.getArgs()` is the `args` parameter of
  `Invoke`, and `shim.start` (mychaincode.js:50) is not modelled. Responses
  are the `Response` datatype.
- JSON text and buffers are values, not bytes. `JSON.parse` of the payload is
  a parameter that answers `None` for a syntax error. Only JSON values are
  stored, so the stored text always parses.
- Numbers are integers of any size. Fractional numbers, and so Joi's
  `integer()` check, are not modelled, and neither is the rounding of
  integers of magnitude 2^53 and above to the nearest double.
- Json.IntText: writes every integer in full, where `String(n)` switches to
  exponent form from magnitude 10^21 on ("1e+21"); such ids lie far outside
  the schema's 0..65535, and the model gives them keys of their full digits.
- Helper.GenerateKey: for an id of magnitude 10^21 or more the key holds the
  id's full digits where the code's key holds its exponent form (see
  `Json.IntText`); every other id, including the objects whose conversion
  throws, gets the code's key or the code's TypeError.
- Joi is modelled by its outcome: a validity predicate, a trim, and one
  detail per violation in schema order. The library's message texts are
  approximated. Its type coercion is not modelled: numeric strings are not
  turned into numbers, and JSON text is not parsed into an object, so a
  string `id` and a payload that is a string holding a JSON object are
  refused where the library would accept them.
- CommonHandler.RunOperation: refuses a method name that is an inherited
  `Object.prototype` function with UNKNOWN_METHOD_ERROR, where the code calls
  that function (see "Findings"); `Attempt`, `Invoke` and `InvokeSpec`
  inherit this. The code's dispatch is `ResolveAsWritten`.
- Errors whose `name` field is inherited rather than own are not modelled.
  A thrown value is a formatted error or a built-in one without own `name`.
- The catalog is keyed by the symbolic name. Callers pass
  `errorList.X.name`, which the model takes to be `X`. The constants files
  are not part of this model; the document type and the catalog are the
  `Config` parameter.
- `_.get` is modelled for a plain name, not for a dotted path inside it.
- The rich-query engine is a function of the state and the query: how
  CouchDB matches `$eq` and `$regex` is not modelled. A query cursor's value
  is a parsed record or absent; a value that fails to parse is not modelled.
- Helper.GetDataByQuery: does not state that the cursor is closed when the
  drain throws, because the code has no `finally` and does not close it then.
- Host errors from `getState`, `putState`, `deleteState` and
  `getQueryResult` are not modelled; each call succeeds.
- JavaScript object keys that look like array indices are enumerated first
  by the engine. The model keeps plain insertion order for every key.
- Named properties put on arrays (stamping or merging into a stored array)
  are dropped, as their JSON text drops them; aliasing between array
  elements is not modelled.
- Objects are values. The in-place updates of `addDocumentTypeToData` and of
  the merge loop are modelled as returning the updated copy.
- Logging and `async`/`await` are left out; each call runs to completion in
  order.

## Findings

| source | as written | input that shows it | evidently intended | confidence | as-written member | corrected member |
|---|---|---|---|---|---|---|
| commonHandler.js:29-32 | `typeof documentType[methodType] !== 'function'` also accepts functions inherited from `Object.prototype`, which are then called with `(stub, data)` | method name `toString` on the registered category: the call returns a string, so the client sees CHAINCODE_ERROR instead of UNKNOWN_METHOD_ERROR | only the module's own handlers are callable; every other name is refused with UNKNOWN_METHOD_ERROR and `{methodName}` | not executed | CommonHandler.InheritedNameDispatched | CommonHandler.ResolveAgreesExceptInherited |
