/**
 * `validateData(schema, data)` for the `sampleData` schema: on success the
 * normalised value; on failure a VALIDATION_ERRORS_ENCOUNTERED error whose
 * context lists every violation, one formatted line each.
 */
module ValidateData {
  import opened Json
  import opened Errors
  import opened SampleValidation

  const INVALID_DATA_MESSAGE := "The following fields are missing or have been entered with invalid data:"

  predicate IsQuote(c: char) {
    c == '\'' || c == '"'
  }

  /** `s.replace(/['"]+/g, '')`: every single and double quote removed, all else kept in order. */
  function StripQuotes(s: string): (r: string)
    ensures forall i :: 0 <= i < |r| ==> !IsQuote(r[i])
    ensures |r| <= |s|
    ensures (forall i :: 0 <= i < |s| ==> !IsQuote(s[i])) ==> r == s
  {
    if s == [] then []
    else if IsQuote(s[0]) then StripQuotes(s[1..])
    else [s[0]] + StripQuotes(s[1..])
  }

  /** On one character the replacement removes it exactly when it is a quote. */
  lemma StripQuotesOne(c: char)
    ensures StripQuotes([c]) == if IsQuote(c) then [] else [c]
  {
    assert [c][1..] == [];
  }

  /** The replacement works character by character: every other character is kept, in order. */
  lemma {:induction false} StripQuotesAppend(a: string, b: string)
    ensures StripQuotes(a + b) == StripQuotes(a) + StripQuotes(b)
  {
    if a == [] {
      assert a + b == b;
    } else {
      assert (a + b)[0] == a[0];
      assert (a + b)[1..] == a[1..] + b;
      StripQuotesAppend(a[1..], b);
      var head := if IsQuote(a[0]) then [] else [a[0]];
      assert head + (StripQuotes(a[1..]) + StripQuotes(b)) == (head + StripQuotes(a[1..])) + StripQuotes(b);
    }
  }

  /** `` ` ${message without quotes} at ${path}` ``; an array path is joined with commas. */
  function ErrorLine(d: Detail): string {
    " " + StripQuotes(d.message) + " at " + Join(d.path, ",")
  }

  function ErrorLines(ds: seq<Detail>): (lines: seq<Value>)
    ensures |lines| == |ds|
    ensures forall i :: 0 <= i < |ds| ==> lines[i] == Str(ErrorLine(ds[i]))
  {
    seq(|ds|, i requires 0 <= i < |ds| => Str(ErrorLine(ds[i])))
  }

  /** The `errObj` passed as context: the fixed message and the list of lines. */
  function ErrorObject(ds: seq<Detail>): Value {
    Obj([Field("message", Str(INVALID_DATA_MESSAGE)), Field("errors", Arr(ErrorLines(ds)))])
  }

  function Validate(catalog: Catalog, data: Value): (r: Result<Value>)
    ensures r.Ok? <==> SampleDataValid(data)
    ensures r.Ok? ==> r.value == Normalise(data)
    ensures r.Err? ==> r.thrown == Raised(Format(catalog, VALIDATION_ERRORS_ENCOUNTERED, ErrorObject(Details(data))))
  {
    DetailsEmptyIffValid(data);
    var details := Details(data);
    if details == [] then Ok(Normalise(data))
    else Err(Raised(Format(catalog, VALIDATION_ERRORS_ENCOUNTERED, ErrorObject(details))))
  }

  /**
   * `validateData(schema, data)` as the code runs it: the library reports its
   * details, and one line per detail is pushed onto the error list.
   */
  method ValidateData(catalog: Catalog, data: Value) returns (r: Result<Value>)
    ensures r == Validate(catalog, data)
  {
    var details := Details(data);
    DetailsEmptyIffValid(data);
    if details == [] {
      return Ok(Normalise(data));
    }
    var errors: seq<Value> := [];
    for i := 0 to |details|
      invariant |errors| == i
      invariant forall j :: 0 <= j < i ==> errors[j] == Str(ErrorLine(details[j]))
    {
      errors := errors + [Str(ErrorLine(details[i]))];
    }
    assert errors == ErrorLines(details);
    var errObj := Obj([Field("message", Str(INVALID_DATA_MESSAGE)), Field("errors", Arr(errors))]);
    var e := Error(catalog, VALIDATION_ERRORS_ENCOUNTERED, errObj);
    r := Err(Raised(e));
  }

  /**
   * A refused value yields one error line per violation, in the order the
   * violations are reported, each a space, the message free of quote
   * characters, " at " and the path; the message text is fixed.
   */
  lemma RefusalListsEveryViolation(catalog: Catalog, data: Value)
    requires !SampleDataValid(data)
    ensures var e := Validate(catalog, data).thrown.error;
            && e.context == ErrorObject(Details(data)).fields
            && Lookup(e.context, "message") == Str(INVALID_DATA_MESSAGE)
            && Lookup(e.context, "errors").Arr?
            && var lines := Lookup(e.context, "errors").items;
            && |lines| == |Details(data)| >= 1
            && forall i :: 0 <= i < |lines| ==>
                 var d := Details(data)[i];
                 var m := StripQuotes(d.message);
                 && lines[i] == Str(" " + m + " at " + Join(d.path, ","))
                 && forall j :: 0 <= j < |m| ==> !IsQuote(m[j])
  {
    DetailsEmptyIffValid(data);
    var fs := ErrorObject(Details(data)).fields;
    assert UniqueKeys(fs) by {
      assert fs[0].key != fs[1].key;
    }
    CopyIsIdentity(fs);
  }

  /** Whatever the validator returns on success satisfies the schema and is already normalised. */
  lemma AcceptedValueIsNormal(catalog: Catalog, data: Value)
    requires Validate(catalog, data).Ok?
    ensures var v := Validate(catalog, data).value;
            SampleDataValid(v) && Normalise(v) == v
  {
    if data.Obj? { NormaliseValid(data); }
  }
}
