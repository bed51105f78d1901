/**
 * The `sampleData` schema: `id` a required integer in 0..65535, `firstName`
 * and `lastName` optional strings that are trimmed and then hold 1..255
 * characters, and no other key. The schema is stated twice: as a validity
 * predicate, and as the list of violation details the validation library
 * reports for it with `abortEarly: false`; the two are proved to agree.
 */
module SampleValidation {
  import opened Json

  const MIN_ID := 0
  const MAX_ID := 65535
  const MAX_NAME_LENGTH := 255

  // ----------------------------------------------------------------- trim

  /** The characters `String.prototype.trim` removes: white space and line terminators. */
  const JsSpaces: set<char> := {
    '\t', '\n', '\U{000B}', '\U{000C}', '\r', ' ', '\U{00A0}', '\U{1680}',
    '\U{2000}', '\U{2001}', '\U{2002}', '\U{2003}', '\U{2004}', '\U{2005}',
    '\U{2006}', '\U{2007}', '\U{2008}', '\U{2009}', '\U{200A}',
    '\U{2028}', '\U{2029}', '\U{202F}', '\U{205F}', '\U{3000}', '\U{FEFF}'}

  predicate IsJsSpace(c: char) {
    c in JsSpaces
  }

  function TrimStart(s: string): (r: string)
    ensures |r| <= |s|
    ensures r == [] || !IsJsSpace(r[0])
  {
    if s != [] && IsJsSpace(s[0]) then TrimStart(s[1..]) else s
  }

  function TrimEnd(s: string): (r: string)
    ensures |r| <= |s|
    ensures r == [] || !IsJsSpace(r[|r| - 1])
  {
    if s != [] && IsJsSpace(s[|s| - 1]) then TrimEnd(s[..|s| - 1]) else s
  }

  /** Trimming the start keeps a suffix and cuts off only white space. */
  lemma {:induction false} TrimStartCuts(s: string)
    ensures var r := TrimStart(s);
            && r == s[|s| - |r|..]
            && forall i :: 0 <= i < |s| - |r| ==> IsJsSpace(s[i])
  {
    if s != [] && IsJsSpace(s[0]) {
      TrimStartCuts(s[1..]);
      var r := TrimStart(s);
      forall i | 1 <= i < |s| - |r| ensures IsJsSpace(s[i]) {
        assert s[i] == s[1..][i - 1];
      }
    }
  }

  /** Trimming the end keeps a prefix and cuts off only white space. */
  lemma {:induction false} TrimEndCuts(s: string)
    ensures var r := TrimEnd(s);
            && r == s[..|r|]
            && forall i :: |r| <= i < |s| ==> IsJsSpace(s[i])
  {
    if s != [] && IsJsSpace(s[|s| - 1]) {
      var s' := s[..|s| - 1];
      TrimEndCuts(s');
      var r := TrimEnd(s);
      forall i | |r| <= i < |s| - 1 ensures IsJsSpace(s[i]) {
        assert s[i] == s'[i];
      }
    }
  }

  /** `s.trim()`: white space removed from both ends. */
  function Trim(s: string): (r: string)
    ensures r == [] || (!IsJsSpace(r[0]) && !IsJsSpace(r[|r| - 1]))
  {
    var t := TrimStart(s);
    TrimEndCuts(t);
    TrimEnd(t)
  }

  /** Trimming the end of the suffix `s[lo..]` keeps a stretch of `s` and cuts off only white space. */
  lemma TrimEndOfSuffix(s: string, lo: nat)
    requires lo <= |s|
    ensures var r := TrimEnd(s[lo..]);
            && lo + |r| <= |s| && r == s[lo..lo + |r|]
            && forall i :: lo + |r| <= i < |s| ==> IsJsSpace(s[i])
  {
    var t := s[lo..];
    var r := TrimEnd(t);
    TrimEndCuts(t);
    assert r == s[lo..lo + |r|] by {
      forall i | 0 <= i < |r| ensures r[i] == s[lo + i] {
        assert r[i] == t[..|r|][i] == t[i];
      }
    }
    forall i | lo + |r| <= i < |s| ensures IsJsSpace(s[i]) {
      assert s[i] == t[i - lo];
    }
  }

  /**
   * What trimming leaves is the stretch of `s` between the white space cut off
   * at its start and the white space cut off at its end.
   */
  lemma TrimShape(s: string)
    ensures var r, lo := Trim(s), |s| - |TrimStart(s)|;
            && lo + |r| <= |s| && r == s[lo..lo + |r|]
            && (forall i :: 0 <= i < lo ==> IsJsSpace(s[i]))
            && (forall i :: lo + |r| <= i < |s| ==> IsJsSpace(s[i]))
  {
    var t := TrimStart(s);
    var lo := |s| - |t|;
    TrimStartCuts(s);
    assert Trim(s) == TrimEnd(s[lo..]);
    TrimEndOfSuffix(s, lo);
  }

  lemma TrimIdempotent(s: string)
    ensures Trim(Trim(s)) == Trim(s)
  {
    var r := Trim(s);
    if r != [] {
      assert TrimStart(r) == r;
      assert TrimEnd(r) == r;
    }
  }

  /** `s.length`: JavaScript counts UTF-16 code units, two for a character beyond U+FFFF. */
  function Utf16Length(s: string): (n: nat)
    ensures |s| <= n <= 2 * |s|
    ensures n == 0 <==> s == []
  {
    if s == [] then 0 else (if s[0] as int > 0xFFFF then 2 else 1) + Utf16Length(s[1..])
  }

  // ----------------------------------------------------------- the schema

  const KnownKeys: set<string> := {"id", "firstName", "lastName"}

  /** `Joi.number().integer().min(0).max(65535).required()`. */
  predicate ValidId(v: Value) {
    v.Num? && MIN_ID <= v.n <= MAX_ID
  }

  /** `Joi.string().trim().max(255)`, optional; the string type refuses an empty string. */
  predicate ValidName(v: Value) {
    v.Undefined? || (v.Str? && 0 < Utf16Length(Trim(v.s)) <= MAX_NAME_LENGTH)
  }

  /** `.unknown(false)`: every key of the object is one the schema declares. */
  predicate KeysKnown(fs: seq<Field>) {
    fs == [] || (fs[0].key in KnownKeys && KeysKnown(fs[1..]))
  }

  /** Every key is known exactly when the key at each position is. */
  lemma {:induction false} KeysKnownAt(fs: seq<Field>)
    ensures KeysKnown(fs) <==> forall i :: 0 <= i < |fs| ==> fs[i].key in KnownKeys
  {
    if fs != [] {
      KeysKnownAt(fs[1..]);
      assert forall i :: 1 <= i < |fs| ==> fs[i] == fs[1..][i - 1];
    }
  }

  /**
   * The whole `sampleData` schema, `.unknown(false)`. The object itself is not
   * required: an absent (`undefined`) value passes.
   */
  predicate SampleDataValid(v: Value) {
    || v.Undefined?
    || (&& v.Obj?
        && ValidId(Lookup(v.fields, "id"))
        && ValidName(Lookup(v.fields, "firstName"))
        && ValidName(Lookup(v.fields, "lastName"))
        && KeysKnown(v.fields))
  }

  // --------------------------------------------- the library's error details

  /** One violation: its message (the field's label in double quotes) and its path. */
  datatype Detail = Detail(message: string, path: seq<string>)

  function Quoted(key: string): string {
    "\"" + key + "\""
  }

  function IdDetails(v: Value): (ds: seq<Detail>)
    ensures |ds| == if ValidId(v) then 0 else 1
    ensures forall i :: 0 <= i < |ds| ==> ds[i].path == ["id"]
  {
    if v.Undefined? then [Detail(Quoted("id") + " is required", ["id"])]
    else if !v.Num? then [Detail(Quoted("id") + " must be a number", ["id"])]
    else if v.n < MIN_ID then [Detail(Quoted("id") + " must be larger than or equal to 0", ["id"])]
    else if v.n > MAX_ID then [Detail(Quoted("id") + " must be less than or equal to 65535", ["id"])]
    else []
  }

  function NameDetails(key: string, v: Value): (ds: seq<Detail>)
    ensures |ds| == if ValidName(v) then 0 else 1
    ensures forall i :: 0 <= i < |ds| ==> ds[i].path == [key]
  {
    if v.Undefined? then []
    else if !v.Str? then [Detail(Quoted(key) + " must be a string", [key])]
    else if Trim(v.s) == "" then [Detail(Quoted(key) + " is not allowed to be empty", [key])]
    else if Utf16Length(Trim(v.s)) > MAX_NAME_LENGTH then
      [Detail(Quoted(key) + " length must be less than or equal to 255 characters long", [key])]
    else []
  }

  /** One "is not allowed" detail per key outside the schema, in the object's key order. */
  function UnknownKeyDetails(fs: seq<Field>): (ds: seq<Detail>)
    ensures |ds| <= |fs|
    ensures ds == [] <==> KeysKnown(fs)
    ensures forall i :: 0 <= i < |ds| ==> |ds[i].path| == 1 && ds[i].path[0] !in KnownKeys
  {
    if fs == [] then []
    else
      var rest := UnknownKeyDetails(fs[1..]);
      assert forall i :: 1 <= i < |fs| ==> fs[i] == fs[1..][i - 1];
      if fs[0].key in KnownKeys then rest
      else [NotAllowed(fs[0].key)] + rest
  }

  /** The detail the library reports for a key outside the schema. */
  function NotAllowed(key: string): Detail {
    Detail(Quoted(key) + " is not allowed", [key])
  }

  /** On one field: a detail exactly when its key is outside the schema. */
  lemma UnknownKeyDetailsOne(f: Field)
    ensures UnknownKeyDetails([f]) == if f.key in KnownKeys then [] else [NotAllowed(f.key)]
  {
    assert [f][1..] == [];
  }

  lemma UnknownKeyDetailsCons(f: Field, fs: seq<Field>)
    ensures UnknownKeyDetails([f] + fs) == UnknownKeyDetails([f]) + UnknownKeyDetails(fs)
  {
    assert ([f] + fs)[1..] == fs;
    UnknownKeyDetailsOne(f);
  }

  /** The details follow the fields: those of `a + b` are those of `a`, then those of `b`. */
  lemma {:induction false} UnknownKeyDetailsAppend(a: seq<Field>, b: seq<Field>)
    ensures UnknownKeyDetails(a + b) == UnknownKeyDetails(a) + UnknownKeyDetails(b)
  {
    if a == [] {
      assert a + b == b;
    } else {
      var f, tail := a[0], a[1..];
      assert a == [f] + tail;
      assert a + b == [f] + (tail + b);
      UnknownKeyDetailsCons(f, tail + b);
      UnknownKeyDetailsCons(f, tail);
      UnknownKeyDetailsAppend(tail, b);
      var head := UnknownKeyDetails([f]);
      assert head + (UnknownKeyDetails(tail) + UnknownKeyDetails(b))
          == (head + UnknownKeyDetails(tail)) + UnknownKeyDetails(b);
    }
  }

  /** The positions of the fields whose key is outside the schema. */
  function UnknownPositions(fs: seq<Field>): set<nat> {
    set i: nat | i < |fs| && fs[i].key !in KnownKeys
  }

  lemma UnknownPositionsSnoc(fs: seq<Field>, f: Field)
    ensures UnknownPositions(fs + [f]) ==
            UnknownPositions(fs) + (if f.key in KnownKeys then {} else {|fs|})
  {
    var g := fs + [f];
    forall i: nat | i < |fs| ensures g[i] == fs[i] {}
    assert g[|fs|] == f;
  }

  /** Exactly one detail per field whose key is outside the schema. */
  lemma {:induction false} UnknownKeyDetailsCount(fs: seq<Field>)
    ensures |UnknownKeyDetails(fs)| == |UnknownPositions(fs)|
  {
    if fs == [] {
      assert UnknownPositions(fs) == {};
    } else {
      var n := |fs| - 1;
      var init, f := fs[..n], fs[n];
      assert fs == init + [f];
      UnknownKeyDetailsCount(init);
      UnknownKeyDetailsAppend(init, [f]);
      UnknownKeyDetailsOne(f);
      UnknownPositionsSnoc(init, f);
      assert n !in UnknownPositions(init);
    }
  }

  /** A field whose key is outside the schema is reported, by its key. */
  lemma {:induction false} UnknownKeyReported(fs: seq<Field>, i: nat)
    requires i < |fs| && fs[i].key !in KnownKeys
    ensures NotAllowed(fs[i].key) in UnknownKeyDetails(fs)
  {
    var f, tail := fs[0], fs[1..];
    assert fs == [f] + tail;
    UnknownKeyDetailsCons(f, tail);
    if i == 0 {
      UnknownKeyDetailsOne(f);
    } else {
      assert tail[i - 1] == fs[i];
      UnknownKeyReported(tail, i - 1);
    }
  }

  /**
   * Every violation, not only the first: the declared keys in schema order,
   * then the unknown keys. A value that is not an object (and not absent)
   * yields the single object-type violation at the empty path.
   */
  function Details(v: Value): seq<Detail> {
    match v
    case Undefined => []
    case Obj(fs) =>
      IdDetails(Lookup(fs, "id"))
      + NameDetails("firstName", Lookup(fs, "firstName"))
      + NameDetails("lastName", Lookup(fs, "lastName"))
      + UnknownKeyDetails(fs)
    case _ => [Detail(Quoted("value") + " must be an object", [])]
  }

  /** The library reports no violation exactly when the value satisfies the schema. */
  lemma DetailsEmptyIffValid(v: Value)
    ensures Details(v) == [] <==> SampleDataValid(v)
  {
  }

  /**
   * Each declared field contributes at most one detail, and exactly one when
   * it is invalid; each unknown key contributes one.
   */
  lemma DetailsPerField(fs: seq<Field>)
    ensures |Details(Obj(fs))| ==
      (if ValidId(Lookup(fs, "id")) then 0 else 1)
      + (if ValidName(Lookup(fs, "firstName")) then 0 else 1)
      + (if ValidName(Lookup(fs, "lastName")) then 0 else 1)
      + |UnknownPositions(fs)|
  {
    UnknownKeyDetailsCount(fs);
  }

  // ---------------------------------------------------------- normalisation

  function NormaliseField(f: Field): (g: Field)
    ensures g.key == f.key
  {
    if (f.key == "firstName" || f.key == "lastName") && f.val.Str? then Field(f.key, Str(Trim(f.val.s)))
    else f
  }

  function NormaliseFields(fs: seq<Field>): (gs: seq<Field>)
    ensures |gs| == |fs| && Keys(gs) == Keys(fs)
    ensures forall i :: 0 <= i < |fs| ==> gs[i] == NormaliseField(fs[i])
  {
    var gs := seq(|fs|, i requires 0 <= i < |fs| => NormaliseField(fs[i]));
    KeysAt(gs);
    KeysAt(fs);
    gs
  }

  /** The value the library returns on success: the same keys, with both names trimmed. */
  function Normalise(v: Value): (r: Value) {
    if v.Obj? then Obj(NormaliseFields(v.fields)) else v
  }

  lemma {:induction false} LookupNormalised(fs: seq<Field>, k: string)
    ensures Lookup(NormaliseFields(fs), k) == NormaliseField(Field(k, Lookup(fs, k))).val
  {
    if fs != [] {
      assert NormaliseFields(fs)[1..] == NormaliseFields(fs[1..]);
      LookupNormalised(fs[1..], k);
    }
  }

  /** Normalising a field twice is normalising it once. */
  lemma NormaliseFieldIdempotent(f: Field)
    ensures NormaliseField(NormaliseField(f)) == NormaliseField(f)
  {
    if f.val.Str? { TrimIdempotent(f.val.s); }
  }

  /** A valid name stays valid once normalised, and a string name becomes its trimmed text. */
  lemma NormaliseName(fs: seq<Field>, k: string)
    requires k == "firstName" || k == "lastName"
    requires ValidName(Lookup(fs, k))
    ensures ValidName(Lookup(NormaliseFields(fs), k))
    ensures Lookup(fs, k).Str? ==> Lookup(NormaliseFields(fs), k) == Str(Trim(Lookup(fs, k).s))
  {
    LookupNormalised(fs, k);
    var x := Lookup(fs, k);
    if x.Str? { TrimIdempotent(x.s); }
  }

  /**
   * Normalising keeps the id, trims each name, stays valid, and a second
   * normalisation changes nothing.
   */
  lemma NormaliseValid(v: Value)
    requires SampleDataValid(v) && v.Obj?
    ensures Normalise(v).Obj? && Keys(Normalise(v).fields) == Keys(v.fields)
    ensures Lookup(Normalise(v).fields, "id") == Lookup(v.fields, "id")
    ensures forall k :: k in {"firstName", "lastName"} && Lookup(v.fields, k).Str? ==>
              Lookup(Normalise(v).fields, k) == Str(Trim(Lookup(v.fields, k).s))
    ensures SampleDataValid(Normalise(v))
    ensures Normalise(Normalise(v)) == Normalise(v)
  {
    var fs := v.fields;
    var gs := NormaliseFields(fs);
    LookupNormalised(fs, "id");
    NormaliseName(fs, "firstName");
    NormaliseName(fs, "lastName");
    assert forall i :: 0 <= i < |gs| ==> gs[i].key == fs[i].key;
    KeysKnownAt(fs);
    KeysKnownAt(gs);
    forall i | 0 <= i < |gs| ensures NormaliseField(gs[i]) == gs[i] {
      NormaliseFieldIdempotent(fs[i]);
    }
    assert NormaliseFields(gs) == gs;
  }

  /** Trimming names keeps a JSON value JSON. */
  lemma NormaliseKeepsJson(v: Value)
    requires IsJson(v)
    ensures IsJson(Normalise(v))
  {
    if v.Obj? {
      var gs := NormaliseFields(v.fields);
      forall i | 0 <= i < |gs| ensures IsJson(gs[i].val) {
        assert IsJson(v.fields[i].val);
      }
    }
  }

  /**
   * `documentType` is not in the schema, so a caller can never set it: any
   * payload naming it is refused.
   */
  lemma DocumentTypeRefused(fs: seq<Field>)
    requires "documentType" in Keys(fs)
    ensures !SampleDataValid(Obj(fs))
  {
    var i :| 0 <= i < |fs| && Keys(fs)[i] == "documentType";
    KeyAt(fs, i);
    KeysKnownAt(fs);
  }
}
