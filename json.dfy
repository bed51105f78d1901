/**
 * JavaScript values as the chaincode handles them: everything JSON.parse can
 * produce, plus `undefined`. Objects are ordered lists of fields, because a
 * JavaScript object remembers the order in which its keys were added and
 * JSON.stringify writes them in that order.
 */
module Json {

  datatype Option<+T> = None | Some(value: T)

  datatype Value =
    | Undefined
    | Null
    | Bool(b: bool)
    | Num(n: int)
    | Str(s: string)
    | Arr(items: seq<Value>)
    | Obj(fields: seq<Field>)

  datatype Field = Field(key: string, val: Value)

  /** A byte buffer: the UTF-8 bytes of a text, or of the JSON text of a document. */
  datatype Bytes = Utf8(text: string) | JsonText(doc: Value)

  /** `buffer.length === 0`; JSON text is never empty. */
  predicate IsEmpty(b: Bytes) {
    b.Utf8? && b.text == ""
  }

  /** JavaScript truthiness (`if (v)`). */
  predicate Truthy(v: Value) {
    match v
    case Undefined => false
    case Null => false
    case Bool(b) => b
    case Num(n) => n != 0
    case Str(s) => s != ""
    case _ => true
  }

  // ---------------------------------------------------------------- objects

  /** `Object.keys(obj)`: the keys in insertion order. */
  function Keys(fs: seq<Field>): (ks: seq<string>)
    ensures |ks| == |fs|
  {
    if fs == [] then [] else [fs[0].key] + Keys(fs[1..])
  }

  lemma {:induction false} KeyAt(fs: seq<Field>, i: nat)
    requires i < |fs|
    ensures Keys(fs)[i] == fs[i].key
  {
    if i > 0 {
      KeyAt(fs[1..], i - 1);
    }
  }

  /** Each key of `Object.keys(obj)` is the key of the field at the same place. */
  lemma KeysAt(fs: seq<Field>)
    ensures forall i :: 0 <= i < |fs| ==> Keys(fs)[i] == fs[i].key
  {
    forall i | 0 <= i < |fs| ensures Keys(fs)[i] == fs[i].key {
      KeyAt(fs, i);
    }
  }

  /** A JavaScript object never holds the same key twice. */
  predicate UniqueKeys(fs: seq<Field>) {
    forall i, j :: 0 <= i < j < |fs| ==> fs[i].key != fs[j].key
  }

  /** Property read `obj[k]` on an object: `undefined` when the key is absent. */
  function Lookup(fs: seq<Field>, k: string): (v: Value)
    ensures k !in Keys(fs) ==> v == Undefined
  {
    if fs == [] then Undefined
    else if fs[0].key == k then fs[0].val
    else Lookup(fs[1..], k)
  }

  /**
   * Property assignment `obj[k] = v`: an existing key keeps its place and takes
   * the new value, a new key goes to the end.
   */
  function SetField(fs: seq<Field>, k: string, v: Value): seq<Field> {
    if fs == [] then [Field(k, v)]
    else if fs[0].key == k then [Field(k, v)] + fs[1..]
    else [fs[0]] + SetField(fs[1..], k, v)
  }

  lemma KeysCons(f: Field, fs: seq<Field>)
    ensures Keys([f] + fs) == [f.key] + Keys(fs)
  {
    assert ([f] + fs)[1..] == fs;
  }

  lemma LookupCons(f: Field, fs: seq<Field>, k: string)
    ensures Lookup([f] + fs, k) == if f.key == k then f.val else Lookup(fs, k)
  {
    assert ([f] + fs)[1..] == fs;
  }

  /** After `obj[k] = v`, key `k` reads `v` and every other key reads what it read before. */
  lemma {:induction false} SetFieldLookup(fs: seq<Field>, k: string, v: Value, k': string)
    ensures Lookup(SetField(fs, k, v), k') == if k' == k then v else Lookup(fs, k')
  {
    if fs == [] {
      LookupCons(Field(k, v), [], k');
    } else {
      assert fs == [fs[0]] + fs[1..];
      LookupCons(fs[0], fs[1..], k');
      if fs[0].key == k {
        LookupCons(Field(k, v), fs[1..], k');
      } else {
        SetFieldLookup(fs[1..], k, v, k');
        LookupCons(fs[0], SetField(fs[1..], k, v), k');
      }
    }
  }

  /** `SetFieldLookup` for every key at once. */
  lemma SetFieldReads(fs: seq<Field>, k: string, v: Value)
    ensures Lookup(SetField(fs, k, v), k) == v
    ensures forall k' :: k' != k ==> Lookup(SetField(fs, k, v), k') == Lookup(fs, k')
  {
    SetFieldLookup(fs, k, v, k);
    forall k' | k' != k ensures Lookup(SetField(fs, k, v), k') == Lookup(fs, k') {
      SetFieldLookup(fs, k, v, k');
    }
  }

  /** Assignment keeps the key order; a new key is appended. */
  lemma {:induction false} SetFieldKeys(fs: seq<Field>, k: string, v: Value)
    ensures Keys(SetField(fs, k, v)) == if k in Keys(fs) then Keys(fs) else Keys(fs) + [k]
  {
    if fs == [] {
      assert Keys([Field(k, v)]) == [] + [k];
    } else {
      var ks := Keys(fs[1..]);
      assert fs == [fs[0]] + fs[1..];
      KeysCons(fs[0], fs[1..]);
      if fs[0].key == k {
        KeysCons(Field(k, v), fs[1..]);
        assert k == Keys(fs)[0];
      } else {
        var rest := SetField(fs[1..], k, v);
        SetFieldKeys(fs[1..], k, v);
        KeysCons(fs[0], rest);
        assert k in Keys(fs) <==> k in ks;
        assert [fs[0].key] + (ks + [k]) == [fs[0].key] + ks + [k];
      }
    }
  }

  /** The fields after the first of an object with distinct keys have distinct keys, none of them the first's. */
  lemma UniqueTail(fs: seq<Field>)
    requires UniqueKeys(fs) && fs != []
    ensures UniqueKeys(fs[1..]) && fs[0].key !in Keys(fs[1..])
  {
    var tail := fs[1..];
    forall a, b | 0 <= a < b < |tail| ensures tail[a].key != tail[b].key {
      assert tail[a] == fs[a + 1] && tail[b] == fs[b + 1];
    }
    KeysAt(tail);
    forall i | 0 <= i < |tail| ensures Keys(tail)[i] != fs[0].key {
      assert tail[i] == fs[i + 1];
    }
  }

  /** A field whose key is new, put in front of fields with distinct keys, keeps the keys distinct. */
  lemma UniqueCons(f: Field, fs: seq<Field>)
    requires UniqueKeys(fs) && f.key !in Keys(fs)
    ensures UniqueKeys([f] + fs)
  {
    var r := [f] + fs;
    KeysAt(fs);
    forall i, j | 0 <= i < j < |r| ensures r[i].key != r[j].key {
      assert r[j] == fs[j - 1];
      if i > 0 { assert r[i] == fs[i - 1]; }
    }
  }

  lemma {:induction false} SetFieldKeepsUnique(fs: seq<Field>, k: string, v: Value)
    requires UniqueKeys(fs)
    ensures UniqueKeys(SetField(fs, k, v))
  {
    if fs == [] {
    } else {
      UniqueTail(fs);
      if fs[0].key == k {
        UniqueCons(Field(k, v), fs[1..]);
      } else {
        SetFieldKeepsUnique(fs[1..], k, v);
        SetFieldKeys(fs[1..], k, v);
        UniqueCons(fs[0], SetField(fs[1..], k, v));
      }
    }
  }

  /**
   * `v[k]` for a key no built-in prototype defines: `None` when the read throws
   * (a property of `null` or `undefined`); `undefined` on every other non-object.
   */
  function Prop(v: Value, k: string): (r: Option<Value>)
    ensures r.None? <==> v.Undefined? || v.Null?
    ensures v.Obj? ==> r == Some(Lookup(v.fields, k))
    ensures !v.Obj? && r.Some? ==> r.value == Undefined
  {
    match v
    case Undefined => None
    case Null => None
    case Obj(fs) => Some(Lookup(fs, k))
    case _ => Some(Undefined)
  }

  /** In an object whose keys are distinct, each field is the one a read of its key finds. */
  lemma {:induction false} LookupUnique(fs: seq<Field>, i: nat)
    requires UniqueKeys(fs) && i < |fs|
    ensures Lookup(fs, fs[i].key) == fs[i].val
  {
    if i > 0 {
      assert fs[0].key != fs[i].key;
      assert UniqueKeys(fs[1..]) by {
        forall a, b | 0 <= a < b < |fs[1..]| ensures fs[1..][a].key != fs[1..][b].key {
          assert fs[1..][a] == fs[a + 1] && fs[1..][b] == fs[b + 1];
        }
      }
      LookupUnique(fs[1..], i - 1);
    }
  }

  /** Assigning a key the object does not have appends the field at the end. */
  lemma {:induction false} SetFieldAppends(fs: seq<Field>, k: string, v: Value)
    requires k !in Keys(fs)
    ensures SetField(fs, k, v) == fs + [Field(k, v)]
  {
    if fs != [] {
      assert Keys(fs)[0] == fs[0].key;
      assert Keys(fs[1..]) == Keys(fs)[1..];
      SetFieldAppends(fs[1..], k, v);
      assert fs == [fs[0]] + fs[1..];
    }
  }

  /**
   * `target[key] = source[key]` for each key of `keys` in turn; a key the
   * source lacks reads as `undefined`.
   */
  function AssignKeys(target: seq<Field>, keys: seq<string>, source: seq<Field>): seq<Field> {
    if keys == [] then target
    else
      var k := keys[|keys| - 1];
      SetField(AssignKeys(target, keys[..|keys| - 1], source), k, Lookup(source, k))
  }

  /** Every own key of `source`, in its order, copied onto `target`. */
  function Assign(target: seq<Field>, source: seq<Field>): seq<Field> {
    AssignKeys(target, Keys(source), source)
  }

  method AssignFields(target: seq<Field>, source: seq<Field>) returns (r: seq<Field>)
    ensures r == Assign(target, source)
  {
    var keys := Keys(source);
    r := target;
    for i := 0 to |keys|
      invariant r == AssignKeys(target, keys[..i], source)
    {
      assert keys[..i + 1][..i] == keys[..i];
      r := SetField(r, keys[i], Lookup(source, keys[i]));
    }
    assert keys[..|keys|] == keys;
  }

  lemma {:induction false} AssignKeysLookup(target: seq<Field>, keys: seq<string>, source: seq<Field>, k: string)
    ensures Lookup(AssignKeys(target, keys, source), k) == if k in keys then Lookup(source, k) else Lookup(target, k)
  {
    if keys != [] {
      var init := keys[..|keys| - 1];
      var last := keys[|keys| - 1];
      assert keys == init + [last];
      AssignKeysLookup(target, init, source, k);
      SetFieldLookup(AssignKeys(target, init, source), last, Lookup(source, last), k);
    }
  }

  /**
   * After the copy, a key of the source reads the source's value, and every
   * other key reads what the target held.
   */
  lemma AssignLookup(target: seq<Field>, source: seq<Field>, k: string)
    ensures Lookup(Assign(target, source), k) == if k in Keys(source) then Lookup(source, k) else Lookup(target, k)
  {
    AssignKeysLookup(target, Keys(source), source, k);
  }

  lemma {:induction false} AssignPrefix(fs: seq<Field>, i: nat)
    requires UniqueKeys(fs) && i <= |fs|
    ensures AssignKeys([], Keys(fs)[..i], fs) == fs[..i]
  {
    if i > 0 {
      var ks := Keys(fs)[..i];
      var prev := fs[..i - 1];
      var f := fs[i - 1];
      AssignPrefix(fs, i - 1);
      assert ks[..i - 1] == Keys(fs)[..i - 1];
      KeyAt(fs, i - 1);
      assert AssignKeys([], ks, fs) == SetField(prev, f.key, Lookup(fs, f.key));
      LookupUnique(fs, i - 1);
      FreshKey(fs, i - 1);
      SetFieldAppends(prev, f.key, f.val);
      assert prev + [f] == fs[..i];
    }
  }

  /** With distinct keys, no field's key occurs among the fields before it. */
  lemma FreshKey(fs: seq<Field>, i: nat)
    requires UniqueKeys(fs) && i < |fs|
    ensures fs[i].key !in Keys(fs[..i])
  {
    var prefix := Keys(fs[..i]);
    forall j | 0 <= j < i ensures prefix[j] != fs[i].key {
      KeyAt(fs[..i], j);
    }
  }

  /** Copying an object with distinct keys onto an empty one gives the same fields in the same order. */
  lemma CopyIsIdentity(fs: seq<Field>)
    requires UniqueKeys(fs)
    ensures Assign([], fs) == fs
  {
    AssignPrefix(fs, |fs|);
    assert Keys(fs)[..|fs|] == Keys(fs);
    assert fs[..|fs|] == fs;
  }

  // ----------------------------------------------------------- String(v)

  function Digit(d: nat): char
    requires d < 10
  {
    "0123456789"[d]
  }

  predicate IsDigit(c: char) {
    '0' <= c <= '9'
  }

  /** The decimal numeral of a natural number, without leading zeros. */
  function NatText(n: nat): (s: string)
    ensures |s| >= 1 && forall i :: 0 <= i < |s| ==> IsDigit(s[i])
    ensures n >= 10 <==> |s| >= 2
    decreases n
  {
    if n < 10 then [Digit(n)] else NatText(n / 10) + [Digit(n % 10)]
  }

  /** `String(n)` for an integer. */
  function IntText(n: int): (s: string)
    ensures |s| >= 1
    ensures n < 0 <==> s[0] == '-'
  {
    if n < 0 then "-" + NatText(-n) else NatText(n)
  }

  lemma {:induction false} NatTextInjective(a: nat, b: nat)
    requires NatText(a) == NatText(b)
    ensures a == b
  {
    var sa, sb := NatText(a), NatText(b);
    if a >= 10 {
      assert b >= 10;
      assert sa[..|sa| - 1] == NatText(a / 10);
      assert sb[..|sb| - 1] == NatText(b / 10);
      NatTextInjective(a / 10, b / 10);
      assert Digit(a % 10) == sa[|sa| - 1] == Digit(b % 10);
    } else {
      assert b < 10;
      assert Digit(a) == Digit(b);
    }
  }

  lemma IntTextInjective(a: int, b: int)
    requires IntText(a) == IntText(b)
    ensures a == b
  {
    if a < 0 {
      assert NatText(-a) == IntText(a)[1..] == IntText(b)[1..] == NatText(-b);
      NatTextInjective(-a, -b);
    } else {
      NatTextInjective(a, b);
    }
  }

  function Join(parts: seq<string>, sep: string): string {
    if |parts| == 0 then ""
    else if |parts| == 1 then parts[0]
    else parts[0] + sep + Join(parts[1..], sep)
  }

  /**
   * Converting `v` to a primitive (`String(v)`, `text + v`, a property key)
   * throws a TypeError: an object with its own `toString` field has no
   * callable `toString` (a parsed value is data, never a function) and its
   * inherited `valueOf` answers the object itself; an array converts through
   * `join`, so through each of its elements.
   */
  predicate ConversionThrows(v: Value)
    decreases v
  {
    match v
    case Obj(fs) => "toString" in Keys(fs)
    case Arr(items) => exists i :: 0 <= i < |items| && ConversionThrows(items[i])
    case _ => false
  }

  /**
   * `String(v)`: numbers in decimal, arrays joined with commas (null and
   * undefined elements as empty text), every other plain object as
   * "[object Object]"; `None` where the conversion throws.
   */
  function JsString(v: Value): (r: Option<string>)
    ensures r.None? <==> ConversionThrows(v)
    ensures v.Num? ==> r == Some(IntText(v.n))
    ensures v.Str? ==> r == Some(v.s)
    ensures v.Obj? && r.Some? ==> r.value == "[object Object]"
    decreases v
  {
    match v
    case Undefined => Some("undefined")
    case Null => Some("null")
    case Bool(b) => Some(if b then "true" else "false")
    case Num(n) => Some(IntText(n))
    case Str(s) => Some(s)
    case Arr(items) =>
      if exists i :: 0 <= i < |items| && JsString(items[i]).None? then None
      else
        Some(Join(seq(|items|, i requires 0 <= i < |items| =>
                    if items[i].Undefined? || items[i].Null? then "" else JsString(items[i]).value), ","))
    case Obj(fs) => if "toString" in Keys(fs) then None else Some("[object Object]")
  }

  // ------------------------------------------------ JSON.stringify / parse

  /** No `undefined` anywhere: a value JSON.parse can return. */
  predicate IsJson(v: Value)
    decreases v
  {
    match v
    case Undefined => false
    case Arr(items) => forall i :: 0 <= i < |items| ==> IsJson(items[i])
    case Obj(fs) => forall i :: 0 <= i < |fs| ==> IsJson(fs[i].val)
    case _ => true
  }

  function DropUndefined(fs: seq<Field>): (r: seq<Field>)
    ensures forall i :: 0 <= i < |r| ==> !r[i].val.Undefined?
    ensures (forall i :: 0 <= i < |fs| ==> !fs[i].val.Undefined?) ==> r == fs
  {
    if fs == [] then []
    else if fs[0].val.Undefined? then DropUndefined(fs[1..])
    else [fs[0]] + DropUndefined(fs[1..])
  }

  /** Dropping works field by field: on one field it keeps it exactly when it is defined. */
  lemma DropUndefinedOne(f: Field)
    ensures DropUndefined([f]) == if f.val.Undefined? then [] else [f]
  {
    assert [f][1..] == [];
  }

  /** Dropping distributes over concatenation, so the defined fields stay in their order. */
  lemma {:induction false} DropUndefinedAppend(a: seq<Field>, b: seq<Field>)
    ensures DropUndefined(a + b) == DropUndefined(a) + DropUndefined(b)
  {
    if a == [] {
      assert a + b == b;
    } else {
      assert (a + b)[0] == a[0];
      assert (a + b)[1..] == a[1..] + b;
      DropUndefinedAppend(a[1..], b);
      var head := if a[0].val.Undefined? then [] else [a[0]];
      assert head + (DropUndefined(a[1..]) + DropUndefined(b)) == (head + DropUndefined(a[1..])) + DropUndefined(b);
    }
  }

  /** With distinct keys, every key reads the same after the `undefined` fields are dropped. */
  lemma {:induction false} DropUndefinedLookup(fs: seq<Field>, k: string)
    requires UniqueKeys(fs)
    ensures Lookup(DropUndefined(fs), k) == Lookup(fs, k)
  {
    if fs != [] {
      UniqueTail(fs);
      DropUndefinedLookup(fs[1..], k);
      if !fs[0].val.Undefined? {
        LookupCons(fs[0], DropUndefined(fs[1..]), k);
      } else if fs[0].key == k {
        assert k !in Keys(fs[1..]);
      }
    }
  }

  /**
   * `JSON.parse(JSON.stringify(v))`: object fields holding `undefined` are
   * dropped, `undefined` array elements become `null`, and `undefined` itself
   * has no JSON text (the result is `Undefined`).
   */
  function Serialise(v: Value): (r: Value)
    ensures r.Undefined? <==> v.Undefined?
    decreases v
  {
    match v
    case Arr(items) =>
      Arr(seq(|items|, i requires 0 <= i < |items| =>
            if items[i].Undefined? then Null else Serialise(items[i])))
    case Obj(fs) =>
      Obj(DropUndefined(seq(|fs|, i requires 0 <= i < |fs| => Field(fs[i].key, Serialise(fs[i].val)))))
    case _ => v
  }

  /** Serialising a JSON value and parsing it back gives the value itself. */
  lemma {:induction false} SerialiseJson(v: Value)
    requires IsJson(v)
    ensures Serialise(v) == v
    decreases v
  {
    match v
    case Arr(items) =>
      forall i | 0 <= i < |items| ensures Serialise(items[i]) == items[i] {
        SerialiseJson(items[i]);
      }
      assert Serialise(v).items == items;
    case Obj(fs) =>
      var mapped := seq(|fs|, i requires 0 <= i < |fs| => Field(fs[i].key, Serialise(fs[i].val)));
      forall i | 0 <= i < |fs| ensures mapped[i] == fs[i] {
        SerialiseJson(fs[i].val);
      }
      assert mapped == fs;
    case _ =>
  }

  /** Whatever was serialised, what comes back is a JSON value. */
  lemma {:induction false} SerialiseIsJson(v: Value)
    requires !v.Undefined?
    ensures IsJson(Serialise(v))
    decreases v
  {
    match v
    case Arr(items) =>
      forall i | 0 <= i < |items| && !items[i].Undefined? ensures IsJson(Serialise(items[i])) {
        SerialiseIsJson(items[i]);
      }
    case Obj(fs) =>
      var mapped := seq(|fs|, i requires 0 <= i < |fs| => Field(fs[i].key, Serialise(fs[i].val)));
      forall i | 0 <= i < |mapped| && !mapped[i].val.Undefined? ensures IsJson(mapped[i].val) {
        SerialiseIsJson(fs[i].val);
      }
      DropUndefinedKeepsJson(mapped);
    case _ =>
  }

  lemma {:induction false} DropUndefinedKeepsJson(fs: seq<Field>)
    requires forall i :: 0 <= i < |fs| && !fs[i].val.Undefined? ==> IsJson(fs[i].val)
    ensures forall i :: 0 <= i < |DropUndefined(fs)| ==> IsJson(DropUndefined(fs)[i].val)
  {
    if fs != [] {
      DropUndefinedKeepsJson(fs[1..]);
    }
  }

  lemma {:induction false} SetFieldKeepsJson(fs: seq<Field>, k: string, v: Value)
    requires IsJson(Obj(fs)) && IsJson(v)
    ensures IsJson(Obj(SetField(fs, k, v)))
  {
    if fs != [] && fs[0].key != k {
      assert IsJson(Obj(fs[1..])) by {
        forall i | 0 <= i < |fs[1..]| ensures IsJson(fs[1..][i].val) {
          assert fs[1..][i] == fs[i + 1];
        }
      }
      SetFieldKeepsJson(fs[1..], k, v);
    }
  }

  lemma {:induction false} LookupJson(fs: seq<Field>, k: string)
    requires IsJson(Obj(fs)) && k in Keys(fs)
    ensures IsJson(Lookup(fs, k))
  {
    if fs[0].key != k {
      assert Keys(fs) == [fs[0].key] + Keys(fs[1..]);
      assert IsJson(Obj(fs[1..])) by {
        forall i | 0 <= i < |fs[1..]| ensures IsJson(fs[1..][i].val) {
          assert fs[1..][i] == fs[i + 1];
        }
      }
      LookupJson(fs[1..], k);
    }
  }

  lemma {:induction false} AssignKeysJson(target: seq<Field>, keys: seq<string>, source: seq<Field>)
    requires IsJson(Obj(target)) && IsJson(Obj(source))
    requires forall i :: 0 <= i < |keys| ==> keys[i] in Keys(source)
    ensures IsJson(Obj(AssignKeys(target, keys, source)))
  {
    if keys != [] {
      var k := keys[|keys| - 1];
      AssignKeysJson(target, keys[..|keys| - 1], source);
      LookupJson(source, k);
      SetFieldKeepsJson(AssignKeys(target, keys[..|keys| - 1], source), k, Lookup(source, k));
    }
  }

  lemma {:induction false} AssignKeysKeepsKeys(target: seq<Field>, keys: seq<string>, source: seq<Field>)
    ensures Keys(target) <= Keys(AssignKeys(target, keys, source))
  {
    if keys != [] {
      var init := AssignKeys(target, keys[..|keys| - 1], source);
      var k := keys[|keys| - 1];
      AssignKeysKeepsKeys(target, keys[..|keys| - 1], source);
      SetFieldKeys(init, k, Lookup(source, k));
    }
  }

  /** Copying keys onto an object keeps its own keys first, in their order. */
  lemma AssignKeepsKeys(target: seq<Field>, source: seq<Field>)
    ensures Keys(target) <= Keys(Assign(target, source))
  {
    AssignKeysKeepsKeys(target, Keys(source), source);
  }

  /** `AssignLookup` for every key at once. */
  lemma AssignReads(target: seq<Field>, source: seq<Field>)
    ensures forall k :: Lookup(Assign(target, source), k) ==
              if k in Keys(source) then Lookup(source, k) else Lookup(target, k)
  {
    forall k ensures Lookup(Assign(target, source), k) ==
                       if k in Keys(source) then Lookup(source, k) else Lookup(target, k) {
      AssignLookup(target, source, k);
    }
  }

  /** Copying one JSON object onto another gives a JSON object. */
  lemma AssignKeepsJson(target: seq<Field>, source: seq<Field>)
    requires IsJson(Obj(target)) && IsJson(Obj(source))
    ensures IsJson(Obj(Assign(target, source)))
  {
    AssignKeysJson(target, Keys(source), source);
  }
}
