/**
 * Already-parsed JSON values, and how each side of the wire reads them.
 *
 * The client side reads a reply with the C++ JSON library (value(), contains(),
 * operator[], conversion to string, int and bool, range-for iteration); the
 * backend side reads a request with Python's dict methods and truthiness.
 * Text parsing and serialisation are not modelled: a parse failure is a value
 * of its own wherever it matters.
 */
module Json {
  import opened Wrappers

  datatype JValue =
    | JNull
    | JBool(b: bool)
    | JInt(i: int)
    | JStr(s: string)
    | JArr(elems: seq<JValue>)
    | JObj(fields: seq<(string, JValue)>)

  /**
   * The value a parsed object holds under `key`. When the text repeated a key,
   * both parsers keep its last occurrence, so the lookup takes the last one.
   */
  function Lookup(fields: seq<(string, JValue)>, key: string): (r: Option<JValue>)
    ensures r.None? <==> forall k :: 0 <= k < |fields| ==> fields[k].0 != key
    ensures r.Some? ==> exists k :: 0 <= k < |fields| && fields[k] == (key, r.value)
    decreases |fields|
  {
    if |fields| == 0 then None
    else if fields[|fields| - 1].0 == key then Some(fields[|fields| - 1].1)
    else Lookup(fields[..|fields| - 1], key)
  }

  /** The set of keys an object carries. */
  function Keys(fields: seq<(string, JValue)>): set<string> {
    set k | 0 <= k < |fields| :: fields[k].0
  }

  lemma {:induction false} LookupInKeys(fields: seq<(string, JValue)>, key: string)
    ensures Lookup(fields, key).Some? <==> key in Keys(fields)
  {
    if key in Keys(fields) {
      var k :| 0 <= k < |fields| && fields[k].0 == key;
      assert Lookup(fields, key).Some?;
    }
  }

  /** Looking up a key in an object literal whose keys are pairwise distinct finds the listed value. */
  lemma {:induction false} LookupDistinct(fields: seq<(string, JValue)>, k: nat)
    requires k < |fields|
    requires forall a, b :: 0 <= a < b < |fields| ==> fields[a].0 != fields[b].0
    ensures Lookup(fields, fields[k].0) == Some(fields[k].1)
    decreases |fields|
  {
    if k < |fields| - 1 {
      LookupDistinct(fields[..|fields| - 1], k);
    }
  }

  /** In concatenated fields, a key of the later part hides the earlier part, since the last occurrence wins. */
  lemma {:induction false} LookupAppend(a: seq<(string, JValue)>, b: seq<(string, JValue)>, key: string)
    ensures Lookup(a + b, key) == if Lookup(b, key).Some? then Lookup(b, key) else Lookup(a, key)
    decreases |b|
  {
    if b == [] {
      assert a + b == a;
    } else {
      var last := |b| - 1;
      assert (a + b)[..|a + b| - 1] == a + b[..last];
      assert (a + b)[|a + b| - 1] == b[last];
      LookupAppend(a, b[..last], key);
    }
  }

  /** An object field, or None for an absent key or a value that is no object. */
  function Field(j: JValue, key: string): Option<JValue> {
    if j.JObj? then Lookup(j.fields, key) else None
  }

  // ---------------------------------------------------------------------------
  // The C++ JSON library (nlohmann::json 3.x), as the addon uses it.
  // Each method that throws becomes an Err carrying the exception's what().
  // ---------------------------------------------------------------------------

  /** The library's name for a value's type, as it appears in its messages. */
  function TypeName(j: JValue): string {
    match j
    case JNull => "null"
    case JBool(_) => "boolean"
    case JInt(_) => "number"
    case JStr(_) => "string"
    case JArr(_) => "array"
    case JObj(_) => "object"
  }

  function TypeMismatch(expected: string, j: JValue): string {
    "[json.exception.type_error.302] type must be " + expected + ", but is " + TypeName(j)
  }

  function ValueOnNonObject(j: JValue): string {
    "[json.exception.type_error.306] cannot use value() with " + TypeName(j)
  }

  function IndexOnNonObject(j: JValue): string {
    "[json.exception.type_error.305] cannot use operator[] with a string argument with " + TypeName(j)
  }

  /**
   * Reading an absent key through the library's const operator[] is undefined
   * behaviour in C++; the model treats it as one more thrown error.
   */
  function MissingKey(key: string): string {
    "undefined behaviour: missing key " + key
  }

  /** `contains(key)`: false for every value that is not an object. */
  predicate Contains(j: JValue, key: string) {
    Field(j, key).Some?
  }

  /** Conversion to bool: only a boolean converts. */
  function AsBool(j: JValue): (r: Result<bool>)
    ensures r.Ok? <==> j.JBool?
    ensures r.Ok? ==> r.value == j.b
  {
    if j.JBool? then Ok(j.b) else Err(TypeMismatch("boolean", j))
  }

  /** Conversion to int: a number converts, and so does a boolean (as 0 or 1). */
  function AsInt(j: JValue): (r: Result<int>)
    ensures r.Ok? <==> j.JInt? || j.JBool?
    ensures j.JInt? ==> r == Ok(j.i)
  {
    match j
    case JInt(i) => Ok(i)
    case JBool(b) => Ok(if b then 1 else 0)
    case _ => Err(TypeMismatch("number", j))
  }

  /** Conversion to std::string: only a string converts. */
  function AsString(j: JValue): (r: Result<string>)
    ensures r.Ok? <==> j.JStr?
    ensures r.Ok? ==> r.value == j.s
  {
    if j.JStr? then Ok(j.s) else Err(TypeMismatch("string", j))
  }

  /** `value(key, default)`: throws on a non-object, gives default for an absent key, else converts. */
  function ValueBool(j: JValue, key: string, default: bool): (r: Result<bool>)
    ensures !j.JObj? ==> r.Err?
    ensures j.JObj? && !Contains(j, key) ==> r == Ok(default)
    ensures Contains(j, key) ==> r == AsBool(Field(j, key).value)
  {
    if !j.JObj? then Err(ValueOnNonObject(j))
    else match Lookup(j.fields, key)
      case None => Ok(default)
      case Some(v) => AsBool(v)
  }

  function ValueInt(j: JValue, key: string, default: int): (r: Result<int>)
    ensures !j.JObj? ==> r.Err?
    ensures j.JObj? && !Contains(j, key) ==> r == Ok(default)
    ensures Contains(j, key) ==> r == AsInt(Field(j, key).value)
  {
    if !j.JObj? then Err(ValueOnNonObject(j))
    else match Lookup(j.fields, key)
      case None => Ok(default)
      case Some(v) => AsInt(v)
  }

  function ValueString(j: JValue, key: string, default: string): (r: Result<string>)
    ensures !j.JObj? ==> r.Err?
    ensures j.JObj? && !Contains(j, key) ==> r == Ok(default)
    ensures Contains(j, key) ==> r == AsString(Field(j, key).value)
  {
    if !j.JObj? then Err(ValueOnNonObject(j))
    else match Lookup(j.fields, key)
      case None => Ok(default)
      case Some(v) => AsString(v)
  }

  /**
   * Non-const `operator[](key)`: an absent key reads as null (the library
   * inserts it), a null value reads as an empty object, anything else throws.
   */
  function Index(j: JValue, key: string): (r: Result<JValue>)
    ensures r.Ok? <==> j.JObj? || j.JNull?
    ensures Contains(j, key) ==> r == Ok(Field(j, key).value)
    ensures r.Ok? && !Contains(j, key) ==> r.value == JNull
  {
    if j.JObj? then Ok(Lookup(j.fields, key).GetOr(JNull))
    else if j.JNull? then Ok(JNull)
    else Err(IndexOnNonObject(j))
  }

  /** Const `operator[](key)`, as applied to the elements of an iteration. */
  function ConstIndex(j: JValue, key: string): (r: Result<JValue>)
    ensures r.Ok? <==> Contains(j, key)
    ensures r.Ok? ==> r.value == Field(j, key).value
  {
    if !j.JObj? then Err(IndexOnNonObject(j))
    else if Contains(j, key) then Ok(Field(j, key).value)
    else Err(MissingKey(key))
  }

  /**
   * std::string's `<`: characters compared in turn, a proper prefix first.
   * On code points this is the byte order of their UTF-8 encodings.
   */
  predicate Below(a: string, b: string)
    decreases |a|
  {
    |b| > 0 && (|a| == 0 || a[0] < b[0] || (a[0] == b[0] && Below(a[1..], b[1..])))
  }

  lemma {:induction false} BelowIrreflexive(a: string)
    ensures !Below(a, a)
    decreases |a|
  {
    if |a| > 0 {
      BelowIrreflexive(a[1..]);
    }
  }

  lemma {:induction false} BelowTransitive(a: string, b: string, c: string)
    requires Below(a, b) && Below(b, c)
    ensures Below(a, c)
    decreases |a|
  {
    if |a| > 0 && a[0] == b[0] && b[0] == c[0] {
      BelowTransitive(a[1..], b[1..], c[1..]);
    }
  }

  lemma {:induction false} BelowTotal(a: string, b: string)
    requires a != b
    ensures Below(a, b) || Below(b, a)
    decreases |a|
  {
    if |a| > 0 && |b| > 0 && a[0] == b[0] {
      assert a == [a[0]] + a[1..] && b == [b[0]] + b[1..];
      BelowTotal(a[1..], b[1..]);
    }
  }

  /** Strictly ascending, hence each key once. */
  ghost predicate Ascending(ks: seq<string>) {
    forall i, k :: 0 <= i < k < |ks| ==> Below(ks[i], ks[k])
  }

  /** Adds a key to an ascending key list at its place, unless it is there already. */
  function InsertKey(key: string, ks: seq<string>): (r: seq<string>)
    ensures |r| <= |ks| + 1
    decreases |ks|
  {
    if ks == [] then [key]
    else if key == ks[0] then ks
    else if Below(key, ks[0]) then [key] + ks
    else [ks[0]] + InsertKey(key, ks[1..])
  }

  lemma {:induction false} InsertKeyAscending(key: string, ks: seq<string>)
    requires Ascending(ks)
    ensures Ascending(InsertKey(key, ks))
    ensures forall x :: x in InsertKey(key, ks) <==> x in ks || x == key
    decreases |ks|
  {
    if ks != [] && key != ks[0] && !Below(key, ks[0]) {
      var t := InsertKey(key, ks[1..]);
      assert Ascending(ks[1..]);
      InsertKeyAscending(key, ks[1..]);
      assert ks == [ks[0]] + ks[1..];
      BelowTotal(key, ks[0]);
      forall x | x in t
        ensures Below(ks[0], x)
      {
        if x != key {
          var k :| 0 <= k < |ks[1..]| && ks[1..][k] == x;
          assert ks[k + 1] == x;
        }
      }
      var r := [ks[0]] + t;
      forall i, k | 0 <= i < k < |r|
        ensures Below(r[i], r[k])
      {
        if i == 0 {
          assert r[k] == t[k - 1];
        } else {
          assert r[i] == t[i - 1] && r[k] == t[k - 1];
        }
      }
    } else if ks != [] && key != ks[0] {
      var r := [key] + ks;
      forall i, k | 0 <= i < k < |r|
        ensures Below(r[i], r[k])
      {
        if i == 0 {
          assert r[k] == ks[k - 1];
          if k > 1 {
            BelowTransitive(key, ks[0], ks[k - 1]);
          }
        } else {
          assert r[i] == ks[i - 1] && r[k] == ks[k - 1];
        }
      }
    }
  }

  /** The keys of an object as its std::map holds them: ascending, each once. */
  function SortedKeys(fields: seq<(string, JValue)>): (r: seq<string>)
    ensures |r| <= |fields|
  {
    if fields == [] then [] else InsertKey(fields[0].0, SortedKeys(fields[1..]))
  }

  /** A parsed object's keys, ascending and each once, are exactly the keys the text carried. */
  lemma {:induction false} SortedKeysAscending(fields: seq<(string, JValue)>)
    ensures Ascending(SortedKeys(fields))
    ensures forall x :: x in SortedKeys(fields) <==> x in Keys(fields)
  {
    if fields != [] {
      SortedKeysAscending(fields[1..]);
      InsertKeyAscending(fields[0].0, SortedKeys(fields[1..]));
      forall x
        ensures x in Keys(fields) <==> x in Keys(fields[1..]) || x == fields[0].0
      {
        if x in Keys(fields) && x != fields[0].0 {
          var k :| 0 <= k < |fields| && fields[k].0 == x;
          assert fields[1..][k - 1].0 == x;
        }
        if x in Keys(fields[1..]) {
          var k :| 0 <= k < |fields[1..]| && fields[1..][k].0 == x;
          assert fields[k + 1].0 == x;
        }
      }
    }
  }

  /**
   * The values a range-for visits: array elements; an object's values in
   * ascending key order, one per distinct key; nothing for null; a scalar itself.
   */
  function Elements(j: JValue): (r: seq<JValue>)
    ensures j.JArr? ==> r == j.elems
    ensures j.JNull? ==> r == []
    ensures j.JObj? ==> |r| <= |j.fields|
    ensures !j.JArr? && !j.JObj? && !j.JNull? ==> r == [j]
  {
    match j
    case JArr(es) => es
    case JObj(fs) =>
      var ks := SortedKeys(fs);
      seq(|ks|, i requires 0 <= i < |ks| => Lookup(fs, ks[i]).GetOr(JNull))
    case JNull => []
    case _ => [j]
  }

  /** Iterating an object visits, key by ascending key, the value each key reads as. */
  lemma {:induction false} ObjectElementsInKeyOrder(fields: seq<(string, JValue)>)
    ensures Ascending(SortedKeys(fields))
    ensures forall x :: x in SortedKeys(fields) <==> x in Keys(fields)
    ensures |Elements(JObj(fields))| == |SortedKeys(fields)|
    ensures forall i :: 0 <= i < |SortedKeys(fields)|
              ==> Field(JObj(fields), SortedKeys(fields)[i]) == Some(Elements(JObj(fields))[i])
  {
    var ks := SortedKeys(fields);
    SortedKeysAscending(fields);
    forall i | 0 <= i < |ks|
      ensures Field(JObj(fields), ks[i]) == Some(Elements(JObj(fields))[i])
    {
      assert ks[i] in Keys(fields);
      LookupInKeys(fields, ks[i]);
    }
  }

  /** Two concrete objects: listed keys out of order are visited in order, and a repeated key once. */
  lemma {:induction false} ObjectIterationExamples(x: JValue, y: JValue)
    ensures Elements(JObj([("b", x), ("a", y)])) == [y, x]
    ensures Elements(JObj([("a", x), ("b", y), ("a", y)])) == [y, y]
  {
    assert Below("a", "b") && !Below("b", "a");
    var one: seq<(string, JValue)> := [("a", y)];
    assert SortedKeys(one) == InsertKey("a", []) == ["a"];
    var two: seq<(string, JValue)> := [("b", x), ("a", y)];
    assert two[1..] == one;
    assert SortedKeys(two) == InsertKey("b", ["a"]) == ["a", "b"];
    var three: seq<(string, JValue)> := [("a", x), ("b", y), ("a", y)];
    assert three[1..] == [("b", y), ("a", y)];
    assert SortedKeys(three[1..]) == ["a", "b"];
    assert SortedKeys(three) == InsertKey("a", ["a", "b"]) == ["a", "b"];
  }

  // ---------------------------------------------------------------------------
  // Python's view of a decoded value (json.loads results on the backend side).
  // ---------------------------------------------------------------------------

  /** Python truthiness: None, False, 0, "", [] and {} are false. */
  predicate Truthy(j: JValue) {
    match j
    case JNull => false
    case JBool(b) => b
    case JInt(i) => i != 0
    case JStr(s) => s != ""
    case JArr(es) => es != []
    case JObj(fs) => fs != []
  }

  /** `dict.get(key, default)` on a decoded object. */
  function Get(obj: JValue, key: string, default: JValue): (r: JValue)
    requires obj.JObj?
    ensures Field(obj, key).Some? ==> r == Field(obj, key).value
    ensures Field(obj, key).None? ==> r == default
  {
    Field(obj, key).GetOr(default)
  }

  /** Python's name for the type of a decoded value. */
  function PyTypeName(j: JValue): string {
    match j
    case JNull => "NoneType"
    case JBool(_) => "bool"
    case JInt(_) => "int"
    case JStr(_) => "str"
    case JArr(_) => "list"
    case JObj(_) => "dict"
  }

  /** The message of the AttributeError raised by calling a missing method on a value. */
  function NoAttribute(j: JValue, name: string): string {
    "'" + PyTypeName(j) + "' object has no attribute '" + name + "'"
  }

  function DigitChar(d: nat): char
    requires d < 10
  {
    "0123456789"[d]
  }

  /** Decimal digits of a natural number, most significant first. */
  function NatToDecimal(n: nat): (r: string)
    ensures |r| > 0
    ensures forall k :: 0 <= k < |r| ==> '0' <= r[k] <= '9'
  {
    if n < 10 then [DigitChar(n)] else NatToDecimal(n / 10) + [DigitChar(n % 10)]
  }

  function IntToDecimal(i: int): string {
    if i < 0 then "-" + NatToDecimal(-i) else NatToDecimal(i)
  }

  /** Reads back a string of decimal digits. */
  function ParseDecimal(s: string): int
    requires forall k :: 0 <= k < |s| ==> '0' <= s[k] <= '9'
  {
    if |s| == 0 then 0
    else ParseDecimal(s[..|s| - 1]) * 10 + (s[|s| - 1] as int - '0' as int)
  }

  /** The decimal rendering of a number reads back as that number. */
  lemma {:induction false} DecimalRoundTrip(n: nat)
    ensures ParseDecimal(NatToDecimal(n)) == n
  {
    if n >= 10 {
      var s := NatToDecimal(n);
      assert s[..|s| - 1] == NatToDecimal(n / 10);
      DecimalRoundTrip(n / 10);
    }
  }

  function Join(parts: seq<string>, sep: string): string {
    if |parts| == 0 then ""
    else if |parts| == 1 then parts[0]
    else parts[0] + sep + Join(parts[1..], sep)
  }

  /**
   * `str(value)` in Python, for what json.loads can return. Quotes inside a
   * string nested in a list or dict are not escaped here.
   */
  function PyStr(j: JValue): string
    decreases j, 1
  {
    match j
    case JStr(s) => s
    case _ => PyRepr(j)
  }

  function PyRepr(j: JValue): string
    decreases j, 0
  {
    match j
    case JNull => "None"
    case JBool(b) => if b then "True" else "False"
    case JInt(i) => IntToDecimal(i)
    case JStr(s) => "'" + s + "'"
    case JArr(es) => "[" + Join(seq(|es|, k requires 0 <= k < |es| => PyRepr(es[k])), ", ") + "]"
    case JObj(fs) =>
      "{" + Join(seq(|fs|, k requires 0 <= k < |fs| => "'" + fs[k].0 + "': " + PyRepr(fs[k].1)), ", ") + "}"
  }
}
