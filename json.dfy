/** JSON values as `JSON.parse` produces them, and the type checks the game's
    `fromJSON` readers apply to them. A member that is absent reads as
    JavaScript's `undefined`, modelled as `None`. */
module JsonValues {
  import opened Results

  /** A JSON value; numbers are exact reals (floating point is not modelled). */
  datatype Json =
    | JNull
    | JBool(b: bool)
    | JNum(n: real)
    | JStr(s: string)
    | JArr(items: seq<Json>)
    | JObj(fields: map<string, Json>)

  /** `json[key]`: the member, or `None` (undefined) when `j` has no such member. */
  function Field(j: Json, key: string): (r: Option<Json>)
    ensures r.Some? <==> j.JObj? && key in j.fields
    ensures r.Some? ==> r.value == j.fields[key]
  {
    if j.JObj? && key in j.fields then Some(j.fields[key]) else None
  }

  /** JavaScript truthiness of a member that may be undefined
      (`null`, `undefined`, `false`, `0` and `""` are falsy). */
  predicate Truthy(v: Option<Json>) {
    match v
    case None => false
    case Some(JNull) => false
    case Some(JBool(b)) => b
    case Some(JNum(n)) => n != 0.0
    case Some(JStr(s)) => s != ""
    case Some(_) => true
  }

  /** `v || null`. */
  function OrNull(v: Option<Json>): (r: Json)
    ensures Truthy(v) ==> v == Some(r)
    ensures !Truthy(v) ==> r == JNull
  {
    if Truthy(v) then v.value else JNull
  }

  /** `v` is `null` or `undefined`: what a nullable type check lets through. */
  predicate IsNullish(v: Option<Json>) {
    v.None? || v.value.JNull?
  }

  /** What a JavaScript loop `for (i = 0; i < json.length; ++i)` over `json[i]`
      visits: the items of an array, the characters of a string (each a
      one-character string) and nothing for a value without a `length`; `None`
      when reading `json.length` throws, on null or undefined. */
  function LoopElements(v: Option<Json>): (r: Option<seq<Json>>)
    ensures r.None? <==> IsNullish(v)
    ensures v.Some? && v.value.JArr? ==> r == Some(v.value.items)
    ensures v.Some? && v.value.JStr? ==>
              && r.Some? && |r.value| == |v.value.s|
              && forall i :: 0 <= i < |r.value| ==> r.value[i] == JStr([v.value.s[i]])
    ensures v.Some? && !v.value.JArr? && !v.value.JStr? && !v.value.JNull? ==> r == Some([])
  {
    match v
    case None => None
    case Some(JNull) => None
    case Some(JArr(items)) => Some(items)
    case Some(JStr(s)) => Some(seq(|s|, i requires 0 <= i < |s| => JStr([s[i]])))
    case Some(_) => Some([])
  }

  function TypeError<T>(what: string): Result<T> {
    Failure(what + " has the wrong type")
  }

  /** `doTypeCheck(v, "number", what)`. */
  function AsNumber(v: Option<Json>, what: string): (r: Result<real>)
    ensures r.Success? <==> v.Some? && v.value.JNum?
    ensures r.Success? ==> v == Some(JNum(r.value))
  {
    if v.Some? && v.value.JNum? then Success(v.value.n) else TypeError(what)
  }

  /** `doTypeCheck(v, "string", what)`. */
  function AsString(v: Option<Json>, what: string): (r: Result<string>)
    ensures r.Success? <==> v.Some? && v.value.JStr?
    ensures r.Success? ==> v == Some(JStr(r.value))
  {
    if v.Some? && v.value.JStr? then Success(v.value.s) else TypeError(what)
  }

  /** `doTypeCheck(v, "boolean", what)`. */
  function AsBool(v: Option<Json>, what: string): (r: Result<bool>)
    ensures r.Success? <==> v.Some? && v.value.JBool?
    ensures r.Success? ==> v == Some(JBool(r.value))
  {
    if v.Some? && v.value.JBool? then Success(v.value.b) else TypeError(what)
  }

  /** `doNullableTypeCheck(v, "number", what)`: null and undefined give `None`. */
  function AsNullableNumber(v: Option<Json>, what: string): (r: Result<Option<real>>)
    ensures r.Success? <==> IsNullish(v) || v.value.JNum?
    ensures r == Success(None) <==> IsNullish(v)
    ensures r.Success? && r.value.Some? ==> v == Some(JNum(r.value.value))
  {
    if IsNullish(v) then Success(None)
    else if v.value.JNum? then Success(Some(v.value.n))
    else TypeError(what)
  }

  /** `doNullableTypeCheck(v, "string", what)`. */
  function AsNullableString(v: Option<Json>, what: string): (r: Result<Option<string>>)
    ensures r.Success? <==> IsNullish(v) || v.value.JStr?
    ensures r == Success(None) <==> IsNullish(v)
    ensures r.Success? && r.value.Some? ==> v == Some(JStr(r.value.value))
  {
    if IsNullish(v) then Success(None)
    else if v.value.JStr? then Success(Some(v.value.s))
    else TypeError(what)
  }

  /** `doNullableTypeCheck(v, "boolean", what)`. */
  function AsNullableBool(v: Option<Json>, what: string): (r: Result<Option<bool>>)
    ensures r.Success? <==> IsNullish(v) || v.value.JBool?
    ensures r == Success(None) <==> IsNullish(v)
    ensures r.Success? && r.value.Some? ==> v == Some(JBool(r.value.value))
  {
    if IsNullish(v) then Success(None)
    else if v.value.JBool? then Success(Some(v.value.b))
    else TypeError(what)
  }

  /** An array whose elements are all numbers. */
  predicate IsNumberArray(j: Json) {
    j.JArr? && forall i :: 0 <= i < |j.items| ==> j.items[i].JNum?
  }

  function NumberArrayJson(s: seq<real>): (r: Json)
    ensures IsNumberArray(r) && |r.items| == |s|
    ensures forall i :: 0 <= i < |s| ==> r.items[i] == JNum(s[i])
  {
    JArr(seq(|s|, i requires 0 <= i < |s| => JNum(s[i])))
  }

  /** `doNullableArrayTypeCheck(v, "number", what)`: null and undefined give `None`. */
  function AsNullableNumberArray(v: Option<Json>, what: string): (r: Result<Option<seq<real>>>)
    ensures r.Success? <==> IsNullish(v) || IsNumberArray(v.value)
    ensures r == Success(None) <==> IsNullish(v)
    ensures r.Success? && r.value.Some? ==> v == Some(NumberArrayJson(r.value.value))
  {
    if IsNullish(v) then Success(None)
    else if IsNumberArray(v.value) then
      var items := v.value.items;
      var s := seq(|items|, i requires 0 <= i < |items| => items[i].n);
      assert NumberArrayJson(s).items == items;
      Success(Some(s))
    else TypeError(what)
  }

  /** An object whose members are all numbers, such as a reaction-count record. */
  predicate IsNumberObject(j: Json) {
    j.JObj? && forall k :: k in j.fields ==> j.fields[k].JNum?
  }

  function NumberMapJson(m: map<string, real>): (r: Json)
    ensures IsNumberObject(r) && r.fields.Keys == m.Keys
    ensures forall k :: k in m ==> r.fields[k] == JNum(m[k])
  {
    JObj(map k | k in m :: JNum(m[k]))
  }

  /** `doTypeCheck(v, "object", what)` on a `{String: Number}` record. */
  function AsNumberMap(v: Option<Json>, what: string): (r: Result<map<string, real>>)
    ensures r.Success? <==> v.Some? && IsNumberObject(v.value)
    ensures r.Success? ==> v == Some(NumberMapJson(r.value))
  {
    if v.Some? && IsNumberObject(v.value) then
      var fields := v.value.fields;
      var m := map k | k in fields :: fields[k].n;
      assert NumberMapJson(m).fields == fields;
      Success(m)
    else TypeError(what)
  }

  lemma NumberArrayRoundTrip(s: seq<real>, what: string)
    ensures AsNullableNumberArray(Some(NumberArrayJson(s)), what) == Success(Some(s))
  {
    var r := AsNullableNumberArray(Some(NumberArrayJson(s)), what);
    assert r.Success? && r.value.Some?;
    assert NumberArrayJson(r.value.value) == NumberArrayJson(s);
    assert |r.value.value| == |s|;
    assert forall i :: 0 <= i < |s| ==> r.value.value[i] == s[i] by {
      forall i | 0 <= i < |s| ensures r.value.value[i] == s[i] {
        assert NumberArrayJson(r.value.value).items[i] == JNum(r.value.value[i]);
      }
    }
    assert r.value.value == s;
  }

  lemma NumberMapRoundTrip(m: map<string, real>, what: string)
    ensures AsNumberMap(Some(NumberMapJson(m)), what) == Success(m)
  {
    var r := AsNumberMap(Some(NumberMapJson(m)), what);
    assert r.Success?;
    assert NumberMapJson(r.value) == NumberMapJson(m);
    assert r.value.Keys == m.Keys;
    assert forall k :: k in m ==> r.value[k] == m[k] by {
      forall k | k in m ensures r.value[k] == m[k] {
        assert NumberMapJson(r.value).fields[k] == JNum(r.value[k]);
      }
    }
    assert r.value == m;
  }

  /** The array a `for` loop builds by pushing `encode(xs[i])` for each element. */
  function EncodeAll<T>(xs: seq<T>, encode: T -> Json): (r: seq<Json>)
    ensures |r| == |xs|
    ensures forall i :: 0 <= i < |xs| ==> r[i] == encode(xs[i])
  {
    seq(|xs|, i requires 0 <= i < |xs| => encode(xs[i]))
  }

  /** A `for` loop that pushes `decode(items[i], i)` for each element and lets the
      first error escape: it succeeds iff every element decodes, and otherwise
      reports the error of the first element that does not. */
  function DecodeAll<T>(items: seq<Json>, decode: (Json, nat) -> Result<T>): (r: Result<seq<T>>)
    ensures r.Success? <==> forall i :: 0 <= i < |items| ==> decode(items[i], i).Success?
    ensures r.Success? ==> |r.value| == |items|
    ensures r.Success? ==> forall i :: 0 <= i < |items| ==> decode(items[i], i) == Success(r.value[i])
    ensures r.Failure? ==> exists k :: 0 <= k < |items| && decode(items[k], k) == Failure(r.error)
                                        && forall i :: 0 <= i < k ==> decode(items[i], i).Success?
    decreases |items|
  {
    if items == [] then Success([])
    else
      var n := |items| - 1;
      assert forall i :: 0 <= i < n ==> items[..n][i] == items[i];
      match DecodeAll(items[..n], decode)
      case Failure(e) => Failure(e)
      case Success(prefix) =>
        match decode(items[n], n)
        case Failure(e) => Failure(e)
        case Success(x) => Success(prefix + [x])
  }

  /** Decoding one more element: its error, or the prefix's values with it appended. */
  lemma DecodeAllStep<T>(items: seq<Json>, decode: (Json, nat) -> Result<T>, n: nat)
    requires n < |items|
    requires DecodeAll(items[..n], decode).Success?
    ensures decode(items[n], n).Failure? ==> DecodeAll(items[..n + 1], decode) == Failure(decode(items[n], n).error)
    ensures decode(items[n], n).Success? ==>
              DecodeAll(items[..n + 1], decode) == Success(DecodeAll(items[..n], decode).value + [decode(items[n], n).value])
  {
    assert items[..n + 1][..n] == items[..n];
  }

  /** Once a prefix fails to decode, decoding the whole list fails the same way:
      both stop at the same first failing element. */
  lemma DecodeAllFailureSticks<T>(items: seq<Json>, decode: (Json, nat) -> Result<T>, k: nat)
    requires k <= |items|
    requires DecodeAll(items[..k], decode).Failure?
    ensures DecodeAll(items, decode) == DecodeAll(items[..k], decode)
  {
    var prefix := DecodeAll(items[..k], decode);
    var i :| && 0 <= i < k && decode(items[..k][i], i) == Failure(prefix.error)
             && forall m :: 0 <= m < i ==> decode(items[..k][m], m).Success?;
    assert decode(items[i], i).Failure?;
    forall m | 0 <= m < i
      ensures decode(items[m], m).Success?
    {
      assert items[..k][m] == items[m];
    }
    var whole := DecodeAll(items, decode);
    var i' :| && 0 <= i' < |items| && decode(items[i'], i') == Failure(whole.error)
              && forall m :: 0 <= m < i' ==> decode(items[m], m).Success?;
    assert i' == i;
  }

  /** Decoding what `EncodeAll` wrote gives the elements back when each one does. */
  lemma DecodeEncodeAll<T>(xs: seq<T>, encode: T -> Json, decode: (Json, nat) -> Result<T>)
    requires forall i :: 0 <= i < |xs| ==> decode(encode(xs[i]), i) == Success(xs[i])
    ensures DecodeAll(EncodeAll(xs, encode), decode) == Success(xs)
  {
    var items := EncodeAll(xs, encode);
    assert forall i :: 0 <= i < |items| ==> decode(items[i], i) == Success(xs[i]);
    var r := DecodeAll(items, decode);
    assert r.Success?;
    assert r.value == xs;
  }
}
