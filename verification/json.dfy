/** The JSON values the client receives from the server, together with the two
    JavaScript semantics the source applies to them: truthiness (`x || y`,
    `if (x)`) and the string coercion performed by `new Error(x)`. */
module Json {
  import Decimal

  datatype Option<+T> = None | Some(value: T)

  /** A parsed JSON value; numbers are restricted to integers. */
  datatype Json =
    | JNull
    | JBool(b: bool)
    | JNum(n: int)
    | JStr(s: string)
    | JArr(items: seq<Json>)
    | JObj(fields: map<string, Json>)

  /** JavaScript truthiness; `None` stands for `undefined`. */
  predicate Truthy(v: Option<Json>) {
    match v
    case None => false
    case Some(JNull) => false
    case Some(JBool(b)) => b
    case Some(JNum(n)) => n != 0
    case Some(JStr(s)) => s != ""
    case Some(JArr(_)) => true
    case Some(JObj(_)) => true
  }

  /** Truthiness is the complement of JavaScript's short list of falsy
      values, as far as JSON can express them: `undefined`, `null`, `false`,
      `0` and the empty string. Arrays and objects are truthy even when
      empty. */
  lemma FalsyValues(v: Option<Json>)
    ensures !Truthy(v) <==> v in {None, Some(JNull), Some(JBool(false)), Some(JNum(0)), Some(JStr(""))}
    ensures Truthy(Some(JArr([]))) && Truthy(Some(JObj(map[])))
  {
  }

  /** Property access `v.key` on a non-null value: only objects carry named
      properties of their own; on arrays, strings, numbers and booleans a
      JSON key such as `detail` reads as `undefined`. */
  function Property(v: Json, key: string): (r: Option<Json>)
    requires !v.JNull?
    ensures r.Some? <==> v.JObj? && key in v.fields
    ensures r.Some? ==> r.value == v.fields[key]
  {
    match v
    case JObj(fields) => if key in fields then Some(fields[key]) else None
    case _ => None
  }

  function ShowInt(n: int): string {
    if n < 0 then "-" + Decimal.Show(-n) else Decimal.Show(n)
  }

  /** The summed length of the parts. */
  function TotalLength(parts: seq<string>): nat {
    if |parts| == 0 then 0 else |parts[0]| + TotalLength(parts[1..])
  }

  /** `sep`-separated concatenation, as `Array.prototype.join`: the first
      part comes first, and the text is the parts plus one separator
      between each neighbouring pair. */
  function Join(parts: seq<string>, sep: string): (r: string)
    ensures |parts| == 0 ==> r == ""
    ensures |parts| == 1 ==> r == parts[0]
    ensures |parts| >= 1 ==> parts[0] <= r
    ensures |parts| >= 1 ==> |r| == TotalLength(parts) + (|parts| - 1) * |sep|
  {
    if |parts| == 0 then ""
    else if |parts| == 1 then parts[0]
    else parts[0] + sep + Join(parts[1..], sep)
  }

  /** Whether `String(v)` returns at all. A parsed object has no methods of
      its own, so it prints through the inherited `toString`; but a JSON key
      `toString` becomes an own property that shadows it, and since that
      property is data and not a function, the conversion falls through to
      `valueOf`, gets the object back, and throws a `TypeError`. Arrays
      convert element by element, so one such object anywhere inside makes
      the whole array throw. */
  predicate Coercible(v: Json)
    decreases v
  {
    match v
    case JObj(fields) => "toString" !in fields
    case JArr(items) => forall i :: 0 <= i < |items| ==> Coercible(items[i])
    case _ => true
  }

  /** The element texts of an array under `Array.prototype.join`: `null`
      elements print as the empty string. */
  function ElementTexts(items: seq<Json>): (parts: seq<string>)
    requires forall i :: 0 <= i < |items| ==> Coercible(items[i])
    ensures |parts| == |items|
  {
    seq(|items|, i requires 0 <= i < |items| =>
          if items[i].JNull? then "" else ToJsString(items[i]))
  }

  /** `String(v)`: what `new Error(v)` stores as its message. Arrays join
      their elements with commas, printing `null` elements as the empty
      string; an object without its own `toString` key prints as
      `[object Object]`. Defined where the conversion returns. */
  function ToJsString(v: Json): (r: string)
    requires Coercible(v)
    decreases v
    ensures v.JNull? ==> r == "null"
    ensures v.JBool? ==> r == (if v.b then "true" else "false")
    ensures v.JStr? ==> r == v.s
    ensures v.JObj? ==> r == "[object Object]"
    ensures v.JArr? && |v.items| == 0 ==> r == ""
    ensures v.JArr? && |v.items| == 1 && v.items[0].JNull? ==> r == ""
  {
    match v
    case JNull => "null"
    case JBool(b) => if b then "true" else "false"
    case JNum(n) => ShowInt(n)
    case JStr(s) => s
    case JArr(items) => Join(ElementTexts(items), ",")
    case JObj(_) => "[object Object]"
  }

  /** Joining `n` empty texts leaves only the `n - 1` separators. */
  lemma {:induction false} JoinEmpties(n: nat)
    requires n >= 1
    ensures Join(seq(n, _ => ""), ",") == seq(n - 1, _ => ',')
  {
    if n > 1 {
      var parts := seq(n, _ => "");
      assert parts[1..] == seq(n - 1, _ => "");
      JoinEmpties(n - 1);
      assert Join(parts, ",") == "" + "," + seq(n - 2, _ => ',');
    }
  }

  /** An array of `null`s coerces to its commas alone: the entries vanish
      from the message. */
  lemma NullArrayCoercion(n: nat)
    requires n >= 1
    ensures ToJsString(JArr(seq(n, _ => JNull))) == seq(n - 1, _ => ',')
  {
    var items := seq(n, _ => JNull);
    assert ElementTexts(items) == seq(n, _ => "");
    JoinEmpties(n);
  }

  /** The largest magnitude below which every integer survives `JSON.parse`
      unrounded (2^53). */
  const SafeLimit: int := 0x20_0000_0000_0000

  /** A safe integer prints as its digits, after a `-` when negative, and
      those digits read back as its magnitude. */
  lemma ToJsStringScalars(n: int)
    requires -SafeLimit < n < SafeLimit
    ensures n >= 0 ==> (forall i :: 0 <= i < |ToJsString(JNum(n))| ==> Decimal.IsDigit(ToJsString(JNum(n))[i]))
    ensures n >= 0 ==> Decimal.Value(ToJsString(JNum(n))) == n
    ensures n < 0 ==> |ToJsString(JNum(n))| >= 2 && ToJsString(JNum(n))[0] == '-'
    ensures n < 0 ==> (forall i :: 1 <= i < |ToJsString(JNum(n))| ==> Decimal.IsDigit(ToJsString(JNum(n))[i]))
    ensures n < 0 ==> Decimal.Value(ToJsString(JNum(n))[1..]) == -n
  {
    if n >= 0 {
      Decimal.ShowValue(n);
    } else {
      var r := ToJsString(JNum(n));
      assert r[1..] == Decimal.Show(-n);
      Decimal.ShowValue(-n);
    }
  }

  /** A validation-error body whose detail is a one-element list of objects
      is coerced to the fixed text `[object Object]`: the server's message
      inside the object never reaches the error. An object carrying its own
      `toString` key makes the conversion throw instead. */
  lemma ObjectListCoercion(fields: map<string, Json>)
    ensures !Coercible(JArr([JObj(fields)])) <==> "toString" in fields
    ensures "toString" !in fields ==> ToJsString(JArr([JObj(fields)])) == "[object Object]"
  {
    var items := [JObj(fields)];
    assert items[0] == JObj(fields);
  }
}
