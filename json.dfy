/**
 * The JavaScript values the client puts into request parameters and reads out of
 * responses, with the few pieces of JavaScript semantics the client relies on:
 * property reads, truthiness, `String(x)` and the way `JSON.stringify` treats
 * `undefined`.
 */
module Json {
  import opened Results

  /**
   * A JavaScript value. Numbers are integers here (the client only formats counts,
   * ports, indices and epochs); objects are string-keyed maps whose key order is not
   * modelled.
   */
  datatype Value =
    | Undefined
    | Null
    | Bool(b: bool)
    | Num(n: int)
    | Str(s: string)
    | List(items: seq<Value>)
    | Obj(fields: map<string, Value>)

  /** A plain JavaScript object: a request's parameters or a parsed response body. */
  type Object = map<string, Value>

  /** Reading property `k` of `o`: a missing property reads as `undefined`. */
  function Get(o: Object, k: string): (v: Value)
    ensures k !in o ==> v == Undefined
    ensures k in o ==> v == o[k]
  {
    if k in o then o[k] else Undefined
  }

  /** JavaScript truthiness, as used by `if (x)`. */
  predicate Truthy(v: Value) {
    match v
    case Undefined => false
    case Null => false
    case Bool(b) => b
    case Num(n) => n != 0
    case Str(s) => s != ""
    case List(_) => true
    case Obj(_) => true
  }

  // ---------------------------------------------------------------------------
  // Decimal formatting: String(n) for an integer n, and its inverse
  // ---------------------------------------------------------------------------

  predicate IsDigit(c: char) {
    '0' <= c <= '9'
  }

  predicate AllDigits(s: string) {
    forall i :: 0 <= i < |s| ==> IsDigit(s[i])
  }

  function DigitChar(d: nat): (c: char)
    requires d < 10
    ensures IsDigit(c) && c as int - '0' as int == d
  {
    (('0' as int) + d) as char
  }

  /** The base-10 digits of `n`, most significant first, without leading zeros. */
  function NatToDecimal(n: nat): (s: string)
    ensures |s| >= 1 && AllDigits(s)
    ensures s[0] == '0' ==> n == 0 && s == "0"
    decreases n
  {
    if n < 10 then [DigitChar(n)] else NatToDecimal(n / 10) + [DigitChar(n % 10)]
  }

  /** `String(n)` for an integer-valued JavaScript number `n`. */
  function IntToDecimal(n: int): (s: string)
    ensures |s| >= 1
    ensures n >= 0 <==> IsDigit(s[0])
    ensures n < 0 <==> s[0] == '-'
  {
    if n < 0 then "-" + NatToDecimal(-n) else NatToDecimal(n)
  }

  /** The number a string of decimal digits denotes. */
  function DigitsValue(s: string): nat
    requires AllDigits(s)
    decreases |s|
  {
    if s == [] then 0
    else DigitsValue(s[..|s| - 1]) * 10 + (s[|s| - 1] as int - '0' as int)
  }

  /** Reads an optionally negative base-10 integer; `None` for anything else. */
  function ParseDecimal(s: string): (r: Option<int>)
    ensures r.Some? ==> |s| >= 1 && (IsDigit(s[0]) || s[0] == '-')
  {
    if |s| >= 2 && s[0] == '-' && AllDigits(s[1..]) then Some(0 - DigitsValue(s[1..]) as int)
    else if |s| >= 1 && AllDigits(s) then Some(DigitsValue(s))
    else None
  }

  lemma {:induction false} NatToDecimalValue(n: nat)
    ensures DigitsValue(NatToDecimal(n)) == n
    decreases n
  {
    var s := NatToDecimal(n);
    if n >= 10 {
      NatToDecimalValue(n / 10);
      assert s[..|s| - 1] == NatToDecimal(n / 10);
    }
  }

  /** Reading back what `String(n)` wrote gives `n` again. */
  lemma DecimalRoundTrip(n: int)
    ensures ParseDecimal(IntToDecimal(n)) == Some(n)
  {
    var s := IntToDecimal(n);
    if n < 0 {
      NatToDecimalValue(-n);
      assert s[1..] == NatToDecimal(-n);
    } else {
      NatToDecimalValue(n);
    }
  }

  /** Distinct numbers are written as distinct strings. */
  lemma DecimalInjective(a: int, b: int)
    requires IntToDecimal(a) == IntToDecimal(b)
    ensures a == b
  {
    DecimalRoundTrip(a);
    DecimalRoundTrip(b);
  }

  // ---------------------------------------------------------------------------
  // String(v) for an arbitrary value, as a template literal `${v}` produces it
  // ---------------------------------------------------------------------------

  /** `parts.join(sep)`. */
  function Join(parts: seq<string>, sep: string): string
    decreases |parts|
  {
    if parts == [] then ""
    else if |parts| == 1 then parts[0]
    else Join(parts[..|parts| - 1], sep) + sep + parts[|parts| - 1]
  }

  /** `String(v)`: arrays join their elements with commas, printing null and undefined as
      empty; every plain object prints as "[object Object]". */
  function ToJsString(v: Value): (s: string)
    ensures v.Str? ==> s == v.s
    ensures v.Num? ==> ParseDecimal(s) == Some(v.n)
    decreases v
  {
    match v
    case Undefined => "undefined"
    case Null => "null"
    case Bool(b) => if b then "true" else "false"
    case Num(n) => DecimalRoundTrip(n); IntToDecimal(n)
    case Str(s) => s
    case List(items) =>
      Join(seq(|items|, i requires 0 <= i < |items| =>
             if items[i].Undefined? || items[i].Null? then "" else ToJsString(items[i])), ",")
    case Obj(_) => "[object Object]"
  }

  // ---------------------------------------------------------------------------
  // JSON.stringify and undefined
  // ---------------------------------------------------------------------------

  /** A value with no `undefined` anywhere inside it: exactly what JSON can carry. */
  predicate Defined(v: Value)
    decreases v
  {
    match v
    case Undefined => false
    case List(items) => forall i :: 0 <= i < |items| ==> Defined(items[i])
    case Obj(fields) => forall k :: k in fields ==> Defined(fields[k])
    case _ => true
  }

  /** What `JSON.stringify` makes of a value nested in the body: an `undefined` array
      element is written as null, a property whose value is `undefined` is omitted. */
  function Stringified(v: Value): (r: Value)
    ensures Defined(r)
    decreases v
  {
    match v
    case Undefined => Null
    case List(items) =>
      List(seq(|items|, i requires 0 <= i < |items| => Stringified(items[i])))
    case Obj(fields) =>
      Obj(map k | k in fields && fields[k] != Undefined :: Stringified(fields[k]))
    case _ => v
  }

  /** A value JSON can already carry is written unchanged. */
  lemma {:induction false} StringifiedKeepsDefined(v: Value)
    requires Defined(v)
    ensures Stringified(v) == v
    decreases v
  {
    match v
    case List(items) =>
      forall i | 0 <= i < |items| {
        StringifiedKeepsDefined(items[i]);
      }
      assert Stringified(v).items == items;
    case Obj(fields) =>
      forall k | k in fields {
        StringifiedKeepsDefined(fields[k]);
      }
      assert Stringified(v).fields == fields;
    case _ =>
  }

  /** The request body `JSON.stringify(payload)` sends, as the object it denotes:
      keys holding `undefined` are absent, every other key keeps its value. */
  function Serialize(o: Object): (r: Object)
    ensures r.Keys == set k | k in o && o[k] != Undefined
    ensures forall k :: k in r ==> Defined(r[k])
    ensures forall k :: k in r && Defined(o[k]) ==> r[k] == o[k]
  {
    assert forall k | k in o && Defined(o[k]) :: Stringified(o[k]) == o[k] by {
      forall k | k in o && Defined(o[k]) {
        StringifiedKeepsDefined(o[k]);
      }
    }
    map k | k in o && o[k] != Undefined :: Stringified(o[k])
  }

  /** Serialising an object that already holds no `undefined` changes nothing, so
      serialising twice is serialising once. */
  lemma SerializeIdempotent(o: Object)
    ensures (forall k :: k in o ==> Defined(o[k])) ==> Serialize(o) == o
    ensures Serialize(Serialize(o)) == Serialize(o)
  {
    var s := Serialize(o);
    assert Serialize(s) == s;
    if forall k :: k in o ==> Defined(o[k]) {
      assert s.Keys == o.Keys;
    }
  }
}
