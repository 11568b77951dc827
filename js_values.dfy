/** The small slice of JavaScript value semantics that the catalog handlers rely on:
    JSON-shaped values, truthiness (for `||` and `if (id)`), strict equality (`===`)
    and the string conversion applied by `+` with a string operand and by template
    literals. */
module JsValues {

  /** Optional configuration values: an environment variable is a string or is absent. */
  datatype Option<+T> = None | Some(value: T)

  /** 2^53: every integer of at most this magnitude is a JavaScript number exactly. */
  const MaxExactInteger: int := 0x20_0000_0000_0000

  /** The integers a JavaScript number holds exactly and prints in plain decimal. */
  type JsInteger = n: int | -MaxExactInteger <= n <= MaxExactInteger

  /** A value as it arrives in a parsed JSON request body or upstream JSON response.
      Numbers are modelled as the integers a JavaScript number holds exactly. */
  datatype Value =
    | Undefined
    | Null
    | Bool(b: bool)
    | Num(n: JsInteger)
    | Str(s: string)
    | Arr(items: seq<Value>)
    | Obj(fields: map<string, Value>)

  /** A plain object; its key set is the object's set of own properties. */
  type Record = map<string, Value>

  /** Property read `o.k`: an absent key reads as `undefined`. */
  function Get(o: Record, k: string): Value
  {
    if k in o then o[k] else Undefined
  }

  /** The value of an environment variable as JavaScript sees it. */
  function EnvValue(v: Option<string>): Value
  {
    match v
    case Some(s) => Str(s)
    case None => Undefined
  }

  /** JavaScript truthiness: `undefined`, `null`, `false`, `0` and `""` are falsy. */
  predicate Truthy(v: Value): (t: bool)
    ensures !t <==> v in {Undefined, Null, Bool(false), Num(0), Str("")}
  {
    match v
    case Undefined => false
    case Null => false
    case Bool(b) => b
    case Num(n) => n != 0
    case Str(s) => s != ""
    case Arr(_) => true
    case Obj(_) => true
  }

  /** `a || b`: the first operand when it is truthy, the second otherwise. */
  function Or(a: Value, b: Value): (r: Value)
    ensures r == a || r == b
    ensures Truthy(a) ==> r == a
    ensures Truthy(r) <==> Truthy(a) || Truthy(b)
  {
    if Truthy(a) then a else b
  }

  predicate IsObject(v: Value)
  {
    v.Arr? || v.Obj?
  }

  /** `a === b`. Every object in this model is a separately parsed JSON value, so
      two object operands are never the same reference; primitives compare by value. */
  predicate StrictEquals(a: Value, b: Value): (r: bool)
    ensures r ==> a == b && !IsObject(a)
    ensures !IsObject(a) ==> (r <==> a == b)
  {
    !IsObject(a) && !IsObject(b) && a == b
  }

  lemma StrictEqualsPrimitive(a: Value, b: Value)
    requires !IsObject(b)
    ensures StrictEquals(a, b) <==> a == b
  {
  }

  // ----- Number to string -----

  function DigitChar(d: nat): (c: char)
    requires d < 10
    ensures '0' <= c <= '9'
  {
    "0123456789"[d]
  }

  function DigitValue(c: char): nat
  {
    if '0' <= c <= '9' then (c - '0') as nat else 0
  }

  predicate AllDigits(s: string)
  {
    forall i :: 0 <= i < |s| ==> '0' <= s[i] <= '9'
  }

  /** Decimal digits of a natural number, most significant first, no leading zeros. */
  function Digits(n: nat): (s: string)
    ensures |s| > 0 && AllDigits(s)
    ensures s[0] == '0' ==> n == 0
  {
    if n < 10 then [DigitChar(n)] else Digits(n / 10) + [DigitChar(n % 10)]
  }

  /** Reads a string of decimal digits back as a number. */
  function ParseDigits(s: string): nat
  {
    if s == [] then 0 else ParseDigits(s[..|s| - 1]) * 10 + DigitValue(s[|s| - 1])
  }

  lemma {:induction false} DigitsRoundTrip(n: nat)
    ensures ParseDigits(Digits(n)) == n
  {
    if n >= 10 {
      var s := Digits(n);
      assert s[..|s| - 1] == Digits(n / 10);
      DigitsRoundTrip(n / 10);
    }
  }

  /** `String(n)` for an integer a JavaScript number holds exactly: an optional minus
      sign followed by the decimal digits of the magnitude. */
  function NumberToString(n: int): (s: string)
    ensures |s| > 0 && (s[0] == '-' <==> n < 0)
    ensures n < 0 ==> |s| > 1 && AllDigits(s[1..])
    ensures n >= 0 ==> AllDigits(s)
  {
    if n < 0 then "-" + Digits(-n) else Digits(n)
  }

  /** The partner of NumberToString: reads an optionally negative decimal numeral. */
  function ParseNumber(s: string): int
  {
    if |s| > 0 && s[0] == '-' then -(ParseDigits(s[1..]) as int) else ParseDigits(s)
  }

  lemma ParseNegative(d: string)
    ensures ParseNumber("-" + d) == -(ParseDigits(d) as int)
  {
    assert ("-" + d)[1..] == d;
  }

  lemma NumberToStringRoundTrip(n: int)
    ensures ParseNumber(NumberToString(n)) == n
  {
    if n < 0 {
      assert NumberToString(n) == "-" + Digits(-n);
      ParseNegative(Digits(-n));
      DigitsRoundTrip(-n);
    } else {
      assert NumberToString(n) == Digits(n);
      assert Digits(n)[0] != '-';
      DigitsRoundTrip(n);
    }
  }

  /** Distinct numbers convert to distinct strings. */
  lemma NumberToStringInjective(m: int, n: int)
    requires NumberToString(m) == NumberToString(n)
    ensures m == n
  {
    NumberToStringRoundTrip(m);
    NumberToStringRoundTrip(n);
  }

  // ----- General string conversion -----

  /** Whether converting v to a string throws a TypeError. JSON cannot hold functions, so
      an object with an own `toString` key has a non-callable `toString`; its inherited
      `valueOf` returns the object itself, and the conversion throws. Arrays convert by
      converting their elements, so such an object at any array depth throws too. */
  predicate ConversionThrows(v: Value)
    decreases v
  {
    match v
    case Obj(fields) => "toString" in fields
    case Arr(items) => exists i :: 0 <= i < |items| && ConversionThrows(items[i])
    case _ => false
  }

  /** `"" + v` / `${v}`: ToString(ToPrimitive(v)), or None when it throws. Arrays join
      their elements with "," (with `null` and `undefined` elements as ""), plain objects
      without an own `toString` give "[object Object]". */
  function ToJsString(v: Value): (r: Option<string>)
    ensures r.None? <==> ConversionThrows(v)
    decreases v, 1
  {
    match v
    case Undefined => Some("undefined")
    case Null => Some("null")
    case Bool(b) => Some(if b then "true" else "false")
    case Num(n) => Some(NumberToString(n))
    case Str(s) => Some(s)
    case Arr(items) => JoinItems(v, |items|)
    case Obj(fields) => if "toString" in fields then None else Some("[object Object]")
  }

  /** The first k elements of array v, converted and joined with ",". */
  function JoinItems(v: Value, k: nat): (r: Option<string>)
    requires v.Arr? && k <= |v.items|
    ensures r.None? <==> exists i :: 0 <= i < k && ConversionThrows(v.items[i])
    decreases v, 0, k
  {
    if k == 0 then Some("")
    else
      var e := v.items[k - 1];
      var es := if e.Undefined? || e.Null? then Some("") else ToJsString(e);
      if es.None? then None
      else if k == 1 then es
      else
        match JoinItems(v, k - 1)
        case None => None
        case Some(front) => Some(front + "," + es.value)
  }

  /** Numbers convert to a numeral with no '?' in it (so they cannot end a URL path early). */
  lemma NumberStringHasNoQuery(n: int)
    ensures '?' !in NumberToString(n)
  {
    var s := NumberToString(n);
    if n < 0 {
      assert forall i :: 1 <= i < |s| ==> s[i] == Digits(-n)[i - 1];
    }
  }
}
