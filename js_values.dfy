/** The JavaScript values the browser scripts handle (JSON data from the API,
    form values, URL parameters), with the conversions the scripts rely on:
    truthiness and `||`, property lookup, template-literal string conversion,
    `Number(...)`-style conversion used by `<`/`>=`, and `parseInt`. Numbers
    are integers here; `NaN` is a value of its own. */
module JsValues {
  import opened JsText

  datatype JsValue =
    | Undefined
    | Null
    | Bool(b: bool)
    | Num(n: int)
    | NaN
    | Str(s: string)
    | Arr(items: seq<JsValue>)
    | Obj(fields: seq<(string, JsValue)>)

  /** JavaScript truthiness: `undefined`, `null`, `false`, `0`, `NaN` and
      `''` are falsy, every array and object is truthy. */
  predicate Truthy(v: JsValue) {
    match v
    case Undefined => false
    case Null => false
    case Bool(b) => b
    case Num(n) => n != 0
    case NaN => false
    case Str(s) => s != ""
    case Arr(_) => true
    case Obj(_) => true
  }

  /** `a || b` */
  function Or(a: JsValue, b: JsValue): (r: JsValue)
    ensures Truthy(r) <==> Truthy(a) || Truthy(b)
    ensures r == a || r == b
    ensures Truthy(a) ==> r == a
  {
    if Truthy(a) then a else b
  }

  /** Property lookup `o[key]` on a plain object: the first field with that
      name, `undefined` when there is none or `o` is not an object. */
  function Get(o: JsValue, key: string): (r: JsValue)
    ensures !o.Obj? ==> r == Undefined
  {
    if o.Obj? then Lookup(o.fields, key) else Undefined
  }

  function Lookup(fields: seq<(string, JsValue)>, key: string): JsValue
  {
    if fields == [] then Undefined
    else if fields[0].0 == key then fields[0].1
    else Lookup(fields[1..], key)
  }

  /** A defined value read from an object is the value of one of its
      fields with that name; a name no field has reads as `undefined`. */
  lemma {:induction false} LookupFound(fields: seq<(string, JsValue)>, key: string)
    ensures Lookup(fields, key) != Undefined ==>
      exists k :: 0 <= k < |fields| && fields[k] == (key, Lookup(fields, key))
    ensures (forall k :: 0 <= k < |fields| ==> fields[k].0 != key) ==> Lookup(fields, key) == Undefined
  {
    if fields != [] && fields[0].0 != key {
      LookupFound(fields[1..], key);
      if Lookup(fields, key) != Undefined {
        var k :| 0 <= k < |fields[1..]| && fields[1..][k] == (key, Lookup(fields, key));
        assert fields[k + 1] == (key, Lookup(fields, key));
      }
    }
  }

  /** The first field named `key` is the one read. */
  lemma {:induction false} LookupAt(fields: seq<(string, JsValue)>, key: string, i: int)
    requires 0 <= i < |fields| && fields[i].0 == key
    requires forall j :: 0 <= j < i ==> fields[j].0 != key
    ensures Lookup(fields, key) == fields[i].1
    decreases i
  {
    if i > 0 {
      LookupAt(fields[1..], key, i - 1);
    }
  }

  /** A defined value read from an object is one of its fields' values,
      so it is smaller than the object. */
  lemma GetSmaller(o: JsValue, key: string)
    requires o.Obj? && Get(o, key) != Undefined
    ensures Get(o, key) < o
  {
    LookupFound(o.fields, key);
    var k :| 0 <= k < |o.fields| && o.fields[k] == (key, Get(o, key));
    assert o.fields[k].1 < o.fields[k];
  }

  /** `o.k1 || o.k2 || ... || o.kn`: the first truthy field among `keys`,
      or the last one read when none is truthy. */
  function FirstOf(o: JsValue, keys: seq<string>): (r: JsValue)
    requires |keys| > 0
    ensures Truthy(r) <==> exists k :: 0 <= k < |keys| && Truthy(Get(o, keys[k]))
    decreases |keys|
  {
    if |keys| == 1 then Get(o, keys[0]) else Or(Get(o, keys[0]), FirstOf(o, keys[1..]))
  }

  /** The value `FirstOf` picks is the first truthy one, read from a field
      of `o`. */
  lemma {:induction false} FirstOfIsFirst(o: JsValue, keys: seq<string>, i: int)
    requires 0 <= i < |keys| && Truthy(Get(o, keys[i]))
    requires forall j :: 0 <= j < i ==> !Truthy(Get(o, keys[j]))
    ensures FirstOf(o, keys) == Get(o, keys[i])
    decreases i
  {
    if i > 0 {
      FirstOfIsFirst(o, keys[1..], i - 1);
    }
  }

  /** A defined pick comes from one of the object's fields. */
  lemma {:induction false} FirstOfSmaller(o: JsValue, keys: seq<string>)
    requires o.Obj? && |keys| > 0
    ensures FirstOf(o, keys) == Undefined || FirstOf(o, keys) < o
    decreases |keys|
  {
    if |keys| == 1 || Truthy(Get(o, keys[0])) {
      if Get(o, keys[0]) != Undefined {
        GetSmaller(o, keys[0]);
      }
    } else {
      FirstOfSmaller(o, keys[1..]);
    }
  }

  /** The string a template literal `${v}` produces. */
  function ToStr(v: JsValue): string
  {
    match v
    case Undefined => "undefined"
    case Null => "null"
    case Bool(b) => if b then "true" else "false"
    case Num(n) => IntToString(n)
    case NaN => "NaN"
    case Str(s) => s
    case Arr(items) => Join(items)
    case Obj(_) => "[object Object]"
  }

  /** The message of the TypeError thrown when a property is read off a
      `null` or `undefined` value. */
  function Unreadable(v: JsValue, property: string): (m: string)
    ensures |m| > |property|
  {
    "Cannot read properties of " + ToStr(v) + " (reading '" + property + "')"
  }

  /** No entry is `null` or `undefined`, so a property can be read off each. */
  predicate NoNullish(items: seq<JsValue>) {
    forall k :: 0 <= k < |items| ==> !items[k].Null? && !items[k].Undefined?
  }

  /** The position of the first `null` or `undefined` entry, `|items|` when
      there is none: where a `map` that reads a property of each entry
      throws. */
  function FirstNullish(items: seq<JsValue>): (k: nat)
    ensures k <= |items|
    ensures NoNullish(items[..k])
    ensures k < |items| ==> items[k].Null? || items[k].Undefined?
    ensures k == |items| <==> NoNullish(items)
  {
    if items == [] then 0
    else if items[0].Null? || items[0].Undefined? then 0
    else
      var k := 1 + FirstNullish(items[1..]);
      assert forall j :: 1 <= j < k ==> items[..k][j] == items[1..][..k - 1][j - 1];
      k
  }

  /** `Array.prototype.join(',')`, where `null` and `undefined` print as ''. */
  function Join(items: seq<JsValue>): string
    decreases items
  {
    if items == [] then ""
    else
      var head := if items[0].Undefined? || items[0].Null? then "" else ToStr(items[0]);
      if |items| == 1 then head else head + "," + Join(items[1..])
  }

  function DigitValue(c: char): (d: nat)
    requires IsDigit(c)
    ensures d < 10
  {
    c as int - '0' as int
  }

  /** Value of a string of decimal digits, most significant first. */
  function DigitsValue(s: string): (n: nat)
    requires forall k :: 0 <= k < |s| ==> IsDigit(s[k])
  {
    if s == [] then 0 else 10 * DigitsValue(s[..|s| - 1]) + DigitValue(s[|s| - 1])
  }

  /** The longest prefix made of decimal digits. */
  function LeadingDigits(s: string): (r: string)
    ensures |r| <= |s| && r == s[..|r|]
    ensures forall k :: 0 <= k < |r| ==> IsDigit(s[k])
    ensures |r| < |s| ==> !IsDigit(s[|r|])
  {
    if |s| > 0 && IsDigit(s[0]) then [s[0]] + LeadingDigits(s[1..]) else []
  }

  predicate IsHexDigit(c: char) {
    IsDigit(c) || 'a' <= c <= 'f' || 'A' <= c <= 'F'
  }

  function HexDigitValue(c: char): (d: nat)
    requires IsHexDigit(c)
    ensures d < 16
  {
    if IsDigit(c) then DigitValue(c)
    else if 'a' <= c <= 'f' then c as int - 'a' as int + 10
    else c as int - 'A' as int + 10
  }

  /** Value of a string of hexadecimal digits, most significant first. */
  function HexValue(s: string): (n: nat)
    requires forall k :: 0 <= k < |s| ==> IsHexDigit(s[k])
  {
    if s == [] then 0 else 16 * HexValue(s[..|s| - 1]) + HexDigitValue(s[|s| - 1])
  }

  /** The longest prefix made of hexadecimal digits. */
  function LeadingHexDigits(s: string): (r: string)
    ensures |r| <= |s| && r == s[..|r|]
    ensures forall k :: 0 <= k < |r| ==> IsHexDigit(s[k])
    ensures |r| < |s| ==> !IsHexDigit(s[|r|])
  {
    if |s| > 0 && IsHexDigit(s[0]) then [s[0]] + LeadingHexDigits(s[1..]) else []
  }

  /** "0x" or "0X": with no radix given, `parseInt` reads what follows in
      base 16, and `Number` does too when nothing precedes it. */
  predicate HexPrefixed(s: string) {
    |s| >= 2 && s[0] == '0' && (s[1] == 'x' || s[1] == 'X')
  }

  /** `parseInt(text)`: leading white space, an optional sign, then the
      leading hexadecimal digits after "0x" or "0X", or else the leading
      decimal digits; `NaN` when there are none. */
  function ParseIntText(text: string): (r: JsValue)
    ensures r.Num? || r.NaN?
  {
    var t := TrimStart(text);
    var neg := |t| > 0 && t[0] == '-';
    var body := if |t| > 0 && (t[0] == '-' || t[0] == '+') then t[1..] else t;
    if HexPrefixed(body) then ParseHexBody(body[2..], neg) else ParseDecimalBody(body, neg)
  }

  /** The decimal part of `parseInt`, after the sign. */
  function ParseDecimalBody(body: string, neg: bool): (r: JsValue)
    ensures r.Num? || r.NaN?
    ensures r.NaN? <==> LeadingDigits(body) == []
  {
    var digits := LeadingDigits(body);
    if digits == [] then NaN
    else if neg then Num(-(DigitsValue(digits) as int))
    else Num(DigitsValue(digits))
  }

  /** The hexadecimal part of `parseInt`, after the "0x". */
  function ParseHexBody(rest: string, neg: bool): (r: JsValue)
    ensures r.Num? || r.NaN?
    ensures r.NaN? <==> LeadingHexDigits(rest) == []
  {
    var digits := LeadingHexDigits(rest);
    if digits == [] then NaN
    else if neg then Num(-(HexValue(digits) as int))
    else Num(HexValue(digits))
  }

  /** `parseInt(v)` converts its argument to a string first. */
  function ParseInt(v: JsValue): JsValue {
    ParseIntText(ToStr(v))
  }

  /** `Number(v)`, the conversion `<`, `>=` and `-` apply to their operands:
      the empty (or blank) string is 0, a string must be an integer literal
      in full, decimal with an optional sign or hexadecimal after "0x". */
  function ToNumber(v: JsValue): (r: JsValue)
    ensures r.Num? || r.NaN?
  {
    match v
    case Undefined => NaN
    case Null => Num(0)
    case Bool(b) => Num(if b then 1 else 0)
    case Num(n) => Num(n)
    case NaN => NaN
    case Str(s) =>
      var t := Trim(s);
      if t == "" then Num(0)
      else if HexPrefixed(t) then
        var rest := t[2..];
        if rest != [] && LeadingHexDigits(rest) == rest then Num(HexValue(rest)) else NaN
      else
        var body := if t[0] == '-' || t[0] == '+' then t[1..] else t;
        if body != [] && LeadingDigits(body) == body then
          var value: int := DigitsValue(body);
          if t[0] == '-' then Num(-value) else Num(value)
        else NaN
    case Arr(_) => NaN
    case Obj(_) => NaN
  }

  /** `a < b` on values that are compared numerically; any `NaN` makes it false. */
  predicate Less(a: JsValue, b: JsValue) {
    var x := ToNumber(a);
    var y := ToNumber(b);
    x.Num? && y.Num? && x.n < y.n
  }

  /** `a <= b` on values that are compared numerically. */
  predicate LessEq(a: JsValue, b: JsValue) {
    var x := ToNumber(a);
    var y := ToNumber(b);
    x.Num? && y.Num? && x.n <= y.n
  }

  /** The number a value contributes to a sort key: its numeric value, with
      `NaN` ranked as 0. */
  function NumberOr0(v: JsValue): int {
    var x := ToNumber(v);
    if x.Num? then x.n else 0
  }

  lemma {:induction false} DigitsValueOfNatToString(n: nat)
    ensures DigitsValue(NatToString(n)) == n
    decreases n
  {
    if n >= 10 {
      DigitsValueOfNatToString(n / 10);
      var s := NatToString(n);
      assert s[..|s| - 1] == NatToString(n / 10);
    }
  }

  lemma {:induction false} LeadingDigitsOfDigits(s: string)
    requires forall k :: 0 <= k < |s| ==> IsDigit(s[k])
    ensures LeadingDigits(s) == s
    decreases |s|
  {
    if |s| > 0 {
      LeadingDigitsOfDigits(s[1..]);
    }
  }

  /** `parseInt` of a run of digits gives their value. */
  lemma ParseIntTextOfDigits(s: string)
    requires |s| > 0 && forall k :: 0 <= k < |s| ==> IsDigit(s[k])
    ensures ParseIntText(s) == Num(DigitsValue(s))
  {
    LeadingDigitsOfDigits(s);
    assert !IsWhitespace(s[0]);
    assert TrimStart(s) == s;
    assert s[0] != '-' && s[0] != '+';
    DigitsNotHexPrefixed(s);
    assert LeadingDigits(s) == s;
  }

  /** `parseInt` of a minus sign and a run of digits gives their negated value. */
  lemma ParseIntTextOfNegated(s: string)
    requires |s| > 0 && forall k :: 0 <= k < |s| ==> IsDigit(s[k])
    ensures ParseIntText("-" + s) == Num(-(DigitsValue(s) as int))
  {
    var text := "-" + s;
    assert text[0] == '-' && text[1..] == s;
    NegatedTextShape(s);
    LeadingDigitsOfDigits(s);
    DigitsNotHexPrefixed(s);
    ParseIntTextDecimal(text, s);
  }

  lemma NegatedTextShape(s: string)
    ensures TrimStart("-" + s) == "-" + s
  {
    assert ("-" + s)[0] == '-';
  }

  /** `parseInt("0x" + h)` reads `h` in base 16, so `parseInt("0x10")` is 16. */
  lemma ParseIntTextOfHex(h: string)
    requires |h| > 0 && forall k :: 0 <= k < |h| ==> IsHexDigit(h[k])
    ensures ParseIntText("0x" + h) == Num(HexValue(h))
  {
    var text := "0x" + h;
    assert text[0] == '0' && text[1] == 'x' && text[2..] == h;
    HexTextShape(h);
    ParseIntTextHexPrefixed(text);
    LeadingHexDigitsOfHex(h);
  }

  lemma HexTextShape(h: string)
    ensures TrimStart("0x" + h) == "0x" + h
  {
    assert ("0x" + h)[0] == '0';
  }

  /** An unsigned hex-prefixed text with nothing to trim is read in base 16. */
  lemma ParseIntTextHexPrefixed(text: string)
    requires TrimStart(text) == text && HexPrefixed(text)
    ensures ParseIntText(text) == ParseHexBody(text[2..], false)
  {
  }

  lemma {:induction false} LeadingHexDigitsOfHex(h: string)
    requires forall k :: 0 <= k < |h| ==> IsHexDigit(h[k])
    ensures LeadingHexDigits(h) == h
  {
    if h != [] {
      LeadingHexDigitsOfHex(h[1..]);
    }
  }

  /** A run of decimal digits never starts with "0x". */
  lemma DigitsNotHexPrefixed(s: string)
    requires forall k :: 0 <= k < |s| ==> IsDigit(s[k])
    ensures !HexPrefixed(s)
  {
    if |s| >= 2 {
      assert IsDigit(s[1]);
    }
  }

  /** `parseInt` of a text with nothing to trim, whose body after the sign
      is all decimal digits and not hex-prefixed. */
  lemma ParseIntTextDecimal(text: string, body: string)
    requires TrimStart(text) == text && |text| > 0
    requires body == if text[0] == '-' || text[0] == '+' then text[1..] else text
    requires body != [] && !HexPrefixed(body) && LeadingDigits(body) == body
    ensures ParseIntText(text) == if text[0] == '-' then Num(-(DigitsValue(body) as int)) else Num(DigitsValue(body))
  {
  }

  /** `parseInt(String(n))` gives back `n`. */
  lemma ParseIntRoundTrip(n: int)
    ensures ParseInt(Num(n)) == Num(n)
  {
    var m: nat := if n < 0 then -n else n;
    DigitsValueOfNatToString(m);
    if n < 0 {
      ParseIntTextOfNegated(NatToString(m));
    } else {
      ParseIntTextOfDigits(NatToString(m));
    }
  }
}
