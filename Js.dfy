/**
 * The JavaScript values and built-in operations the task API relies on:
 * JSON values as parsed by the request body parser, truthiness, object spread,
 * `parseInt(s, 10)`, the decimal form of an array index, `String.prototype.replace`
 * with a string pattern, and `Error.prototype.toString`.  Each is stated as
 * ECMA-262 (the ECMAScript language specification) defines it, restricted to the
 * inputs the core can produce.
 */
module Js {
  import opened Wrappers

  /** A JSON value; an object is a map from its own keys to their values (key order is not kept). */
  datatype Json =
    | Null
    | Bool(b: bool)
    | Number(n: real)
    | String(s: string)
    | Array(items: seq<Json>)
    | Object(fields: map<string, Json>)

  /** `typeof v === "object" && v != null`: objects and arrays, not null. */
  predicate IsObject(v: Json) {
    v.Array? || v.Object?
  }

  /** ToBoolean (section 7.1.2 of ECMA-262) on a JSON value; NaN cannot occur in parsed JSON. */
  predicate Truthy(v: Json) {
    match v
    case Null => false
    case Bool(b) => b
    case Number(n) => n != 0.0
    case String(s) => s != ""
    case Array(_) => true
    case Object(_) => true
  }

  /** `x ?? d`: the default when the property is absent (undefined) or null. */
  function Coalesce(x: Option<Json>, d: Json): (r: Json)
    ensures x.Some? && x.value != Null ==> r == x.value
    ensures x.None? || x.value == Null ==> r == d
  {
    if x.Some? && x.value != Null then x.value else d
  }

  // ---------------------------------------------------------------- digits

  predicate IsDigit(c: char) {
    '0' <= c <= '9'
  }

  predicate IsDigits(s: string) {
    forall i :: 0 <= i < |s| ==> IsDigit(s[i])
  }

  function DigitChar(d: nat): (c: char)
    requires d < 10
    ensures IsDigit(c)
  {
    ['0', '1', '2', '3', '4', '5', '6', '7', '8', '9'][d]
  }

  function DigitValue(c: char): (d: nat)
    requires IsDigit(c)
    ensures d < 10 && DigitChar(d) == c
  {
    (c as int - '0' as int) as nat
  }

  /**
   * The integer a run of decimal digits denotes, most significant first (0 for the empty run).
   */
  function DigitsValue(ds: string): nat
    requires IsDigits(ds)
  {
    if ds == [] then 0 else DigitsValue(ds[..|ds| - 1]) * 10 + DigitValue(ds[|ds| - 1])
  }

  /**
   * Number::toString (section 6.1.6.1.20 of ECMA-262) of a non-negative integer:
   * its decimal digits without leading zeros.  Array index keys are these strings.
   */
  function Decimal(n: nat): (s: string)
    ensures s != [] && IsDigits(s)
    ensures s[0] == '0' ==> n == 0
  {
    if n < 10 then [DigitChar(n)] else Decimal(n / 10) + [DigitChar(n % 10)]
  }

  /** Reading the decimal form of `n` back gives `n`. */
  lemma {:induction false} DigitsValueOfDecimal(n: nat)
    ensures DigitsValue(Decimal(n)) == n
  {
    if n >= 10 {
      var prefix := Decimal(n / 10);
      DigitsValueOfDecimal(n / 10);
      assert (prefix + [DigitChar(n % 10)])[..|prefix|] == prefix;
    }
  }

  /** Distinct indices have distinct keys. */
  lemma DecimalInjective(m: nat, n: nat)
    requires Decimal(m) == Decimal(n)
    ensures m == n
  {
    DigitsValueOfDecimal(m);
    DigitsValueOfDecimal(n);
  }

  // ---------------------------------------------------------------- own properties

  /** A canonical array index below `n`, as a key. */
  predicate IsIndexKey(k: string, n: nat) {
    k != [] && IsDigits(k) && DigitsValue(k) < n
  }

  /**
   * The own enumerable properties `{...items}` copies out of an array: key `Decimal(i)`
   * holds `items[i]`.
   */
  function Indexed(items: seq<Json>): (m: map<string, Json>)
    ensures forall k :: k in m ==> IsIndexKey(k, |items|)
    ensures |m| == |items|
  {
    if items == [] then map[]
    else
      var last := |items| - 1;
      var m' := Indexed(items[..last]);
      DigitsValueOfDecimal(last);
      assert Decimal(last) !in m';
      m'[Decimal(last) := items[last]]
  }

  /** Element `i` of a spread array sits under the key `Decimal(i)`. */
  lemma {:induction false} IndexedAt(items: seq<Json>, i: nat)
    requires i < |items|
    ensures Decimal(i) in Indexed(items) && Indexed(items)[Decimal(i)] == items[i]
  {
    var last := |items| - 1;
    if i < last {
      IndexedAt(items[..last], i);
      assert Decimal(i) != Decimal(last) by {
        if Decimal(i) == Decimal(last) { DecimalInjective(i, last); }
      }
      assert items[..last][i] == items[i];
    }
  }

  /** Every key of a spread array is a non-empty run of digits. */
  lemma IndexedKeys(items: seq<Json>, k: string)
    requires k in Indexed(items)
    ensures k != [] && IsDigits(k)
  {
  }

  /**
   * The own enumerable string-keyed properties of a value, which is what the spread
   * `{...v}` copies: an object's fields, an array's or a string's elements under their
   * index keys, nothing for null, booleans and numbers.
   */
  function Props(v: Json): (m: map<string, Json>)
    ensures v.Object? ==> m == v.fields
    ensures v.Array? ==> m == Indexed(v.items)
    ensures !v.Object? && !v.Array? && !v.String? ==> m == map[]
  {
    match v
    case Object(fields) => fields
    case Array(items) => Indexed(items)
    case String(s) => Indexed(seq(|s|, i requires 0 <= i < |s| => String([s[i]])))
    case _ => map[]
  }

  /**
   * `key in v` followed by `v[key]` on an object or array, for a key that the
   * prototypes (Object.prototype, Array.prototype) do not define.  An array also
   * owns a non-enumerable `length`.
   */
  function Member(v: Json, key: string): (r: Option<Json>)
    requires IsObject(v)
    ensures v.Object? ==> (r.Some? <==> key in v.fields) && (r.Some? ==> r.value == v.fields[key])
    ensures v.Array? && key != [] && !IsDigit(key[0]) && key != "length" ==> r == None
  {
    if v.Array? && key == "length" then Some(Number(|v.items| as real))
    else if key in Props(v) then
      if v.Array? then IndexedKeys(v.items, key); Some(Props(v)[key]) else Some(Props(v)[key])
    else None
  }

  /** `key in v && typeof v[key] === "string"` */
  predicate HasString(v: Json, key: string)
    requires IsObject(v)
  {
    var m := Member(v, key);
    m.Some? && m.value.String?
  }

  /** `key in v && typeof v[key] !== "string"`: present, with a value of another type. */
  predicate HasNonString(v: Json, key: string)
    requires IsObject(v)
  {
    var m := Member(v, key);
    m.Some? && !m.value.String?
  }

  // ---------------------------------------------------------------- parseInt

  /** WhiteSpace and LineTerminator code points (sections 12.2 and 12.3 of ECMA-262). */
  predicate IsWhitespace(c: char) {
    || c == '\t' || c == '\n' || c == '\U{B}' || c == '\U{C}' || c == '\r' || c == ' '
    || c == '\U{A0}' || c == '\U{1680}' || ('\U{2000}' <= c <= '\U{200A}')
    || c == '\U{2028}' || c == '\U{2029}' || c == '\U{202F}' || c == '\U{205F}'
    || c == '\U{3000}' || c == '\U{FEFF}'
  }

  predicate AllWhitespace(s: string) {
    forall i :: 0 <= i < |s| ==> IsWhitespace(s[i])
  }

  /** TrimString(s, start): drops the leading whitespace, and only that. */
  function TrimStart(s: string): (t: string)
    ensures |t| <= |s| && t == s[|s| - |t|..]
    ensures AllWhitespace(s[..|s| - |t|])
    ensures t == [] || !IsWhitespace(t[0])
  {
    if s != [] && IsWhitespace(s[0]) then
      var t := TrimStart(s[1..]);
      var n := |s| - |t|;
      assert s[1..][n - 1..] == s[n..];
      assert s[..n] == [s[0]] + s[1..][..n - 1];
      t
    else
      s
  }

  /** The longest prefix of `s` made of decimal digits. */
  function LeadingDigits(s: string): (ds: string)
    ensures IsDigits(ds) && ds <= s
    ensures |ds| == |s| || !IsDigit(s[|ds|])
  {
    if s != [] && IsDigit(s[0]) then [s[0]] + LeadingDigits(s[1..]) else []
  }

  /** Drops one leading sign. */
  function StripSign(t: string): string {
    if t != [] && (t[0] == '-' || t[0] == '+') then t[1..] else t
  }

  /** -1 after a leading minus, else 1. */
  function SignOf(t: string): int {
    if t != [] && t[0] == '-' then -1 else 1
  }

  /** What remains after leading whitespace and one optional sign. */
  function Unsigned(s: string): string {
    StripSign(TrimStart(s))
  }

  /**
   * `parseInt(s, 10)` (section 19.2.5 of ECMA-262): skip leading whitespace, take one
   * optional sign, then the longest run of decimal digits.  `None` is NaN.  The
   * negative zero "-0" yields is the same array index as 0, so it is 0 here.
   */
  function ParseInt(s: string): (r: Option<int>)
    ensures r.None? <==> Unsigned(s) == [] || !IsDigit(Unsigned(s)[0])
  {
    var ds := LeadingDigits(Unsigned(s));
    if ds == [] then None else Some(SignOf(TrimStart(s)) * DigitsValue(ds))
  }

  /** Trimming whitespace followed by a non-whitespace start gives exactly that rest. */
  lemma {:induction false} TrimStartOfWhitespace(pre: string, t: string)
    requires AllWhitespace(pre)
    requires t == [] || !IsWhitespace(t[0])
    ensures TrimStart(pre + t) == t
    decreases |pre|
  {
    if pre != [] {
      var s := pre + t;
      assert s[0] == pre[0] && IsWhitespace(s[0]);
      assert s[1..] == pre[1..] + t;
      TrimStartOfWhitespace(pre[1..], t);
    } else {
      assert pre + t == t;
    }
  }

  lemma {:induction false} LeadingDigitsOfDigits(ds: string, tail: string)
    requires IsDigits(ds)
    requires tail == [] || !IsDigit(tail[0])
    ensures LeadingDigits(ds + tail) == ds
  {
    if ds == [] {
      assert ds + tail == tail;
    } else {
      assert (ds + tail)[1..] == ds[1..] + tail;
      LeadingDigitsOfDigits(ds[1..], tail);
    }
  }

  /** One optional sign in front of a numeral: nothing, "-" or "+". */
  predicate IsSign(sign: string) {
    sign == "" || sign == "-" || sign == "+"
  }

  /** A sign in front of a digit is stripped and read; the numeral does not start with whitespace. */
  lemma StripSignOfNumeral(sign: string, digits: string)
    requires IsSign(sign) && digits != [] && IsDigit(digits[0])
    ensures (sign + digits) != [] && !IsWhitespace((sign + digits)[0])
    ensures StripSign(sign + digits) == digits
    ensures SignOf(sign + digits) == if sign == "-" then -1 else 1
  {
    var body := sign + digits;
    if sign == "" {
      assert body == digits;
    } else {
      assert body[0] == sign[0] && body[1..] == digits;
    }
  }

  lemma UnsignedOfNumeral(pre: string, sign: string, digits: string)
    requires AllWhitespace(pre) && IsSign(sign) && digits != [] && IsDigit(digits[0])
    ensures Unsigned(pre + sign + digits) == digits
    ensures SignOf(TrimStart(pre + sign + digits)) == if sign == "-" then -1 else 1
  {
    var body := sign + digits;
    assert pre + sign + digits == pre + body;
    StripSignOfNumeral(sign, digits);
    TrimStartOfWhitespace(pre, body);
  }

  /**
   * A numeral parses to its value: `pre + sign + ds + tail` is `±DigitsValue(ds)` when
   * `pre` is whitespace, `sign` is nothing, "-" or "+", `ds` a non-empty digit run and
   * `tail` does not continue it ("  007abc" is 7, "-3" is -3, "+7" is 7).
   */
  lemma ParseIntOfNumeral(pre: string, sign: string, ds: string, tail: string)
    requires AllWhitespace(pre) && IsSign(sign) && ds != [] && IsDigits(ds)
    requires tail == [] || !IsDigit(tail[0])
    ensures ParseInt(pre + sign + ds + tail) == Some((if sign == "-" then -1 else 1) * DigitsValue(ds))
  {
    assert pre + sign + ds + tail == pre + sign + (ds + tail);
    UnsignedOfNumeral(pre, sign, ds + tail);
    LeadingDigitsOfDigits(ds, tail);
  }

  /** The decimal form of every index parses back to that index. */
  lemma ParseIntOfDecimal(n: nat)
    ensures ParseInt(Decimal(n)) == Some(n)
  {
    var ds := Decimal(n);
    assert ds == "" + "" + ds + "";
    ParseIntOfNumeral("", "", ds, "");
    DigitsValueOfDecimal(n);
  }

  // ---------------------------------------------------------------- strings

  predicate OccursAt(s: string, pat: string, i: nat) {
    i + |pat| <= |s| && s[i..i + |pat|] == pat
  }

  /** `pat` occurs at `i` and nowhere before. */
  predicate IsFirstOccurrence(s: string, pat: string, i: nat) {
    OccursAt(s, pat, i) && forall j: nat :: j < i ==> !OccursAt(s, pat, j)
  }

  /** StringIndexOf(s, pat, from) (section 6.1.4.1 of ECMA-262). */
  function IndexOf(s: string, pat: string, from: nat): (r: Option<nat>)
    ensures r.Some? ==> from <= r.value && OccursAt(s, pat, r.value)
    ensures r.Some? ==> forall j :: from <= j < r.value ==> !OccursAt(s, pat, j)
    ensures r.None? ==> forall j :: from <= j ==> !OccursAt(s, pat, j)
    decreases |s| - from
  {
    if from + |pat| > |s| then None
    else if s[from..from + |pat|] == pat then Some(from)
    else IndexOf(s, pat, from + 1)
  }

  /**
   * `s.replace(pat, "")` with a string pattern (section 22.1.3.19 of ECMA-262):
   * only the first occurrence is removed, wherever it is.
   */
  function RemoveFirst(s: string, pat: string): (r: string)
    ensures (forall j :: !OccursAt(s, pat, j)) ==> r == s
    ensures (exists j :: OccursAt(s, pat, j)) ==> |r| == |s| - |pat|
    ensures forall i: nat :: IsFirstOccurrence(s, pat, i) ==> r == s[..i] + s[i + |pat|..]
  {
    match IndexOf(s, pat, 0)
    case None => s
    case Some(i) => s[..i] + s[i + |pat|..]
  }

  /** A pattern at the very start is the first occurrence, so exactly it is removed. */
  lemma {:induction false} RemoveFirstOfPrefix(pat: string, t: string)
    ensures RemoveFirst(pat + t, pat) == t
  {
    assert OccursAt(pat + t, pat, 0);
    assert (pat + t)[|pat|..] == t;
  }

  // ---------------------------------------------------------------- errors

  /** An `Error` object: its `name` (inherited "Error" for `new Error(…)`) and `message`. */
  datatype Error = Error(name: string, message: string)

  function NewError(message: string): (e: Error)
    ensures e.message == message && e.name == "Error"
  {
    Error("Error", message)
  }

  /**
   * Error.prototype.toString (section 20.5.3.4 of ECMA-262): the name and the message
   * joined by ": ", or whichever of the two is non-empty.
   */
  function ErrorToString(e: Error): (s: string)
    ensures e.name == "" ==> s == e.message
    ensures e.name != "" && e.message == "" ==> s == e.name
    ensures e.name != "" && e.message != "" ==> s == e.name + ": " + e.message
    ensures e.name != "" && e.message != "" ==> s[|e.name|] == ':'
  {
    if e.name == "" then e.message
    else if e.message == "" then e.name
    else e.name + ": " + e.message
  }
}
