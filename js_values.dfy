/**
  The JavaScript values that a parsed JSON request body can hold, and the few
  operations of the JavaScript runtime that the GrubDash controllers apply to
  them: truthiness, `typeof x === "number"`, `Number.isInteger`, property
  reads (`x.key`, which throws a TypeError on null and undefined) and the
  string conversion used by template literals.
 */
module JsValues {
  import opened Wrappers

  /** A JavaScript value. `Undefined` stands for a member that is absent.
      `Num(n)` is a number whose value is the integer `n`; `Frac(text)` is a
      number that is not an integer, `text` being the way JavaScript prints
      it; this includes `Infinity` and `-Infinity`, which a JSON literal
      beyond the double range such as `1e400` parses to, and which behave
      the same way here (truthy, a number, not an integer). */
  datatype JsValue =
    | Undefined
    | Null
    | Bool(b: bool)
    | Num(n: int)
    | Frac(text: string)
    | Str(s: string)
    | Arr(elems: seq<JsValue>)
    | Obj(fields: map<string, JsValue>)

  /** The falsy values a JSON body can hold (`NaN` cannot be written in
      JSON, and `-0` parses to the number 0). */
  const FalsyValues: set<JsValue> := {Undefined, Null, Bool(false), Num(0), Str("")}

  /** JavaScript truthiness: `if (v)` takes its branch. */
  function Truthy(v: JsValue): (r: bool)
    ensures r <==> v !in FalsyValues
  {
    match v
    case Undefined => false
    case Null => false
    case Bool(b) => b
    case Num(n) => n != 0
    case Frac(_) => true
    case Str(s) => s != ""
    case Arr(_) => true
    case Obj(_) => true
  }

  /** `typeof v === "number"` */
  predicate IsNumber(v: JsValue) {
    v.Num? || v.Frac?
  }

  /** `Number.isInteger(v)`: false for every value that is not a number. */
  predicate IsInteger(v: JsValue) {
    v.Num?
  }

  /** A number that is an integer greater than 0. */
  predicate IsPositiveInteger(v: JsValue) {
    v.Num? && v.n > 0
  }

  /** Reading `v.key`. Null and undefined throw a TypeError (`None`); an
      object yields its member or undefined; the other values yield
      undefined, which is what JavaScript gives for every key the controllers
      read (none of them names a built-in property such as `length`). */
  function Get(v: JsValue, key: string): (r: Option<JsValue>)
    ensures r.None? <==> v.Undefined? || v.Null?
    ensures v.Obj? ==> r == Some(if key in v.fields then v.fields[key] else Undefined)
    ensures !v.Obj? && !v.Undefined? && !v.Null? ==> r == Some(Undefined)
  {
    match v
    case Undefined => None
    case Null => None
    case Obj(fields) => Some(if key in fields then fields[key] else Undefined)
    case _ => Some(Undefined)
  }

  /** Reading `key` out of the body's `data` member with
      `const { data = {} } = req.body || {}` or `const { data: { key } = {} } = ...`:
      an absent `data` defaults to `{}`, a null one throws. */
  function Field(data: JsValue, key: string): (r: Option<JsValue>)
    ensures r.None? <==> data.Null?
    ensures !data.Obj? && !data.Null? ==> r == Some(Undefined)
  {
    if data.Undefined? then Some(Undefined) else Get(data, key)
  }

  /** The member `key` of a `data` value that is known not to be null, as the
      route handlers destructure it once the validators have passed. */
  function Member(data: JsValue, key: string): (r: JsValue)
    ensures Field(data, key) == Some(r) || data.Null?
  {
    if data.Obj? && key in data.fields then data.fields[key] else Undefined
  }

  /** A value that `String(v)` cannot convert: an object with its own
      `toString` member, or an array holding one at any depth. JSON gives
      no functions, so that member is never callable; the conversion then
      falls back to `valueOf`, which hands back the object itself (or is
      not callable either), and JavaScript throws a TypeError. */
  predicate Unprintable(v: JsValue) {
    match v
    case Obj(fields) => "toString" in fields
    case Arr(elems) => exists i :: 0 <= i < |elems| && Unprintable(elems[i])
    case _ => false
  }

  /** `String(v)`, as a template literal `${v}` renders it, or `None` where
      the conversion throws. Integers are printed in plain decimal
      notation. */
  function Display(v: JsValue): (r: Option<string>)
    ensures r.None? <==> Unprintable(v)
    ensures v.Str? ==> r == Some(v.s)
    ensures v.Obj? && !Unprintable(v) ==> r == Some("[object Object]")
  {
    match v
    case Undefined => Some("undefined")
    case Null => Some("null")
    case Bool(b) => Some(if b then "true" else "false")
    case Num(n) => Some(IntToString(n))
    case Frac(text) => Some(text)
    case Str(s) => Some(s)
    case Arr(elems) =>
      // Array.prototype.join: null and undefined elements become "", and
      // the first element whose conversion throws ends the join
      var parts := seq(|elems|, i requires 0 <= i < |elems| =>
                         if elems[i].Undefined? || elems[i].Null? then Some("") else Display(elems[i]));
      assert forall i :: 0 <= i < |elems| && Unprintable(elems[i]) ==> parts[i].None?;
      if exists i :: 0 <= i < |parts| && parts[i].None? then None
      else Some(Join(seq(|parts|, i requires 0 <= i < |parts| => parts[i].value), ","))
    case Obj(fields) => if "toString" in fields then None else Some("[object Object]")
  }

  function Join(parts: seq<string>, sep: string): string {
    if parts == [] then ""
    else if |parts| == 1 then parts[0]
    else parts[0] + sep + Join(parts[1..], sep)
  }

  predicate IsDigit(c: char) {
    '0' <= c <= '9'
  }

  /** The decimal digits of `n`, most significant first, with no leading zero. */
  function NatToString(n: nat): (s: string)
    ensures |s| >= 1
    ensures forall i :: 0 <= i < |s| ==> IsDigit(s[i])
    ensures |s| > 1 ==> s[0] != '0'
    decreases n
  {
    if n < 10 then [DigitChar(n)] else NatToString(n / 10) + [DigitChar(n % 10)]
  }

  function DigitChar(d: nat): (c: char)
    requires d < 10
    ensures IsDigit(c) && (c as int) - ('0' as int) == d
  {
    (('0' as int) + d) as char
  }

  function IntToString(i: int): string {
    if i < 0 then "-" + NatToString(-i) else NatToString(i)
  }

  /** Reads a string of decimal digits back as a number. */
  function ParseDigits(s: string): nat
    requires forall i :: 0 <= i < |s| ==> IsDigit(s[i])
  {
    if s == [] then 0
    else
      assert IsDigit(s[|s| - 1]);
      ParseDigits(s[..|s| - 1]) * 10 + ((s[|s| - 1] as int) - ('0' as int))
  }

  /** Rendering a natural number in decimal loses nothing. */
  lemma {:induction false} ParseNatToString(n: nat)
    ensures ParseDigits(NatToString(n)) == n
    decreases n
  {
    if n >= 10 {
      var s := NatToString(n);
      assert s[..|s| - 1] == NatToString(n / 10);
      ParseNatToString(n / 10);
    }
  }

  /** Two numbers with the same decimal rendering are equal. */
  lemma NatToStringInjective(a: nat, b: nat)
    requires NatToString(a) == NatToString(b)
    ensures a == b
  {
    ParseNatToString(a);
    ParseNatToString(b);
  }
}
