/**
 * JavaScript values as the controllers and forms handle them: request bodies,
 * database rows, form data and JSON payloads. Objects keep their keys in
 * insertion order, because `Object.keys`/`Object.values` order matters to the
 * department insert builder. Numbers are integers plus a separate `NaN`.
 */
module Json {
  import opened Text

  datatype Option<T> = None | Some(value: T)

  datatype Value =
    | Undefined
    | Null
    | Bool(b: bool)
    | Num(n: int)
    | NaN
    | Str(s: string)
    | Arr(items: seq<Value>)
    | Obj(fields: seq<Field>)

  datatype Field = Field(key: string, val: Value)

  /** JavaScript truthiness: `false`, `0`, `NaN`, `""`, `null` and `undefined` are falsy. */
  predicate Truthy(v: Value) {
    match v
    case Undefined => false
    case Null => false
    case Bool(b) => b
    case Num(n) => n != 0
    case NaN => false
    case Str(s) => s != ""
    case Arr(_) => true
    case Obj(_) => true
  }

  /** `typeof v === "object"` for a value that is also truthy: arrays pass as well. */
  predicate IsObjectLike(v: Value) {
    v.Arr? || v.Obj?
  }

  /** `a || b`. */
  function Or(a: Value, b: Value): (r: Value)
    ensures Truthy(a) ==> r == a
    ensures !Truthy(a) ==> r == b
  {
    if Truthy(a) then a else b
  }

  function Keys(fields: seq<Field>): (ks: seq<string>)
    ensures |ks| == |fields|
    ensures forall i | 0 <= i < |fields| :: ks[i] == fields[i].key
  {
    seq(|fields|, i requires 0 <= i < |fields| => fields[i].key)
  }

  function Values(fields: seq<Field>): (vs: seq<Value>)
    ensures |vs| == |fields|
    ensures forall i | 0 <= i < |fields| :: vs[i] == fields[i].val
  {
    seq(|fields|, i requires 0 <= i < |fields| => fields[i].val)
  }

  /** Property read on an object: the value of the first entry with key `k`. */
  function Lookup(fields: seq<Field>, k: string): (r: Value)
    ensures (forall i | 0 <= i < |fields| :: fields[i].key != k) ==> r == Undefined
  {
    if |fields| == 0 then Undefined
    else if fields[0].key == k then fields[0].val
    else Lookup(fields[1..], k)
  }

  /** The value read is that of the first entry with the key. */
  lemma {:induction false} LookupFirst(fields: seq<Field>, k: string, i: nat)
    requires i < |fields| && fields[i].key == k
    requires forall j | 0 <= j < i :: fields[j].key != k
    ensures Lookup(fields, k) == fields[i].val
  {
    if i > 0 {
      LookupFirst(fields[1..], k, i - 1);
    }
  }

  /** `v[k]` for an object `v`; anything else reads as `undefined` in the model. */
  function Get(v: Value, k: string): Value {
    if v.Obj? then Lookup(v.fields, k) else Undefined
  }

  /** `Object.keys(v)` paired with `Object.values(v)`: an array's keys are its indices. */
  function Entries(v: Value): (es: seq<Field>)
    requires IsObjectLike(v)
    ensures v.Obj? ==> es == v.fields
    ensures v.Arr? ==> |es| == |v.items|
    ensures v.Arr? ==> forall i | 0 <= i < |es| :: es[i] == Field(NatToString(i), v.items[i])
  {
    if v.Obj? then v.fields
    else seq(|v.items|, i requires 0 <= i < |v.items| => Field(NatToString(i), v.items[i]))
  }

  /** `String(n)` for an integer. */
  function IntToString(n: int): (r: string)
    ensures |r| > 0
  {
    if n < 0 then "-" + NatToString(-n) else NatToString(n)
  }

  /** `String(v)`, the conversion a template string applies. */
  function Display(v: Value): string
    decreases v
  {
    match v
    case Undefined => "undefined"
    case Null => "null"
    case Bool(b) => if b then "true" else "false"
    case Num(n) => IntToString(n)
    case NaN => "NaN"
    case Str(s) => s
    case Arr(items) =>
      Join(seq(|items|, i requires 0 <= i < |items| =>
                 if items[i].Undefined? || items[i].Null? then "" else Display(items[i])), ",")
    case Obj(_) => "[object Object]"
  }

  /** Text that is an optionally negative run of decimal digits. */
  predicate DecimalText(s: string) {
    if |s| > 0 && s[0] == '-' then |s| > 1 && AllDigits(s[1..]) else |s| > 0 && AllDigits(s)
  }

  function ParseDecimal(s: string): int
    requires DecimalText(s)
  {
    if s[0] == '-' then -(ParseDigits(s[1..]) as int) else ParseDigits(s)
  }

  /** Reading back the text of an integer gives the integer. */
  lemma ParseIntToString(n: int)
    ensures DecimalText(IntToString(n)) && ParseDecimal(IntToString(n)) == n
  {
    if n < 0 {
      var s := IntToString(n);
      assert s[1..] == NatToString(-n);
      ParseNatToString(-n);
    } else {
      ParseNatToString(n);
    }
  }

  /**
   * `!isNaN(v)`, as a named abstraction: numbers, booleans, `null`, the empty
   * text and decimal text count as numeric. JavaScript also accepts padded,
   * fractional, exponent and hexadecimal text and one-element arrays; the
   * model does not.
   */
  predicate IsNumeric(v: Value) {
    match v
    case Num(_) => true
    case Bool(_) => true
    case Null => true
    case Str(s) => s == "" || DecimalText(s)
    case _ => false
  }

  /**
   * The integer key a value denotes when bound to an integer column: a number,
   * or decimal text (PostgreSQL's integer input). Anything else makes the
   * query fail.
   */
  function IntegerKey(v: Value): (k: Option<int>)
    ensures v.Num? ==> k == Some(v.n)
    ensures v.Str? && DecimalText(v.s) ==> k == Some(ParseDecimal(v.s))
  {
    match v
    case Num(n) => Some(n)
    case Str(s) => if DecimalText(s) then Some(ParseDecimal(s)) else None
    case _ => None
  }

  /** A value that denotes an integer key passes the `isNaN` gate. */
  lemma IntegerKeyIsNumeric(v: Value)
    requires IntegerKey(v).Some?
    ensures IsNumeric(v)
  {
  }
}
