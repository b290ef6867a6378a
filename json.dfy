/** JSON values as the server holds them, and the few pieces of JavaScript
    semantics the request handlers rely on: truthiness, property access,
    object spread, strict equality and the conversion of a value to a
    property key. */
module JsonValue {

  datatype Option<T> = None | Some(value: T)

  /** A parsed JSON value. Numbers are integers; object keys are unordered. */
  datatype Json =
    | Null
    | Bool(b: bool)
    | Num(n: int)
    | Str(s: string)
    | Arr(items: seq<Json>)
    | Obj(fields: map<string, Json>)

  /** JavaScript truthiness: null, false, 0 and "" are falsy; every array and
      object is truthy. */
  predicate Truthy(v: Json)
    ensures v.Arr? || v.Obj? ==> Truthy(v)
    ensures v.Null? ==> !Truthy(v)
  {
    match v
    case Null => false
    case Bool(b) => b
    case Num(n) => n != 0
    case Str(s) => s != ""
    case Arr(_) => true
    case Obj(_) => true
  }

  /** A query-string parameter is truthy when it is present and non-empty. */
  predicate Given(q: Option<string>) {
    q.Some? && q.value != ""
  }

  /** The outcome of reading `v[name]` (or destructuring `name` out of `v`). */
  datatype Lookup = TypeError | Undefined | Found(value: Json)

  /** Reading a property of null throws; objects expose their own fields. */
  function Prop(v: Json, name: string): (r: Lookup)
    ensures r.TypeError? <==> v.Null?
    ensures r.Found? <==> v.Obj? && name in v.fields
    ensures r.Found? ==> r.value == v.fields[name]
  {
    match v
    case Null => TypeError
    case Obj(f) => if name in f then Found(f[name]) else Undefined
    case _ => Undefined
  }

  /** The properties `{...v}` copies: an object's fields; nothing for null
      and the scalars. */
  function OwnFields(v: Json): map<string, Json> {
    if v.Obj? then v.fields else map[]
  }

  /** `{...target, ...source}`: the fields of both, those of `source` winning. */
  function Merge(target: Json, source: Json): (r: Json)
    ensures r.Obj?
    ensures r.fields.Keys == OwnFields(target).Keys + OwnFields(source).Keys
    ensures forall f :: f in OwnFields(source) ==> r.fields[f] == OwnFields(source)[f]
    ensures forall f :: f in OwnFields(target) && f !in OwnFields(source) ==> r.fields[f] == OwnFields(target)[f]
  {
    Obj(OwnFields(target) + OwnFields(source))
  }

  /** `a === b`. Arrays and objects compare by reference; a value parsed from
      a request is a fresh object, so it is never identical to a stored one. */
  predicate StrictEquals(a: Json, b: Json)
    ensures StrictEquals(a, b) ==> a == b
    ensures a.Arr? || a.Obj? || b.Arr? || b.Obj? ==> !StrictEquals(a, b)
  {
    a == b && !a.Arr? && !a.Obj?
  }

  /** `item.id === id` for an item of a stored array. */
  predicate HasId(item: Json, id: Json)
    ensures HasId(item, id) ==> item.Obj? && "id" in item.fields && item.fields["id"] == id
    ensures id.Arr? || id.Obj? || !item.Obj? ==> !HasId(item, id)
  {
    item.Obj? && "id" in item.fields && StrictEquals(item.fields["id"], id)
  }

  function DigitChar(d: nat): char
    requires d < 10
  {
    "0123456789"[d]
  }

  /** The decimal representation of a natural number, as `String(n)` gives it. */
  function NatString(n: nat): (s: string)
    ensures |s| >= 1
    ensures forall k :: 0 <= k < |s| ==> '0' <= s[k] <= '9'
    decreases n
  {
    if n < 10 then [DigitChar(n)] else NatString(n / 10) + [DigitChar(n % 10)]
  }

  function NumberString(n: int): string {
    if n < 0 then "-" + NatString(-n) else NatString(n)
  }

  /** `parts.join(",")`. */
  function JoinComma(parts: seq<string>): string {
    if |parts| == 0 then ""
    else if |parts| == 1 then parts[0]
    else parts[0] + "," + JoinComma(parts[1..])
  }

  /** Whether ToPropertyKey throws on `v`. A parsed object with its own
      `toString` field has no callable `toString`, and the inherited
      `valueOf` returns the object itself, which is no primitive: the
      conversion throws a TypeError. An array throws when one of the
      elements its `join` converts does. */
  predicate KeyThrows(v: Json)
    ensures KeyThrows(v) ==> Truthy(v)
    ensures v.Obj? ==> (KeyThrows(v) <==> "toString" in v.fields)
    ensures !v.Obj? && !v.Arr? ==> !KeyThrows(v)
  {
    match v
    case Obj(fields) => "toString" in fields
    case Arr(items) => exists i :: 0 <= i < |items| && KeyThrows(items[i])
    case _ => false
  }

  /** ToPropertyKey: the string under which `obj[v]` stores a value. Arrays
      join their elements with commas, null elements giving "". It is only
      consulted where KeyThrows does not hold. */
  function KeyString(v: Json): (k: string)
    ensures v.Str? ==> k == v.s
    ensures v.Num? && v.n >= 0 ==> |k| >= 1 && forall i :: 0 <= i < |k| ==> '0' <= k[i] <= '9'
    ensures v.Num? && v.n < 0 ==> |k| >= 2 && k[0] == '-'
  {
    match v
    case Null => "null"
    case Bool(b) => if b then "true" else "false"
    case Num(n) => NumberString(n)
    case Str(s) => s
    case Arr(items) =>
      JoinComma(seq(|items|, i requires 0 <= i < |items| =>
        if items[i].Null? then "" else KeyString(items[i])))
    case Obj(_) => "[object Object]"
  }

  /** Two numbers that differ give two different property keys. */
  lemma {:induction false} NatStringInjective(m: nat, n: nat)
    requires NatString(m) == NatString(n)
    ensures m == n
    decreases m
  {
    if m >= 10 && n >= 10 {
      var s := NatString(m);
      var a, b := NatString(m / 10), NatString(n / 10);
      assert s == a + [DigitChar(m % 10)] && s == b + [DigitChar(n % 10)];
      assert a == s[..|s| - 1] == b;
      assert "0123456789"[m % 10] == "0123456789"[n % 10];
      NatStringInjective(m / 10, n / 10);
    }
  }

  /** Two integers that differ, negative ones included, give two different
      property keys. */
  lemma NumberStringInjective(m: int, n: int)
    requires NumberString(m) == NumberString(n)
    ensures m == n
  {
    assert NumberString(m)[0] == '-' <==> m < 0;
    assert NumberString(n)[0] == '-' <==> n < 0;
    if m < 0 && n < 0 {
      var s := NumberString(m);
      assert NatString(-m) == s[1..] == NatString(-n);
      NatStringInjective(-m, -n);
    } else if m >= 0 && n >= 0 {
      NatStringInjective(m, n);
    }
  }
}
