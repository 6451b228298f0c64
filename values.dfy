/**
 * JavaScript values as the form engine handles them: the entries of a form's
 * value map, the value of an array sub-form and the value of an object sub-form.
 */
module Values {
  import opened Wrappers

  /**
   * A JSON-like JavaScript value. An array slot that was never assigned
   * (a hole, left by writing past the end) is `None`; numbers are integers.
   */
  datatype Value =
    | Undefined
    | Null
    | Bool(b: bool)
    | Num(n: int)
    | Str(s: string)
    | Arr(elems: seq<Option<Value>>)
    | Obj(fields: map<string, Value>)

  /** A plain object used as a field-name to value map. */
  type ValueMap = map<string, Value>

  /** JavaScript truthiness, as used by `if (v)` and `v || d`. */
  predicate Truthy(v: Value) {
    match v
    case Undefined => false
    case Null => false
    case Bool(b) => b
    case Num(n) => n != 0
    case Str(s) => s != ""
    case Arr(_) => true
    case Obj(_) => true
  }

  /** `typeof v === 'object'`: true of null, arrays and objects. */
  predicate IsObjectTyped(v: Value) {
    v.Null? || v.Arr? || v.Obj?
  }

  /** `m[k]` on a plain object: a missing key reads as undefined. */
  function Lookup(m: ValueMap, k: string): Value {
    if k in m then m[k] else Undefined
  }

  /** The decimal digit character of `d`. */
  function Digit(d: nat): char
    requires d < 10
  {
    (48 + d) as char
  }

  /** The property key of array index `n`, that is `String(n)`. */
  function IndexKey(n: nat): (s: string)
    ensures |s| >= 1
    ensures (|s| == 1) == (n < 10)
  {
    if n < 10 then [Digit(n)] else IndexKey(n / 10) + [Digit(n % 10)]
  }

  /** Distinct indices have distinct property keys. */
  lemma {:induction false} IndexKeyInjective(a: nat, b: nat)
    requires IndexKey(a) == IndexKey(b)
    ensures a == b
    decreases a
  {
    var sa, sb := IndexKey(a), IndexKey(b);
    if a < 10 && b < 10 {
      assert Digit(a) == sa[0] == sb[0] == Digit(b);
      assert Digit(a) as int == 48 + a;
    } else {
      assert a >= 10 && b >= 10;
      assert sa[..|sa| - 1] == IndexKey(a / 10);
      assert sb[..|sb| - 1] == IndexKey(b / 10);
      IndexKeyInjective(a / 10, b / 10);
      assert Digit(a % 10) == sa[|sa| - 1] == sb[|sb| - 1] == Digit(b % 10);
      assert Digit(a % 10) as int == 48 + a % 10;
    }
  }

  lemma IndexKeysInjective()
    ensures forall a: nat, b: nat :: IndexKey(a) == IndexKey(b) ==> a == b
  {
    forall a: nat, b: nat | IndexKey(a) == IndexKey(b) ensures a == b {
      IndexKeyInjective(a, b);
    }
  }

  /** The assigned slots of an array under their index keys. */
  function SlotProps(xs: seq<Option<Value>>): (m: ValueMap)
    ensures m.Keys == set i | 0 <= i < |xs| && xs[i].Some? :: IndexKey(i)
    ensures forall i :: 0 <= i < |xs| && xs[i].Some? ==> m[IndexKey(i)] == xs[i].value
  {
    IndexKeysInjective();
    map i | 0 <= i < |xs| && xs[i].Some? :: IndexKey(i) := xs[i].value
  }

  /** The characters of a string as one-character strings. */
  function Chars(s: string): (r: seq<Option<Value>>)
    ensures |r| == |s| && NoHoles(r)
    ensures forall i :: 0 <= i < |s| ==> r[i] == Some(Str([s[i]]))
  {
    seq(|s|, i requires 0 <= i < |s| => Some(Str([s[i]])))
  }

  /**
   * The own enumerable properties of `v`, as the object spread `{...v}` copies
   * them: an object's fields, the assigned slots of an array and the characters
   * of a string under their index keys, and nothing for any other value.
   */
  function OwnProps(v: Value): (m: ValueMap)
    ensures v.Obj? ==> m == v.fields
    ensures v.Arr? ==> m == SlotProps(v.elems)
    ensures v.Str? ==> m == SlotProps(Chars(v.s))
    ensures !(v.Obj? || v.Arr? || v.Str?) ==> m == map[]
  {
    match v
    case Obj(fields) => fields
    case Arr(xs) => SlotProps(xs)
    case Str(s) => SlotProps(Chars(s))
    case _ => map[]
  }

  /** An array's slots with every hole read as undefined, as iterating the array yields them. */
  function Filled(xs: seq<Option<Value>>): (r: seq<Option<Value>>)
    ensures |r| == |xs|
    ensures forall i :: 0 <= i < |xs| ==> r[i].Some? && (xs[i].Some? ==> r[i] == xs[i]) && (xs[i].None? ==> r[i] == Some(Undefined))
  {
    seq(|xs|, i requires 0 <= i < |xs| => Some(xs[i].GetOr(Undefined)))
  }

  /** True when an array has no holes. */
  predicate NoHoles(xs: seq<Option<Value>>) {
    forall i :: 0 <= i < |xs| ==> xs[i].Some?
  }

  /**
   * The array spread `[...v]`: the elements iteration yields (an array's slots
   * with holes read as undefined, a string's characters), or `None` when `v` is
   * not iterable and the spread throws.
   */
  function Spread(v: Value): (r: Option<seq<Option<Value>>>)
    ensures r.Some? <==> v.Arr? || v.Str?
    ensures r.Some? ==> NoHoles(r.value)
    ensures v.Arr? ==> r == Some(Filled(v.elems))
    ensures v.Str? ==> r == Some(Chars(v.s))
  {
    match v
    case Arr(xs) => Some(Filled(xs))
    case Str(s) => Some(Chars(s))
    case _ => None
  }
}
