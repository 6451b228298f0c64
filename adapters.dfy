/**
 * The scoping adapters of Form.jsx: the value an array sub-form (Form.Array) or
 * an object sub-form (Form.Object) hands to its `onChange` when a descendant
 * writes through it, and what an array action (Form.ArrayAction) hands to its
 * array sub-form. The sub-forms copy the current value, assign into the copy and
 * pass the whole copy on; the action passes a spread copy of the array to its
 * `action` prop and hands whatever that returns to ArrayForm.setValues, which
 * passes it on unchanged. Nothing is updated in place.
 */
module Adapters {
  import opened Wrappers
  import opened Values

  function Max(a: int, b: int): int {
    if a < b then b else a
  }

  /** Length of the array ArrayForm.setValue copies: the current value's if it is an array, else 0. */
  function BaseLength(current: Value): nat {
    if current.Arr? then |current.elems| else 0
  }

  /**
   * ArrayForm.setValue(index, v): copy the current value if it is an array
   * (reading holes as undefined) or start from `[]`, assign `index`, and hand
   * the copy to `onChange`. Assigning past the end leaves holes.
   */
  function ArraySetValue(current: Value, index: nat, v: Value): (r: Value)
    ensures r.Arr?
    ensures |r.elems| == Max(BaseLength(current), index + 1)
    ensures r.elems[index] == Some(v)
    ensures current.Arr? ==> forall j :: 0 <= j < |current.elems| && j != index ==>
              r.elems[j] == Some(current.elems[j].GetOr(Undefined))
    ensures forall j :: BaseLength(current) <= j < index ==> r.elems[j] == None
  {
    var copy := if current.Arr? then Filled(current.elems) else [];
    if index < |copy| then Arr(copy[index := Some(v)])
    else Arr(copy + seq(index - |copy|, _ => None) + [Some(v)])
  }

  /**
   * Writing the same slot twice gives the first result with its holes filled:
   * the second write copies the array, and the copy reads holes as undefined.
   */
  lemma ArrayRepeatedWrite(current: Value, index: nat, v: Value)
    ensures ArraySetValue(ArraySetValue(current, index, v), index, v)
         == Arr(Filled(ArraySetValue(current, index, v).elems))
  {
    var once := ArraySetValue(current, index, v);
    var twice := ArraySetValue(once, index, v);
    assert |twice.elems| == |once.elems|;
  }

  /** A later write to the same slot wins, and every other slot is the same up to holes. */
  lemma ArrayLastWriteWins(current: Value, index: nat, v: Value, w: Value)
    ensures ArraySetValue(ArraySetValue(current, index, v), index, w)
         == Arr(Filled(ArraySetValue(current, index, w).elems))
  {
    var first := ArraySetValue(current, index, v);
    var lhs := ArraySetValue(first, index, w);
    var rhs := Filled(ArraySetValue(current, index, w).elems);
    assert |lhs.elems| == |rhs|;
    forall j | 0 <= j < |rhs| ensures lhs.elems[j] == rhs[j] {
      if j != index && current.Arr? && j < |current.elems| {
        assert first.elems[j] == Some(current.elems[j].GetOr(Undefined));
      }
    }
  }

  /**
   * Writes to two different slots commute once holes are read as undefined;
   * they do not commute exactly, since the later write fills the earlier one's holes.
   */
  lemma ArrayWritesCommuteUpToHoles(current: Value, i: nat, v: Value, j: nat, w: Value)
    requires i != j
    ensures Filled(ArraySetValue(ArraySetValue(current, i, v), j, w).elems)
         == Filled(ArraySetValue(ArraySetValue(current, j, w), i, v).elems)
  {
    var a1 := ArraySetValue(current, i, v);
    var a := ArraySetValue(a1, j, w);
    var b1 := ArraySetValue(current, j, w);
    var b := ArraySetValue(b1, i, v);
    assert |a.elems| == |b.elems|;
    forall k | 0 <= k < |a.elems| ensures Filled(a.elems)[k] == Filled(b.elems)[k] {
      if k != i && k != j && current.Arr? && k < |current.elems| {
        assert a1.elems[k] == Some(current.elems[k].GetOr(Undefined));
        assert b1.elems[k] == Some(current.elems[k].GetOr(Undefined));
      }
    }
  }

  /** Assigning one slot of `[10, 20]`, and assigning past the end of an undefined value, which leaves a hole. */
  lemma ArrayWriteExamples()
    ensures ArraySetValue(Arr([Some(Num(10)), Some(Num(20))]), 0, Num(99)) == Arr([Some(Num(99)), Some(Num(20))])
    ensures ArraySetValue(Undefined, 1, Num(5)) == Arr([None, Some(Num(5))])
  {
    var r := ArraySetValue(Undefined, 1, Num(5));
    assert r.elems == [None, Some(Num(5))];
    var q := ArraySetValue(Arr([Some(Num(10)), Some(Num(20))]), 0, Num(99));
    assert q.elems == [Some(Num(99)), Some(Num(20))];
  }

  /** The map ObjectForm.setValue copies: the own properties of an object-typed value, else `{}`. */
  function ObjectBase(current: Value): ValueMap {
    if IsObjectTyped(current) then OwnProps(current) else map[]
  }

  /**
   * ObjectForm.setValue(field, v): copy the current value's own properties if
   * `typeof` calls it an object (null, an array or an object) or start from
   * `{}`, assign `field`, and hand the copy to `onChange`.
   */
  function ObjectSetValue(current: Value, field: string, v: Value): (r: Value)
    ensures r.Obj?
    ensures r.fields.Keys == ObjectBase(current).Keys + {field}
    ensures r.fields[field] == v
    ensures forall k :: k in ObjectBase(current) && k != field ==> r.fields[k] == ObjectBase(current)[k]
    ensures !IsObjectTyped(current) ==> r.fields == map[field := v]
  {
    Obj(ObjectBase(current)[field := v])
  }

  /**
   * ObjectForm.setValues(partial): `{...value, ...partial}`, a shallow merge in
   * which the keys of `partial` win and every other key of the current value is kept.
   */
  function ObjectSetValues(current: Value, partial: Value): (r: Value)
    ensures r.Obj?
    ensures r.fields.Keys == OwnProps(current).Keys + OwnProps(partial).Keys
    ensures forall k :: k in OwnProps(partial) ==> r.fields[k] == OwnProps(partial)[k]
    ensures forall k :: k in OwnProps(current) && k !in OwnProps(partial) ==> r.fields[k] == OwnProps(current)[k]
  {
    Obj(OwnProps(current) + OwnProps(partial))
  }

  /** Merging the same partial object twice gives what merging it once gives. */
  lemma ObjectSetValuesIdempotent(current: Value, partial: Value)
    ensures ObjectSetValues(ObjectSetValues(current, partial), partial) == ObjectSetValues(current, partial)
  {
  }

  /** On every value but a string, setting one field is merging a one-field object. */
  lemma ObjectSetValueIsOneFieldMerge(current: Value, field: string, v: Value)
    requires !current.Str?
    ensures ObjectSetValue(current, field, v) == ObjectSetValues(current, Obj(map[field := v]))
  {
    var base := ObjectBase(current);
    assert base == OwnProps(current);
    assert OwnProps(Obj(map[field := v])) == map[field := v];
    assert base[field := v] == base + map[field := v];
  }

  /**
   * On a non-empty string the two writers part ways: setValues spreads the
   * string's characters into the result under the keys "0", "1", ..., while
   * setValue starts from `{}`. (On "" both give the one-field object, and when
   * the field is "0" the written value hides the first character.)
   */
  lemma ObjectWritersDifferOnStrings(s: string, field: string, v: Value)
    requires s != "" && field != "0"
    ensures ObjectSetValue(Str(s), field, v) == Obj(map[field := v])
    ensures "0" in ObjectSetValues(Str(s), Obj(map[field := v])).fields
    ensures ObjectSetValues(Str(s), Obj(map[field := v])).fields["0"] == Str([s[0]])
    ensures ObjectSetValue(Str(s), field, v) != ObjectSetValues(Str(s), Obj(map[field := v]))
  {
    assert IndexKey(0) == "0";
    assert Chars(s)[0] == Some(Str([s[0]]));
    assert "0" in OwnProps(Str(s));
  }

  /** What clicking an ArrayAction hands to ArrayForm.setValues, and so to `onChange`. */
  datatype Emission = NotCalled | Throws | Emits(payload: Value)

  /** The `values` an array sub-form exposes: `value || []`. */
  function ArrayValues(value: Value): (r: Value)
    ensures Truthy(value) ==> r == value
    ensures !Truthy(value) ==> r == Arr([])
  {
    if Truthy(value) then value else Arr([])
  }

  /**
   * ArrayAction's click: when `action` is a function, call it on a spread copy
   * of the sub-form's `values` and pass its result whole to ArrayForm.setValues,
   * which hands it unchanged to `onChange`. Spreading a truthy value that is not
   * iterable throws.
   */
  function ArrayActionClick(value: Value, action: Option<Value -> Value>): (r: Emission)
    ensures action.None? <==> r.NotCalled?
    ensures r.Throws? <==> action.Some? && Truthy(value) && !value.Arr? && !value.Str?
    ensures action.Some? && value.Arr? ==> r == Emits(action.value(Arr(Filled(value.elems))))
    ensures action.Some? && value.Str? && value.s != "" ==> r == Emits(action.value(Arr(Chars(value.s))))
    ensures action.Some? && !Truthy(value) ==> r == Emits(action.value(Arr([])))
    ensures r.Emits? ==>
              && Spread(ArrayValues(value)).Some?
              && r == Emits(action.value(Arr(Spread(ArrayValues(value)).value)))
  {
    match action
    case None => NotCalled
    case Some(f) =>
      match Spread(ArrayValues(value))
      case None => Throws
      case Some(copy) => Emits(f(Arr(copy)))
  }

  /** The identity action re-emits the array with its holes filled and its elements in order. */
  lemma ArrayActionIdentityCopies(xs: seq<Option<Value>>)
    ensures ArrayActionClick(Arr(xs), Some(x => x)) == Emits(Arr(Filled(xs)))
  {
  }
}
