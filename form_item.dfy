/**
 * The field binder (Form.Item in Form.jsx): it registers its field's rules
 * with the root form, reports field renames, and routes each new value from
 * its input widget to the nearest container's writer.
 */
module FieldBinding {
  import opened Wrappers
  import opened Values
  import opened FormSpec
  import opened Adapters
  import opened FormContainer

  /**
   * The change handler's routing: with `fields` given (one binder editing
   * several fields) the new value is merged with setValues, otherwise it is
   * stored under the bound field with setValue. Either way it writes the live map.
   */
  function Route(field: string, multi: bool, v: Value): (e: Event)
    ensures Writes(e)
    ensures e.SetValues? <==> multi
    ensures e.SetValues? ==> e.partial == v
    ensures e.SetValue? ==> e.field == field && e.value == v
  {
    if multi then SetValues(v) else SetValue(field, v)
  }

  /** A single-field binder's write reads back: the binder's displayed value is the value it wrote. */
  lemma RoutedWriteReadsBack(s: Snapshot, field: string, v: Value, validator: Validator)
    ensures Lookup(Handle(s, Route(field, false, v), validator).values, field) == v
    ensures s.quick ==> Handle(s, Route(field, false, v), validator).data[field] == v
  {
  }

  /** A multi-field binder's write merges every property of the new value into the live map. */
  lemma RoutedMultiWriteMerges(s: Snapshot, field: string, v: Value, validator: Validator)
    ensures forall k :: k in OwnProps(v) ==> Lookup(Handle(s, Route(field, true, v), validator).values, k) == OwnProps(v)[k]
  {
  }

  /**
   * A binder for `inner` inside an object sub-form whose value is the root
   * form's field `outer`: the sub-form hands `{...values[outer], inner: v}` to
   * the outer binder, which stores it under `outer`. The inner field takes the
   * value, the other inner fields and every other root field are kept.
   */
  lemma ObjectScopedWrite(s: Snapshot, outer: string, inner: string, v: Value, validator: Validator)
    ensures var t := Handle(s, Route(outer, false, ObjectSetValue(Lookup(s.values, outer), inner, v)), validator);
      && outer in t.values && t.values[outer].Obj? && t.values[outer].fields[inner] == v
      && (forall k :: k in ObjectBase(Lookup(s.values, outer)) && k != inner ==>
            t.values[outer].fields[k] == ObjectBase(Lookup(s.values, outer))[k])
      && (forall k :: k in s.values && k != outer ==> t.values[k] == s.values[k])
  {
  }

  /**
   * A binder for slot `index` inside an array sub-form whose value is the root
   * form's field `outer`: the slot takes the value, the other slots keep theirs
   * (holes read as undefined), and every other root field is kept.
   */
  lemma ArrayScopedWrite(s: Snapshot, outer: string, index: nat, v: Value, validator: Validator)
    ensures var t := Handle(s, Route(outer, false, ArraySetValue(Lookup(s.values, outer), index, v)), validator);
      && outer in t.values && t.values[outer].Arr? && t.values[outer].elems[index] == Some(v)
      && (Lookup(s.values, outer).Arr? ==>
            forall j :: 0 <= j < |Lookup(s.values, outer).elems| && j != index ==>
              t.values[outer].elems[j] == Some(Lookup(s.values, outer).elems[j].GetOr(Undefined)))
      && (forall k :: k in s.values && k != outer ==> t.values[k] == s.values[k])
  {
  }

  /**
   * Two writes through the same object sub-form in one event handler both copy
   * the value of the last render, so the second write drops the first one's
   * field; had the sub-form re-rendered in between, both fields would be kept.
   */
  lemma SubFormBatchLosesEarlierWrite(s: Snapshot, outer: string, f: string, v: Value, g: string, w: Value, validator: Validator)
    requires f != g && f !in ObjectBase(Lookup(s.values, outer))
    ensures var c := Lookup(s.values, outer);
      var t1 := Handle(s, Route(outer, false, ObjectSetValue(c, f, v)), validator);
      var t2 := Handle(t1, Route(outer, false, ObjectSetValue(c, g, w)), validator);
      && t2.values[outer].fields[g] == w
      && f !in t2.values[outer].fields
    ensures var c := Lookup(s.values, outer);
      var t1 := Handle(s, Route(outer, false, ObjectSetValue(c, f, v)), validator);
      var t2 := Handle(t1, Route(outer, false, ObjectSetValue(Lookup(t1.values, outer), g, w)), validator);
      && t2.values[outer].fields[g] == w
      && t2.values[outer].fields[f] == v
  {
  }

  class FieldBinder {
    /** The field of the previous registration run (fieldOld.current), `None` before the first render. */
    var fieldOld: Option<string>
    /** The `(field, previousField)` pairs reported through onGetField, in order. */
    ghost var reported: seq<(string, Option<string>)>

    constructor ()
      ensures fieldOld == None && reported == []
    {
      fieldOld := None;
      reported := [];
    }

    /**
     * A render with `field` and `rules`. On the first render and whenever the
     * field name changes, the binder registers its rules with the root form
     * (only when there are any) and reports the new and the previous field;
     * a render with the same field, even with new rules, does neither.
     */
    method Render(form: Form, field: string, rules: Rules)
      modifies this, form
      ensures fieldOld == Some(field)
      ensures old(fieldOld) == Some(field) ==> reported == old(reported) && form.State() == old(form.State())
      ensures old(fieldOld) != Some(field) ==> reported == old(reported) + [(field, old(fieldOld))]
      ensures old(fieldOld) != Some(field) && |rules| > 0 ==> form.State() == AddItemStep(old(form.State()), field, rules)
      ensures |rules| == 0 ==> form.State() == old(form.State())
    {
      if fieldOld != Some(field) {
        if |rules| > 0 {
          form.AddItem(field, rules);
        }
        reported := reported + [(field, fieldOld)];
        fieldOld := Some(field);
      }
    }

    /** The injected change handler, for a binder directly under the root form. */
    method Change(form: Form, multi: bool, v: Value)
      requires fieldOld.Some?
      modifies form
      ensures form.State() == Handle(old(form.State()), Route(fieldOld.value, multi, v), form.validator)
    {
      form.Dispatch(Route(fieldOld.value, multi, v));
    }
  }
}
