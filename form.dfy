/**
 * The root form container (Form in Form.jsx) as an object whose fields its
 * operations update in place. Each method is proved to take the step that
 * FormSpec defines, so every lemma there holds of the object as well.
 */
module FormContainer {
  import opened Wrappers
  import opened Values
  import opened FormSpec

  class Form {
    /** Whether every write is committed at once (the `quick` prop, true by default). */
    var quick: bool
    /** The memoised defaultValues: the literal prop, or `{}` for a producer. */
    const defaultValues: ValueMap
    /** The validation library, applied to the registry and the values. */
    const validator: Validator
    /** The producer's result, until it is applied. */
    var pending: Option<ValueMap>
    /** The live map, written by setValue and setValues. */
    var values: ValueMap
    /** The committed map, exposed as `data`. */
    var resultData: ValueMap
    /** The rule registry (validateSchemas.current). */
    var validateSchemas: Schemas
    /** The last validation verdict (validateErrors). */
    var validateErrors: Verdict
    /** The onChange and onSubmit calls made so far, in order. */
    ghost var outbox: seq<Notice>

    /** The object's state as a FormSpec snapshot. */
    ghost function State(): Snapshot
      reads this
    {
      Snapshot(quick, defaultValues, pending, values, resultData, validateSchemas, validateErrors, outbox)
    }

    /** Mounting the form: resolve the defaults and start with nothing registered or reported. */
    constructor (quick: bool, defaults: Defaults, validator: Validator)
      ensures State() == Initial(quick, defaults)
      ensures this.validator == validator
    {
      this.quick := quick;
      this.validator := validator;
      var start := if defaults.Literal? then defaults.m else map[];
      defaultValues := start;
      pending := if defaults.Producer? then defaults.outcome else None;
      values := start;
      resultData := start;
      validateSchemas := map[];
      validateErrors := None;
      outbox := [];
    }

    /** setValue(key, value). */
    method SetValue(key: string, value: Value)
      modifies this
      ensures State() == SetValueStep(old(State()), key, value)
      ensures values[key] == value
      ensures resultData == old(resultData) && outbox == old(outbox)
    {
      values := values[key := value];
    }

    /** setValues(partial). */
    method SetValues(partial: Value)
      modifies this
      ensures State() == SetValuesStep(old(State()), partial)
      ensures forall k :: k in OwnProps(partial) ==> values[k] == OwnProps(partial)[k]
    {
      values := values + OwnProps(partial);
    }

    /** The quick-mode effect that runs after the live map changes. */
    method Commit()
      modifies this
      ensures State() == CommitStep(old(State()))
      ensures quick ==> resultData == values
      ensures |outbox| <= |old(outbox)| + 1
    {
      if quick && values != resultData {
        outbox := outbox + [Changed(values)];
        resultData := values;
      }
    }

    /** addItem({field, rules}). */
    method AddItem(field: string, rules: Rules)
      modifies this
      ensures State() == AddItemStep(old(State()), field, rules)
    {
      validateSchemas := validateSchemas[field := rules];
    }

    /** validate(): resolves (true) or rejects with validateErrors (false). */
    method Validate() returns (ok: bool)
      modifies this
      ensures State() == ValidateStep(old(State()), validator).0
      ensures ok == ValidateStep(old(State()), validator).1
      ensures validateErrors == validator(old(validateSchemas), old(values))
      ensures ok <==> validateErrors == None
    {
      validateErrors := validator(validateSchemas, values);
      ok := validateErrors == None;
    }

    /** submit(): resolves (true) or rejects with the validation errors (false). */
    method Submit() returns (ok: bool)
      modifies this
      ensures State() == SubmitStep(old(State()), validator).0
      ensures ok == SubmitStep(old(State()), validator).1
      ensures !ok ==> resultData == old(resultData) && outbox == old(outbox)
    {
      ok := Validate();
      if !ok {
        return;
      }
      outbox := outbox + [Submitted(values)];
      if quick {
        return;
      }
      outbox := outbox + [Changed(values)];
      resultData := values;
    }

    /** reset(). */
    method Reset()
      modifies this
      ensures State() == ResetStep(old(State()))
      ensures values == defaultValues
    {
      values := defaultValues;
      if quick {
        resultData := defaultValues;
        outbox := outbox + [Changed(defaultValues)];
      }
    }

    /** A render with a new `quick` prop; the commit effect then follows in Dispatch. */
    method SetQuick(quick: bool)
      modifies this
      ensures State() == old(State()).(quick := quick)
    {
      this.quick := quick;
    }

    /** The producer's result arrives (a synchronous result on mount, or a resolved promise). */
    method ApplyProducedDefaults()
      modifies this
      ensures State() == ArriveStep(old(State()))
    {
      if pending.Some? {
        values := pending.value;
        pending := None;
      }
    }

    /**
     * One event followed, when it wrote the live map or changed the `quick`
     * prop, by the commit effect.
     */
    method Dispatch(e: Event)
      modifies this
      ensures State() == Handle(old(State()), e, validator)
    {
      var commit := Writes(e) || (e.SetQuick? && e.quick != quick);
      match e {
        case SetValue(field, value) => SetValue(field, value);
        case SetValues(partial) => SetValues(partial);
        case AddItem(field, rules) => AddItem(field, rules);
        case Validate => var _ := Validate();
        case Submit => var _ := Submit();
        case Reset => Reset();
        case DefaultsArrive => ApplyProducedDefaults();
        case SetQuick(b) => SetQuick(b);
      }
      if commit {
        Commit();
      }
    }
  }
}
