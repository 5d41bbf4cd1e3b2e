/** The form-filling session of components/FormFillView.tsx: working values, per-field
    errors, the change handlers and submit-time validation. */
module FormFill {
  import opened Schema
  import opened Text
  import opened Seqs
  import opened Wrappers

  /** The message every failed required field gets. */
  const RequiredMessage := "Wajib diisi"

  /** The submit-time test `!v || (Array.isArray(v) && v.length === 0)`. */
  predicate IsUnanswered(v: Value)
    ensures v.Arr? ==> (IsUnanswered(v) <==> v.items == [])
    ensures v.Str? ==> (IsUnanswered(v) <==> v.s == "")
    ensures v.Bool? ==> (IsUnanswered(v) <==> !v.b)
    ensures v.Absent? ==> IsUnanswered(v)
  {
    Falsy(v) || v == Arr([])
  }

  /** A field that blocks submission: required and unanswered. */
  predicate FailsRequired(f: FormField, data: map<string, Value>) {
    f.required && IsUnanswered(Lookup(data, f.id))
  }

  /** Some field with id `k` is required and currently unanswered. */
  ghost predicate IsMissingRequired(fields: seq<FormField>, data: map<string, Value>, k: string) {
    exists i :: 0 <= i < |fields| && fields[i].id == k && FailsRequired(fields[i], data)
  }

  /** The error record built by one submit attempt over `fields`, in template order. */
  function ValidationErrors(fields: seq<FormField>, data: map<string, Value>): (errs: map<string, string>)
    ensures forall k :: k in errs ==> errs[k] == RequiredMessage
    ensures forall k :: k in errs <==> IsMissingRequired(fields, data, k)
    decreases |fields|
  {
    if fields == [] then map[]
    else
      var init := fields[..|fields| - 1];
      var f := fields[|fields| - 1];
      var m := ValidationErrors(init, data);
      assert forall k :: IsMissingRequired(init, data, k) ==> IsMissingRequired(fields, data, k) by {
        forall k | IsMissingRequired(init, data, k) ensures IsMissingRequired(fields, data, k) {
          var i :| 0 <= i < |init| && init[i].id == k && FailsRequired(init[i], data);
          assert fields[i] == init[i];
        }
      }
      assert forall k :: IsMissingRequired(fields, data, k) ==>
          IsMissingRequired(init, data, k) || (k == f.id && FailsRequired(f, data)) by {
        forall k | IsMissingRequired(fields, data, k)
          ensures IsMissingRequired(init, data, k) || (k == f.id && FailsRequired(f, data))
        {
          var i :| 0 <= i < |fields| && fields[i].id == k && FailsRequired(fields[i], data);
          if i < |init| { assert init[i] == fields[i]; }
        }
      }
      if FailsRequired(f, data) then m[f.id := RequiredMessage] else m
  }

  /** The ids of the failing fields in template order: the insertion order of the keys
      of the error record. */
  function FailingIds(fields: seq<FormField>, data: map<string, Value>): (ids: seq<string>)
    ensures forall k :: k in ids <==> IsMissingRequired(fields, data, k)
    decreases |fields|
  {
    if fields == [] then []
    else
      var init := fields[..|fields| - 1];
      var f := fields[|fields| - 1];
      var r := FailingIds(init, data);
      assert forall k :: IsMissingRequired(init, data, k) ==> IsMissingRequired(fields, data, k) by {
        forall k | IsMissingRequired(init, data, k) ensures IsMissingRequired(fields, data, k) {
          var i :| 0 <= i < |init| && init[i].id == k && FailsRequired(init[i], data);
          assert fields[i] == init[i];
        }
      }
      assert forall k :: IsMissingRequired(fields, data, k) ==>
          IsMissingRequired(init, data, k) || (k == f.id && FailsRequired(f, data)) by {
        forall k | IsMissingRequired(fields, data, k)
          ensures IsMissingRequired(init, data, k) || (k == f.id && FailsRequired(f, data))
        {
          var i :| 0 <= i < |fields| && fields[i].id == k && FailsRequired(fields[i], data);
          if i < |init| { assert init[i] == fields[i]; }
        }
      }
      if FailsRequired(f, data) then r + [f.id] else r
  }

  /** The first failing id names the first failing field in template order. */
  lemma {:induction false} FirstFailingField(fields: seq<FormField>, data: map<string, Value>)
    requires FailingIds(fields, data) != []
    ensures exists i :: 0 <= i < |fields|
                && fields[i].id == FailingIds(fields, data)[0]
                && FailsRequired(fields[i], data)
                && forall j :: 0 <= j < i ==> !FailsRequired(fields[j], data)
    decreases |fields|
  {
    var init := fields[..|fields| - 1];
    var n := |fields| - 1;
    if FailingIds(init, data) != [] {
      FirstFailingField(init, data);
      var i :| 0 <= i < |init| && init[i].id == FailingIds(init, data)[0]
               && FailsRequired(init[i], data)
               && forall j :: 0 <= j < i ==> !FailsRequired(init[j], data);
      assert fields[i] == init[i];
      assert forall j :: 0 <= j < i ==> fields[j] == init[j];
    } else {
      assert forall j :: 0 <= j < n ==> !FailsRequired(fields[j], data) by {
        forall j | 0 <= j < n ensures !FailsRequired(fields[j], data) {
          assert init[j] == fields[j];
          if FailsRequired(fields[j], data) {
            assert IsMissingRequired(init, data, init[j].id);
          }
        }
      }
    }
  }

  /** A submit attempt is rejected exactly when some required field is unanswered, and
      then the error record is non-empty. */
  lemma RejectedIffSomeRequiredUnanswered(fields: seq<FormField>, data: map<string, Value>)
    ensures FailingIds(fields, data) != [] <==>
              exists i :: 0 <= i < |fields| && FailsRequired(fields[i], data)
    ensures FailingIds(fields, data) != [] <==> ValidationErrors(fields, data) != map[]
  {
    var ids := FailingIds(fields, data);
    var errs := ValidationErrors(fields, data);
    if exists i :: 0 <= i < |fields| && FailsRequired(fields[i], data) {
      var i :| 0 <= i < |fields| && FailsRequired(fields[i], data);
      assert IsMissingRequired(fields, data, fields[i].id);
      assert fields[i].id in ids;
      assert fields[i].id in errs;
    }
    if ids != [] {
      assert ids[0] in ids;
      assert IsMissingRequired(fields, data, ids[0]);
      assert ids[0] in errs;
    }
    if errs != map[] {
      var k :| k in errs;
      assert k in ids;
    }
  }

  /** The filter kept by unchecking `option`. */
  function Other(option: string): string -> bool {
    (x: string) => x != option
  }

  /** `[...s]` on a string: its characters, each as a one-character string. */
  function Spread(s: string): (cs: seq<string>)
    ensures |cs| == |s| && forall i :: 0 <= i < |s| ==> cs[i] == [s[i]]
  {
    seq(|s|, i requires 0 <= i < |s| => [s[i]])
  }

  /** The values a multi-checkbox field holds after one toggle, or `None` when the
      handler throws. `formData[fieldId] || []` turns a falsy value into the empty
      list; checking spreads the current value and appends; unchecking filters. A
      non-empty string spreads into its characters but has no `filter`; a `true`
      boolean neither spreads nor filters. */
  function ToggleOption(current: Value, option: string, checked: bool): (r: Option<seq<string>>)
    ensures r.None? <==> current == Bool(true) || (current.Str? && current.s != "" && !checked)
    ensures checked && r.Some? ==> |r.value| > 0 && r.value[|r.value| - 1] == option
    ensures !checked && r.Some? ==> option !in r.value
  {
    var base := if Falsy(current) then Arr([]) else current;
    match base
    case Arr(xs) => Some(if checked then xs + [option] else Filter(Other(option), xs))
    case Str(s) => if checked then Some(Spread(s) + [option]) else None
    case _ => None
  }

  /** Checking an option appends it once at the end, with no de-duplication. */
  lemma CheckAppends(xs: seq<string>, option: string)
    ensures ToggleOption(Arr(xs), option, true) == Some(xs + [option])
    ensures ToggleOption(Absent, option, true) == Some([option])
  {
    assert [] + [option] == [option];
  }

  /** Unchecking removes every occurrence of the option and keeps how often each other
      option occurs. */
  lemma UncheckRemovesAll(xs: seq<string>, option: string, other: string)
    ensures ToggleOption(Arr(xs), option, false).Some?
    ensures option !in ToggleOption(Arr(xs), option, false).value
    ensures other != option ==>
              multiset(ToggleOption(Arr(xs), option, false).value)[other] == multiset(xs)[other]
  {
    FilterCount(Other(option), xs, other);
  }

  /** Checking an option that is not selected and then unchecking it restores the
      original selection exactly. */
  lemma CheckThenUncheck(xs: seq<string>, option: string)
    requires option !in xs
    ensures ToggleOption(Arr(xs), option, true) == Some(xs + [option])
    ensures ToggleOption(Arr(xs + [option]), option, false) == Some(xs)
  {
    RemoveAppended(xs, option);
    UncheckFilters(xs + [option], option);
  }

  /** Unchecking a list filters it. */
  lemma UncheckFilters(xs: seq<string>, option: string)
    ensures ToggleOption(Arr(xs), option, false) == Some(Filter(Other(option), xs))
  {
    assert !Falsy(Arr(xs));
  }

  /** Filtering out an option that was appended to a list without it gives the list back. */
  lemma RemoveAppended(xs: seq<string>, option: string)
    requires option !in xs
    ensures Filter(Other(option), xs + [option]) == xs
  {
    var p := Other(option);
    assert forall i :: 0 <= i < |xs| ==> p(xs[i]);
    FilterConcat(p, xs, [option]);
    FilterAll(p, xs);
    assert Filter(p, [option]) == [];
    assert xs + [] == xs;
  }

  /** What a submit attempt produces. */
  datatype SubmitOutcome =
    | Rejected(firstErrorId: string)
    | Submitted(submission: FormSubmission)

  /** One filling session of one template. */
  class FormSession {
    const template: FormTemplate
    var formData: map<string, Value>
    var errors: map<string, string>

    /** Every displayed error is the required-field message and names a required field
        that is unanswered right now: an error never outlives its cause. */
    ghost predicate Valid()
      reads this
    {
      forall k :: k in errors ==>
        errors[k] == RequiredMessage && IsMissingRequired(template.fields, formData, k)
    }

    constructor (t: FormTemplate)
      ensures template == t && formData == map[] && errors == map[]
      ensures Valid()
    {
      template := t;
      formData := map[];
      errors := map[];
    }

    /** `handleChange`: store the value and clear that field's error. */
    method HandleChange(id: string, value: Value)
      requires Valid()
      modifies this
      ensures Valid()
      ensures formData == old(formData)[id := value]
      ensures errors == old(errors) - {id}
    {
      formData := formData[id := value];
      if id in errors && errors[id] != "" {
        errors := errors - {id};
      }
      forall k | k in errors ensures IsMissingRequired(template.fields, formData, k) {
        MissingUnaffected(template.fields, old(formData), id, value, k);
      }
    }

    /** `handleMultiCheckboxChange`: toggle one option of a multi-checkbox field. */
    method HandleMultiCheckboxChange(fieldId: string, option: string, checked: bool)
      requires Valid()
      modifies this
      ensures Valid()
      ensures var next := ToggleOption(Lookup(old(formData), fieldId), option, checked);
              if next.Some? then
                formData == old(formData)[fieldId := Arr(next.value)] && errors == old(errors) - {fieldId}
              else
                formData == old(formData) && errors == old(errors)
    {
      var next := ToggleOption(Lookup(formData, fieldId), option, checked);
      if next.Some? {
        HandleChange(fieldId, Arr(next.value));
      }
    }

    /** The completion of `handleFileChange`: the image read as a data URI is stored as
        the field's string value. */
    method HandleFileLoaded(id: string, dataUri: string)
      requires Valid()
      modifies this
      ensures Valid()
      ensures formData == old(formData)[id := Str(dataUri)]
      ensures errors == old(errors) - {id}
    {
      HandleChange(id, Str(dataUri));
    }

    /** `handleSubmit` at clock reading `now`: validate every field in template order;
        either replace the error record and report the first failing field, or emit
        one submission carrying the whole working record. */
    method HandleSubmit(now: nat) returns (outcome: SubmitOutcome)
      requires Valid()
      modifies this
      ensures Valid()
      ensures formData == old(formData)
      ensures outcome.Rejected? <==> FailingIds(template.fields, formData) != []
      ensures outcome.Rejected? ==>
                && errors == ValidationErrors(template.fields, formData)
                && outcome.firstErrorId == FailingIds(template.fields, formData)[0]
      ensures outcome.Submitted? ==>
                && errors == old(errors)
                && outcome.submission == FormSubmission(NatToString(now), template.id, formData, now)
    {
      var fields := template.fields;
      var newErrors: map<string, string> := map[];
      var order: seq<string> := [];
      var i := 0;
      while i < |fields|
        invariant 0 <= i <= |fields|
        invariant newErrors == ValidationErrors(fields[..i], formData)
        invariant order == FailingIds(fields[..i], formData)
      {
        var f := fields[i];
        assert fields[..i + 1][..i] == fields[..i];
        if f.required && IsUnanswered(Lookup(formData, f.id)) {
          newErrors := newErrors[f.id := RequiredMessage];
          order := order + [f.id];
        }
        i := i + 1;
      }
      assert fields[..i] == fields;
      RejectedIffSomeRequiredUnanswered(fields, formData);
      if |newErrors| > 0 {
        errors := newErrors;
        outcome := Rejected(order[0]);
        return;
      }
      assert newErrors == map[];
      outcome := Submitted(FormSubmission(NatToString(now), template.id, formData, now));
    }
  }

  /** Writing one key leaves whether any other id is a missing required field as it was. */
  lemma MissingUnaffected(fields: seq<FormField>, data: map<string, Value>, id: string, v: Value, k: string)
    requires k != id
    ensures IsMissingRequired(fields, data[id := v], k) <==> IsMissingRequired(fields, data, k)
  {
    assert Lookup(data[id := v], k) == Lookup(data, k);
    if IsMissingRequired(fields, data, k) {
      var i :| 0 <= i < |fields| && fields[i].id == k && FailsRequired(fields[i], data);
      assert FailsRequired(fields[i], data[id := v]);
    }
    if IsMissingRequired(fields, data[id := v], k) {
      var i :| 0 <= i < |fields| && fields[i].id == k && FailsRequired(fields[i], data[id := v]);
      assert FailsRequired(fields[i], data);
    }
  }
}
