/** The public form page: which fields are visible, which required ones are
    missing, what the form starts with and what it submits. */
module Viewer {
  import opened Common
  import opened Schema

  /** The value an empty form holds for a field: `false` for a checkbox, `""` otherwise. */
  function DefaultValue(f: FieldSpec): Value {
    if f.fieldType == "checkbox" then Bool(false) else Str("")
  }

  /** The form data the reduce over the configured fields builds: one entry per
      field name, a later field with the same name overwriting an earlier one. */
  function InitialData(fs: seq<FieldSpec>): map<string, Value>
    decreases |fs|
  {
    if fs == [] then map[]
    else
      var f := fs[|fs| - 1];
      InitialData(fs[..|fs| - 1])[f.name := DefaultValue(f)]
  }

  /** The initial data has an entry for exactly the field names; a field (the
      last with its name) starts at `false` if it is a checkbox and at `""` otherwise. */
  lemma InitialDataShape(fs: seq<FieldSpec>)
    ensures InitialData(fs).Keys == set f | f in fs :: f.name
    ensures forall i :: 0 <= i < |fs| && (forall j :: i < j < |fs| ==> fs[j].name != fs[i].name) ==>
      InitialData(fs)[fs[i].name] == (if fs[i].fieldType == "checkbox" then Bool(false) else Str(""))
  {
    InitialDataKeys(fs);
    forall i | 0 <= i < |fs| && (forall j :: i < j < |fs| ==> fs[j].name != fs[i].name)
      ensures InitialData(fs)[fs[i].name] == DefaultValue(fs[i])
    {
      InitialDataAt(fs, i);
    }
  }

  lemma {:induction false} InitialDataKeys(fs: seq<FieldSpec>)
    ensures InitialData(fs).Keys == set f | f in fs :: f.name
    decreases |fs|
  {
    if fs != [] {
      InitialDataKeys(fs[..|fs| - 1]);
      assert fs == fs[..|fs| - 1] + [fs[|fs| - 1]];
    }
  }

  /** The entry under a field's name is that field's default when no later field shares the name. */
  lemma {:induction false} InitialDataAt(fs: seq<FieldSpec>, i: int)
    requires 0 <= i < |fs| && forall j :: i < j < |fs| ==> fs[j].name != fs[i].name
    ensures fs[i].name in InitialData(fs) && InitialData(fs)[fs[i].name] == DefaultValue(fs[i])
    decreases |fs|
  {
    var n := |fs| - 1;
    if i < n {
      var pre := fs[..n];
      assert pre[i] == fs[i];
      assert fs[n].name != fs[i].name;
      InitialDataAt(pre, i);
    }
  }

  /** The loop that fills the initial form data field by field. */
  method BuildInitialData(fs: seq<FieldSpec>) returns (acc: map<string, Value>)
    ensures acc == InitialData(fs)
  {
    acc := map[];
    var i := 0;
    while i < |fs|
      invariant 0 <= i <= |fs|
      invariant acc == InitialData(fs[..i])
    {
      assert fs[..i + 1][..i] == fs[..i];
      acc := acc[fs[i].name := DefaultValue(fs[i])];
      i := i + 1;
    }
    assert fs[..i] == fs;
  }

  /** The first configured field with the given Airtable id. */
  function ControllerOf(config: seq<FieldSpec>, id: string): Option<FieldSpec> {
    FindFirst(config, (f: FieldSpec) => f.airtableFieldId == id)
  }

  /** The first configured field with the given name. */
  function FieldNamed(config: seq<FieldSpec>, name: string): Option<FieldSpec> {
    FindFirst(config, (f: FieldSpec) => f.name == name)
  }

  /** The expected controller value: "true" and "false" become booleans. */
  function Expected(equalsValue: string): Value {
    if equalsValue == "true" then Bool(true)
    else if equalsValue == "false" then Bool(false)
    else Str(equalsValue)
  }

  /** `isFieldVisible`: a field is shown unless it has a condition whose
      controller is configured and holds a value other than the expected one
      (compared with `===`). */
  predicate IsVisible(config: seq<FieldSpec>, formData: map<string, Value>, f: FieldSpec) {
    match f.conditional
    case None => true
    case Some(c) =>
      match ControllerOf(config, c.showIfField)
      case None => true
      case Some(ctrl) => Lookup(formData, ctrl.name) == Expected(c.equalsValue)
  }

  /** A field without a condition is visible. */
  lemma VisibleWithoutConditional(config: seq<FieldSpec>, formData: map<string, Value>, f: FieldSpec)
    requires f.conditional.None?
    ensures IsVisible(config, formData, f)
  {
  }

  /** A field whose controller id names no configured field is visible. */
  lemma VisibleWithUnknownController(config: seq<FieldSpec>, formData: map<string, Value>, f: FieldSpec)
    requires f.conditional.Some?
    requires forall i :: 0 <= i < |config| ==> config[i].airtableFieldId != f.conditional.value.showIfField
    ensures IsVisible(config, formData, f)
  {
  }

  /** Otherwise the field is visible exactly when the value under the name of
      the first field with the controller id strictly equals the expected value. */
  lemma VisibleIffControllerMatches(config: seq<FieldSpec>, formData: map<string, Value>, f: FieldSpec, i: int)
    requires f.conditional.Some?
    requires IsFirst(config, (g: FieldSpec) => g.airtableFieldId == f.conditional.value.showIfField, i)
    ensures IsVisible(config, formData, f) <==>
      Lookup(formData, config[i].name) == Expected(f.conditional.value.equalsValue)
  {
    FindFirstAt(config, (g: FieldSpec) => g.airtableFieldId == f.conditional.value.showIfField, i);
  }

  /** With a condition "equals true", a checked controller shows the field, an
      unchecked one hides it, and so does the text "true" (no loose equality). */
  lemma CheckboxController(config: seq<FieldSpec>, formData: map<string, Value>, f: FieldSpec, i: int)
    requires f.conditional.Some? && f.conditional.value.equalsValue == "true"
    requires IsFirst(config, (g: FieldSpec) => g.airtableFieldId == f.conditional.value.showIfField, i)
    ensures Lookup(formData, config[i].name) == Bool(true) ==> IsVisible(config, formData, f)
    ensures Lookup(formData, config[i].name) == Bool(false) ==> !IsVisible(config, formData, f)
    ensures Lookup(formData, config[i].name) == Str("true") ==> !IsVisible(config, formData, f)
  {
    VisibleIffControllerMatches(config, formData, f, i);
  }

  /** A value is missing when it is falsy and not a boolean. */
  predicate Missing(v: Value) {
    !Truthy(v) && !v.Bool?
  }

  /** Only the empty string and `undefined` are missing; `false` never is. */
  lemma MissingValues(v: Value)
    ensures Missing(v) <==> v == Str("") || v == Absent
  {
  }

  /** A visible required field whose value is missing. */
  predicate Flagged(config: seq<FieldSpec>, formData: map<string, Value>, f: FieldSpec) {
    IsVisible(config, formData, f) && f.isRequired && Missing(Lookup(formData, f.name))
  }

  function ErrorMessage(f: FieldSpec): string {
    f.formLabel + " is required."
  }

  /** The errors the `forEach` over `fs` records, keyed by field name, a later
      field overwriting the message of an earlier one with the same name. */
  function Errors(config: seq<FieldSpec>, fs: seq<FieldSpec>, formData: map<string, Value>): map<string, string>
    decreases |fs|
  {
    if fs == [] then map[]
    else
      var f := fs[|fs| - 1];
      var rest := Errors(config, fs[..|fs| - 1], formData);
      if Flagged(config, formData, f) then rest[f.name := ErrorMessage(f)] else rest
  }

  /** There is an error under a name exactly when some field of that name is
      visible, required and missing; the message is that of the last such field. */
  lemma ErrorsShape(config: seq<FieldSpec>, fs: seq<FieldSpec>, formData: map<string, Value>)
    ensures forall name :: name in Errors(config, fs, formData) <==>
      exists i :: 0 <= i < |fs| && fs[i].name == name && Flagged(config, formData, fs[i])
    ensures forall i ::
      (0 <= i < |fs| && Flagged(config, formData, fs[i]) &&
       forall j :: i < j < |fs| && Flagged(config, formData, fs[j]) ==> fs[j].name != fs[i].name) ==>
      Errors(config, fs, formData)[fs[i].name] == fs[i].formLabel + " is required."
  {
    forall name ensures name in Errors(config, fs, formData) <==>
      exists i :: 0 <= i < |fs| && fs[i].name == name && Flagged(config, formData, fs[i])
    {
      ErrorsHas(config, fs, formData, name);
    }
    forall i | 0 <= i < |fs| && Flagged(config, formData, fs[i]) &&
      (forall j :: i < j < |fs| && Flagged(config, formData, fs[j]) ==> fs[j].name != fs[i].name)
      ensures Errors(config, fs, formData)[fs[i].name] == ErrorMessage(fs[i])
    {
      ErrorsAt(config, fs, formData, i);
    }
  }

  lemma {:induction false} ErrorsHas(config: seq<FieldSpec>, fs: seq<FieldSpec>, formData: map<string, Value>, name: string)
    ensures name in Errors(config, fs, formData) <==>
      exists i :: 0 <= i < |fs| && fs[i].name == name && Flagged(config, formData, fs[i])
    decreases |fs|
  {
    if fs != [] {
      var n := |fs| - 1;
      var pre := fs[..n];
      ErrorsHas(config, pre, formData, name);
      if name in Errors(config, fs, formData) && !(Flagged(config, formData, fs[n]) && fs[n].name == name) {
        assert name in Errors(config, pre, formData);
        var i :| 0 <= i < |pre| && pre[i].name == name && Flagged(config, formData, pre[i]);
        assert fs[i] == pre[i];
      }
      if exists i :: 0 <= i < |fs| && fs[i].name == name && Flagged(config, formData, fs[i]) {
        var i :| 0 <= i < |fs| && fs[i].name == name && Flagged(config, formData, fs[i]);
        if i < n { assert pre[i] == fs[i]; }
      }
    }
  }

  /** The message under a flagged field's name is its own when no later flagged field shares the name. */
  lemma {:induction false} ErrorsAt(config: seq<FieldSpec>, fs: seq<FieldSpec>, formData: map<string, Value>, i: int)
    requires 0 <= i < |fs| && Flagged(config, formData, fs[i])
    requires forall j :: i < j < |fs| && Flagged(config, formData, fs[j]) ==> fs[j].name != fs[i].name
    ensures fs[i].name in Errors(config, fs, formData)
    ensures Errors(config, fs, formData)[fs[i].name] == ErrorMessage(fs[i])
    decreases |fs|
  {
    var n := |fs| - 1;
    if i < n {
      var pre := fs[..n];
      assert pre[i] == fs[i];
      assert Flagged(config, formData, fs[n]) ==> fs[n].name != fs[i].name;
      ErrorsAt(config, pre, formData, i);
    }
  }

  /** `validateForm`: the errors over all configured fields, and whether there are none. */
  method Validate(config: seq<FieldSpec>, formData: map<string, Value>) returns (errors: map<string, string>, ok: bool)
    ensures errors == Errors(config, config, formData)
    ensures ok <==> errors == map[]
  {
    errors := map[];
    var i := 0;
    while i < |config|
      invariant 0 <= i <= |config|
      invariant errors == Errors(config, config[..i], formData)
    {
      assert config[..i + 1][..i] == config[..i];
      var f := config[i];
      if IsVisible(config, formData, f) && f.isRequired {
        var value := Lookup(formData, f.name);
        if !Truthy(value) && !value.Bool? {
          errors := errors[f.name := ErrorMessage(f)];
        }
      }
      i := i + 1;
    }
    assert config[..i] == config;
    ok := |errors.Keys| == 0;
    assert ok <==> errors == map[] by {
      if errors != map[] { var k :| k in errors; }
    }
  }

  /** The form validates exactly when no configured field is visible, required and missing. */
  lemma ValidIffNothingFlagged(config: seq<FieldSpec>, formData: map<string, Value>)
    ensures Errors(config, config, formData) == map[] <==>
      forall i :: 0 <= i < |config| ==> !Flagged(config, formData, config[i])
  {
    ErrorsShape(config, config, formData);
    if exists i :: 0 <= i < |config| && Flagged(config, formData, config[i]) {
      var i :| 0 <= i < |config| && Flagged(config, formData, config[i]);
      assert config[i].name in Errors(config, config, formData);
    }
  }

  /** Every recorded message is non-empty, so the page's truthiness test on it shows it. */
  lemma ErrorMessagesNonEmpty(config: seq<FieldSpec>, fs: seq<FieldSpec>, formData: map<string, Value>)
    ensures forall name | name in Errors(config, fs, formData) :: Errors(config, fs, formData)[name] != ""
    decreases |fs|
  {
    if fs != [] {
      ErrorMessagesNonEmpty(config, fs[..|fs| - 1], formData);
      var f := fs[|fs| - 1];
      assert |ErrorMessage(f)| >= |" is required."|;
    }
  }

  /** A value is submitted when it is truthy or a boolean. */
  predicate Submittable(v: Value) {
    Truthy(v) || v.Bool?
  }

  /** Whether the submission carries key `k`: the first field named `k` is
      visible and the value is truthy or a boolean. */
  predicate Submits(config: seq<FieldSpec>, formData: map<string, Value>, k: string)
    requires k in formData
  {
    match FieldNamed(config, k)
    case None => false
    case Some(f) => IsVisible(config, formData, f) && Submittable(formData[k])
  }

  /** The submission data, as a reference definition over the keys of the form data. */
  function SubmissionData(config: seq<FieldSpec>, formData: map<string, Value>): map<string, Value> {
    map k | k in formData && Submits(config, formData, k) :: formData[k]
  }

  /** The submission has key `k` exactly when the form data has it, a field
      named `k` is configured, the first such field is visible, and the value is
      a boolean or a non-empty string; included values are copied unchanged. */
  lemma SubmissionShape(config: seq<FieldSpec>, formData: map<string, Value>, k: string)
    ensures k in SubmissionData(config, formData) <==>
      k in formData &&
      (exists i :: IsFirst(config, (f: FieldSpec) => f.name == k, i) && IsVisible(config, formData, config[i])) &&
      (formData[k].Bool? || (formData[k].Str? && formData[k].s != ""))
    ensures k in SubmissionData(config, formData) ==> SubmissionData(config, formData)[k] == formData[k]
  {
    if k in formData {
      match FieldNamed(config, k)
      case None =>
      case Some(f) =>
        var p := (f: FieldSpec) => f.name == k;
        var i :| IsFirst(config, p, i) && config[i] == f;
        forall j | IsFirst(config, p, j) ensures j == i {
          FindFirstAt(config, p, j);
        }
    }
  }

  /** The loop of the confirm handler over the form's keys that builds the submission. */
  method BuildSubmission(config: seq<FieldSpec>, formData: map<string, Value>) returns (acc: map<string, Value>)
    ensures acc == SubmissionData(config, formData)
  {
    acc := map[];
    var todo := formData.Keys;
    while todo != {}
      invariant todo <= formData.Keys
      invariant forall k :: k in acc <==> k in formData && k !in todo && Submits(config, formData, k)
      invariant forall k | k in acc :: acc[k] == formData[k]
      decreases todo
    {
      var k :| k in todo;
      var field := FieldNamed(config, k);
      if field.Some? && IsVisible(config, formData, field.value) && (Truthy(formData[k]) || formData[k].Bool?) {
        acc := acc[k := formData[k]];
      }
      todo := todo - {k};
    }
  }

  datatype ViewMode = FormView | PreviewView

  /** The state of the form page once its configuration has loaded. */
  class ViewerPage {
    const config: seq<FieldSpec>
    var formData: map<string, Value>
    var errors: map<string, string>
    var viewMode: ViewMode

    /** Every recorded error message is non-empty. */
    ghost predicate Valid()
      reads this
    {
      forall name | name in errors :: errors[name] != ""
    }

    /** The configuration arrives: the form starts from the initial data. */
    constructor (config: seq<FieldSpec>)
      ensures Valid()
      ensures this.config == config && formData == InitialData(config)
      ensures errors == map[] && viewMode == FormView
    {
      var data := BuildInitialData(config);
      this.config := config;
      formData := data;
      errors := map[];
      viewMode := FormView;
    }

    /** An input changes: only its entry is set, and only its own error is cleared. */
    method InputChange(name: string, value: Value)
      requires Valid()
      modifies this`formData, this`errors
      ensures Valid()
      ensures formData == old(formData)[name := value]
      ensures errors == old(errors) - {name}
    {
      formData := formData[name := value];
      if name in errors && errors[name] != "" {
        errors := errors - {name};
      }
    }

    /** The preview button: validate, and switch to the preview only when valid. */
    method Preview() returns (ok: bool)
      requires Valid()
      modifies this`errors, this`viewMode
      ensures Valid()
      ensures errors == Errors(config, config, formData)
      ensures ok <==> errors == map[]
      ensures viewMode == if ok then PreviewView else old(viewMode)
    {
      var newErrors;
      newErrors, ok := Validate(config, formData);
      ErrorMessagesNonEmpty(config, config, formData);
      errors := newErrors;
      if ok {
        viewMode := PreviewView;
      }
    }

    /** The edit button of the preview. */
    method Edit()
      modifies this`viewMode
      ensures viewMode == FormView
    {
      viewMode := FormView;
    }

    /** The confirm button: the submission is built from the current data; on
        success the page returns to the form and the data is reset. */
    method ConfirmSubmit(succeeded: bool) returns (submission: map<string, Value>)
      requires Valid()
      modifies this`formData, this`viewMode
      ensures Valid()
      ensures submission == SubmissionData(config, old(formData))
      ensures succeeded ==> viewMode == FormView && formData == InitialData(config)
      ensures !succeeded ==> viewMode == old(viewMode) && formData == old(formData)
    {
      submission := BuildSubmission(config, formData);
      if succeeded {
        viewMode := FormView;
        formData := BuildInitialData(config);
      }
    }
  }
}
