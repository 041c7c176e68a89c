/** The form builder page: which of a table's fields it offers, the per-field
    configuration the user edits, and the field list it saves. */
module Builder {
  import opened Common
  import opened Schema

  /** The field types the builder offers; fields of any other type are dropped. */
  const SupportedFieldTypes: seq<string> :=
    ["singleLineText", "multilineText", "singleSelect", "multipleSelects", "attachment"]

  predicate IsSupported(f: Field) {
    f.fieldType in SupportedFieldTypes
  }

  /** The fields of a table the builder shows: those of a supported type, in table order. */
  function SupportedFields(fs: seq<Field>): (r: seq<Field>)
    ensures forall f | f in r :: f in fs && IsSupported(f)
    ensures forall i | 0 <= i < |fs| && IsSupported(fs[i]) :: fs[i] in r
  {
    Filter(fs, IsSupported)
  }

  /** The filter keeps the table's order: it distributes over concatenation. */
  lemma SupportedFieldsKeepOrder(a: seq<Field>, b: seq<Field>)
    ensures SupportedFields(a + b) == SupportedFields(a) + SupportedFields(b)
  {
    FilterAppend(a, b, IsSupported);
  }

  /** Exactly the five listed type tags are supported. */
  lemma SupportedTypesAreFive(f: Field)
    ensures IsSupported(f) <==>
      f.fieldType == "singleLineText" || f.fieldType == "multilineText" ||
      f.fieldType == "singleSelect" || f.fieldType == "multipleSelects" ||
      f.fieldType == "attachment"
  {
  }

  /** What the user chose for one field. */
  datatype FieldConfig = FieldConfig(
    isIncluded: bool,  // `include` in the source; a Dafny keyword
    formLabel: string,  // `label` in the source
    isRequired: bool,
    conditionalField: string,
    conditionalValue: string)

  /** The five keys of a field configuration. */
  datatype FieldConfigKey = IncludeKey | LabelKey | IsRequiredKey | ConditionalFieldKey | ConditionalValueKey

  /** Reading key `k` of a configuration, as the object property it is in the page. */
  function Get(c: FieldConfig, k: FieldConfigKey): Value {
    match k
    case IncludeKey => Bool(c.isIncluded)
    case LabelKey => Str(c.formLabel)
    case IsRequiredKey => Bool(c.isRequired)
    case ConditionalFieldKey => Str(c.conditionalField)
    case ConditionalValueKey => Str(c.conditionalValue)
  }

  /** The five keys determine a configuration. */
  lemma GetDetermines(a: FieldConfig, b: FieldConfig)
    requires forall k :: Get(a, k) == Get(b, k)
    ensures a == b
  {
    assert Get(a, IncludeKey) == Get(b, IncludeKey);
    assert Get(a, LabelKey) == Get(b, LabelKey);
    assert Get(a, IsRequiredKey) == Get(b, IsRequiredKey);
    assert Get(a, ConditionalFieldKey) == Get(b, ConditionalFieldKey);
    assert Get(a, ConditionalValueKey) == Get(b, ConditionalValueKey);
  }

  /** One edit from the page: the key and the value its input produced
      (a checkbox gives a boolean, a text input or a select a string). */
  datatype ConfigEdit =
    | SetInclude(b: bool)
    | SetLabel(s: string)
    | SetRequired(b: bool)
    | SetConditionalField(s: string)
    | SetConditionalValue(s: string)

  function KeyOfEdit(e: ConfigEdit): FieldConfigKey {
    match e
    case SetInclude(_) => IncludeKey
    case SetLabel(_) => LabelKey
    case SetRequired(_) => IsRequiredKey
    case SetConditionalField(_) => ConditionalFieldKey
    case SetConditionalValue(_) => ConditionalValueKey
  }

  function ValueOf(e: ConfigEdit): Value {
    match e
    case SetInclude(b) => Bool(b)
    case SetLabel(s) => Str(s)
    case SetRequired(b) => Bool(b)
    case SetConditionalField(s) => Str(s)
    case SetConditionalValue(s) => Str(s)
  }

  /** The initial configuration of one field. */
  function DefaultConfig(f: Field): FieldConfig {
    FieldConfig(true, f.name, false, "", "")
  }

  /** The configuration the reduce over the supported fields builds: one entry
      per field id, a later field with the same id overwriting an earlier one. */
  function InitialConfig(fs: seq<Field>): map<string, FieldConfig>
    decreases |fs|
  {
    if fs == [] then map[]
    else
      var f := fs[|fs| - 1];
      InitialConfig(fs[..|fs| - 1])[f.id := DefaultConfig(f)]
  }

  /** The initial configuration has an entry for exactly the field ids; the
      entry of a field (the last with its id) is included, labelled with the
      field's name, not required and without a condition. */
  lemma InitialConfigShape(fs: seq<Field>)
    ensures InitialConfig(fs).Keys == set f | f in fs :: f.id
    ensures forall i :: 0 <= i < |fs| && (forall j :: i < j < |fs| ==> fs[j].id != fs[i].id) ==>
      InitialConfig(fs)[fs[i].id] == DefaultConfig(fs[i])
    ensures forall id | id in InitialConfig(fs) ::
      var c := InitialConfig(fs)[id];
      c.isIncluded && !c.isRequired && c.conditionalField == "" && c.conditionalValue == ""
  {
    InitialConfigKeys(fs);
    forall i | 0 <= i < |fs| && (forall j :: i < j < |fs| ==> fs[j].id != fs[i].id)
      ensures InitialConfig(fs)[fs[i].id] == DefaultConfig(fs[i])
    {
      InitialConfigAt(fs, i);
    }
    InitialConfigEntries(fs);
  }

  lemma {:induction false} InitialConfigKeys(fs: seq<Field>)
    ensures InitialConfig(fs).Keys == set f | f in fs :: f.id
    decreases |fs|
  {
    if fs != [] {
      InitialConfigKeys(fs[..|fs| - 1]);
      assert fs == fs[..|fs| - 1] + [fs[|fs| - 1]];
    }
  }

  /** The entry under a field's id is that field's default when no later field shares the id. */
  lemma {:induction false} InitialConfigAt(fs: seq<Field>, i: int)
    requires 0 <= i < |fs| && forall j :: i < j < |fs| ==> fs[j].id != fs[i].id
    ensures fs[i].id in InitialConfig(fs) && InitialConfig(fs)[fs[i].id] == DefaultConfig(fs[i])
    decreases |fs|
  {
    var n := |fs| - 1;
    if i < n {
      var pre := fs[..n];
      assert pre[i] == fs[i];
      assert fs[n].id != fs[i].id;
      InitialConfigAt(pre, i);
    }
  }

  lemma {:induction false} InitialConfigEntries(fs: seq<Field>)
    ensures forall id | id in InitialConfig(fs) ::
      var c := InitialConfig(fs)[id];
      c.isIncluded && !c.isRequired && c.conditionalField == "" && c.conditionalValue == ""
    decreases |fs|
  {
    if fs != [] {
      InitialConfigEntries(fs[..|fs| - 1]);
    }
  }

  /** The loop of the table handler that fills the initial configuration field by field. */
  method BuildInitialConfig(fs: seq<Field>) returns (acc: map<string, FieldConfig>)
    ensures acc == InitialConfig(fs)
  {
    acc := map[];
    var i := 0;
    while i < |fs|
      invariant 0 <= i <= |fs|
      invariant acc == InitialConfig(fs[..i])
    {
      assert fs[..i + 1][..i] == fs[..i];
      acc := acc[fs[i].id := DefaultConfig(fs[i])];
      i := i + 1;
    }
    assert fs[..i] == fs;
  }

  /** A configuration edit copies the map and the edited entry: the one key of
      the one entry is replaced, every other key and every other entry kept. */
  function UpdateFieldConfig(cfg: map<string, FieldConfig>, fieldId: string, e: ConfigEdit): (r: map<string, FieldConfig>)
    requires fieldId in cfg
    ensures r.Keys == cfg.Keys
    ensures forall id | id in cfg && id != fieldId :: r[id] == cfg[id]
    ensures forall k :: Get(r[fieldId], k) == if k == KeyOfEdit(e) then ValueOf(e) else Get(cfg[fieldId], k)
  {
    var c := cfg[fieldId];
    var c' := match e
      case SetInclude(b) => c.(isIncluded := b)
      case SetLabel(s) => c.(formLabel := s)
      case SetRequired(b) => c.(isRequired := b)
      case SetConditionalField(s) => c.(conditionalField := s)
      case SetConditionalValue(s) => c.(conditionalValue := s);
    cfg[fieldId := c']
  }

  /** A field is saved when its entry says include; a field without an entry is left out. */
  predicate Included(cfg: map<string, FieldConfig>, f: Field) {
    f.id in cfg && cfg[f.id].isIncluded
  }

  /** The saved condition: present only when both condition inputs are non-empty. */
  function ConditionalOf(c: FieldConfig): (r: Option<Conditional>)
    ensures r.Some? <==> c.conditionalField != "" && c.conditionalValue != ""
    ensures r.Some? ==> r.value.showIfField == c.conditionalField && r.value.equalsValue == c.conditionalValue
  {
    if Truthy(Str(c.conditionalField)) && Truthy(Str(c.conditionalValue))
    then Some(Conditional(c.conditionalField, c.conditionalValue))
    else None
  }

  /** The saved description of one included field. */
  function SpecOf(f: Field, c: FieldConfig): FieldSpec {
    FieldSpec(f.id, f.name, c.formLabel, c.isRequired, f.fieldType, f.options, ConditionalOf(c))
  }

  /** The fields the user kept, in table order. */
  function IncludedFields(fs: seq<Field>, cfg: map<string, FieldConfig>): (r: seq<Field>)
    ensures forall f | f in r :: f in fs && Included(cfg, f)
    ensures forall i | 0 <= i < |fs| && Included(cfg, fs[i]) :: fs[i] in r
  {
    Filter(fs, f => Included(cfg, f))
  }

  /** The field list of the save handler. The i-th saved spec
      comes from the i-th included field: id, name, type and options from the
      table's field, label and required flag from its configuration, and a
      condition exactly when both condition inputs are filled in. */
  function FinalFields(fs: seq<Field>, cfg: map<string, FieldConfig>): (r: seq<FieldSpec>)
    ensures |r| == |IncludedFields(fs, cfg)|
    ensures forall i | 0 <= i < |r| ::
      var f := IncludedFields(fs, cfg)[i];
      f.id in cfg && cfg[f.id].isIncluded &&
      r[i].airtableFieldId == f.id && r[i].name == f.name &&
      r[i].fieldType == f.fieldType && r[i].options == f.options &&
      r[i].formLabel == cfg[f.id].formLabel && r[i].isRequired == cfg[f.id].isRequired &&
      (r[i].conditional.Some? <==> cfg[f.id].conditionalField != "" && cfg[f.id].conditionalValue != "") &&
      (r[i].conditional.Some? ==>
        r[i].conditional.value == Conditional(cfg[f.id].conditionalField, cfg[f.id].conditionalValue))
  {
    var inc := IncludedFields(fs, cfg);
    assert forall i | 0 <= i < |inc| :: Included(cfg, inc[i]) by {
      forall i | 0 <= i < |inc| ensures Included(cfg, inc[i]) { assert inc[i] in inc; }
    }
    var r := seq(|inc|, i requires 0 <= i < |inc| => SpecOf(inc[i], cfg[inc[i].id]));
    assert forall i | 0 <= i < |r| :: r[i] == SpecOf(inc[i], cfg[inc[i].id]);
    r
  }

  /** The saved list follows the table's order: it distributes over concatenation. */
  lemma FinalFieldsKeepOrder(a: seq<Field>, b: seq<Field>, cfg: map<string, FieldConfig>)
    ensures FinalFields(a + b, cfg) == FinalFields(a, cfg) + FinalFields(b, cfg)
  {
    FilterAppend(a, b, f => Included(cfg, f));
    var l, r := FinalFields(a + b, cfg), FinalFields(a, cfg) + FinalFields(b, cfg);
    assert |l| == |r|;
    forall i | 0 <= i < |l| ensures l[i] == r[i] {
      if i < |FinalFields(a, cfg)| {
        assert IncludedFields(a + b, cfg)[i] == IncludedFields(a, cfg)[i];
      } else {
        var k := i - |FinalFields(a, cfg)|;
        assert IncludedFields(a + b, cfg)[i] == IncludedFields(b, cfg)[k];
      }
    }
  }

  /** The saved table name: that of the first loaded table with the selected id, or empty. */
  function TableName(tables: seq<Table>, selected: string): (r: string)
    ensures (forall i :: 0 <= i < |tables| ==> tables[i].id != selected) ==> r == ""
    ensures forall i :: IsFirst(tables, (t: Table) => t.id == selected, i) ==> r == tables[i].name
  {
    match FindFirst(tables, (t: Table) => t.id == selected)
    case Some(t) => (forall i | IsFirst(tables, (t: Table) => t.id == selected, i) ensures t == tables[i] {
                       FindFirstAt(tables, (t: Table) => t.id == selected, i);
                     }
                     t.name)
    case None => ""
  }

  /** The state of the builder page. */
  class BuilderPage {
    const userId: string
    var selectedBase: string
    var selectedTable: string
    var tables: seq<Table>
    var fields: seq<Field>
    var fieldConfig: map<string, FieldConfig>

    /** Every field on show has a configuration entry. */
    ghost predicate Valid()
      reads this
    {
      forall f | f in fields :: f.id in fieldConfig
    }

    constructor (userId: string)
      ensures Valid()
      ensures this.userId == userId && selectedBase == "" && selectedTable == ""
      ensures tables == [] && fields == [] && fieldConfig == map[]
    {
      this.userId := userId;
      selectedBase, selectedTable := "", "";
      tables, fields, fieldConfig := [], [], map[];
    }

    /** Choosing a base forgets the table, the tables, the fields and the configuration. */
    method BaseChange(baseId: string)
      modifies this
      ensures Valid()
      ensures selectedBase == baseId && selectedTable == ""
      ensures tables == [] && fields == [] && fieldConfig == map[]
    {
      selectedBase := baseId;
      selectedTable := "";
      fields := [];
      tables := [];
      fieldConfig := map[];
    }

    /** The tables of the chosen base arrive. */
    method TablesLoaded(ts: seq<Table>)
      requires Valid()
      modifies this`tables
      ensures Valid() && tables == ts
    {
      tables := ts;
    }

    /** Choosing a table forgets the fields and the configuration, and keeps the base and tables. */
    method TableChange(tableId: string)
      modifies this`selectedTable, this`fields, this`fieldConfig
      ensures Valid()
      ensures selectedTable == tableId && fields == [] && fieldConfig == map[]
    {
      selectedTable := tableId;
      fields := [];
      fieldConfig := map[];
    }

    /** The chosen table's fields arrive: keep the supported ones and configure them by default. */
    method FieldsLoaded(tableFields: seq<Field>)
      modifies this`fields, this`fieldConfig
      ensures Valid()
      ensures fields == SupportedFields(tableFields)
      ensures fieldConfig == InitialConfig(fields)
    {
      fields := SupportedFields(tableFields);
      fieldConfig := BuildInitialConfig(fields);
      InitialConfigShape(fields);
    }

    /** One input of one field's configuration changes. Every input is rendered
        for a field on show, so its id has an entry. */
    method FieldConfigChange(fieldId: string, e: ConfigEdit)
      requires Valid() && exists f :: f in fields && f.id == fieldId
      modifies this`fieldConfig
      ensures Valid()
      ensures fieldConfig == UpdateFieldConfig(old(fieldConfig), fieldId, e)
    {
      assert fieldId in fieldConfig;
      fieldConfig := UpdateFieldConfig(fieldConfig, fieldId, e);
    }

    /** The body the save button posts. */
    method SaveConfig() returns (body: FormConfigBody)
      ensures body.userId == userId && body.baseId == selectedBase && body.tableId == selectedTable
      ensures body.fields == FinalFields(fields, fieldConfig)
      ensures body.tableName == TableName(tables, selectedTable)
    {
      body := FormConfigBody(userId, selectedBase, selectedTable, FinalFields(fields, fieldConfig), TableName(tables, selectedTable));
    }
  }
}
