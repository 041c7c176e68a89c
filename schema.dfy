/** The records exchanged between Airtable, the backend and the two form pages. */
module Schema {
  import opened Common

  /** A field of an Airtable table, as the metadata API describes it.
      `options` (select choices and the like) is carried along unexamined. */
  datatype Field = Field(id: string, name: string, fieldType: string, options: Json)

  /** A table of an Airtable base with its fields. */
  datatype Table = Table(id: string, name: string, fields: seq<Field>)

  /** Show the field only when the controller field `showIfField` equals `equalsValue`. */
  datatype Conditional = Conditional(showIfField: string, equalsValue: string)

  /** One field of a saved form; `conditional == None` means always visible. */
  datatype FieldSpec = FieldSpec(
    airtableFieldId: string,
    name: string,
    formLabel: string,  // `label` in the source; `label` is a Dafny keyword
    isRequired: bool,
    fieldType: string,
    options: Json,
    conditional: Option<Conditional>)

  /** The body the builder posts to save a form configuration. */
  datatype FormConfigBody = FormConfigBody(
    userId: string,
    baseId: string,
    tableId: string,
    fields: seq<FieldSpec>,
    tableName: string)
}
