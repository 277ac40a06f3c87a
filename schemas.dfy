/** The schema of a table: an ordered, append-only list of typed fields. */
module Schemas {
  import opened Options

  /** Schema.Field: a column name and its type. */
  datatype Field = Field(name: string, fieldType: string)

  class Schema {
    var fields: seq<Field>

    /** A missing field list starts the schema empty. */
    constructor (fields: Option<seq<Field>>)
      ensures this.fields == if fields.None? then [] else fields.value
    {
      this.fields := if fields.None? then [] else fields.value;
    }

    /** Appends one field at the end; the earlier fields keep their places. */
    method AddField(name: string, fieldType: string)
      modifies this
      ensures |fields| == |old(fields)| + 1
      ensures fields[..|old(fields)|] == old(fields)
      ensures fields[|fields| - 1] == Field(name, fieldType)
    {
      fields := fields + [Field(name, fieldType)];
    }
  }
}
