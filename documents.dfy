/**
 * The data the change-detection engine works over: field values, documents
 * with their child tables, schema metadata, and the workflow definition with
 * its tracked-field declarations.
 */
module Documents {
  import opened Wrappers

  /** A field value. `Null` stands for Python's None and for a missing field;
      dict and list values are the ones the audit log serialises. */
  datatype Value =
    | Null
    | Scalar(text: string)
    | Dict(entries: map<string, Value>)
    | List(items: seq<Value>)

  /** One child-table row: its field values by field name. */
  type Row = map<string, Value>

  /** A document: its direct fields and its child tables, by field name. */
  datatype Doc = Doc(
    doctype: string,
    name: string,
    fields: map<string, Value>,
    tables: map<string, seq<Row>>)

  /** `doc.get(field)`: a missing field reads as None. */
  function Get(d: Doc, field: string): Value {
    if field in d.fields then d.fields[field] else Null
  }

  /** `doc.get(table) or []`: a missing table reads as the empty list. */
  function Rows(d: Doc, table: string): seq<Row> {
    if table in d.tables then d.tables[table] else []
  }

  /** `row.get(field)`. */
  function Cell(row: Row, field: string): Value {
    if field in row then row[field] else Null
  }

  /** The value at position `i` of a child table, None past its end. */
  function CellAt(rows: seq<Row>, i: int, field: string): Value {
    if 0 <= i < |rows| then Cell(rows[i], field) else Null
  }

  /** One entry of a document type's metadata (a DocField). For a table
      field, `options` names the child document type. */
  datatype FieldMeta = FieldMeta(fieldname: string, fieldLabel: string, fieldtype: string, options: string)

  /** `frappe.get_meta(doctype)`, reduced to its fields by fieldname. */
  type Meta = map<string, FieldMeta>

  /** Every document type the site knows, by name. */
  type Schema = map<string, Meta>

  /** One row of a workflow's "tracked fields" table. A direct spec uses
      `fieldName`; a child spec uses `childTableName` and `childFieldName`. */
  datatype TrackedField = TrackedField(
    isChildTableField: bool,
    fieldName: string,
    childTableName: string,
    childFieldName: string)

  /** The `"<table>.<field>"` path of a child spec. */
  function ChildPath(spec: TrackedField): string {
    spec.childTableName + "." + spec.childFieldName
  }

  /** A workflow definition, as far as field-level tracking reads it. */
  datatype Workflow = Workflow(
    name: string,
    documentType: string,
    enableFieldLevelWorkflow: bool,
    trackedFields: seq<TrackedField>)

  /** `frappe.local.conf.get("flw_child_table_limit", 200)`. */
  function ChildTableLimit(setting: Option<int>): int {
    setting.GetOr(200)
  }
}
