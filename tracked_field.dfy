/**
 * The "Workflow Tracked Field" child document type
 * (`workflow_tracked_field.py`): on validate it copies a label and a field
 * type from the schema onto the row, and never fails.
 */
module TrackedFieldDoc {
  import opened Wrappers
  import opened Documents
  import opened DiffBuilder
  import opened WorkflowOverride

  /** The (label, type) pair `populate_field_metadata` writes for a row of a
      workflow on `parentDoctype`, or None when it writes nothing: an unknown
      parent or child document type (the raised error is logged and
      swallowed), or a field, table or child field that is not found. */
  function Enrichment(schema: Schema, parentDoctype: string, row: TrackedField): Option<(string, string)> {
    if parentDoctype !in schema then None
    else
      var meta := schema[parentDoctype];
      if !row.isChildTableField then
        if row.fieldName !in meta then None
        else
          var field := meta[row.fieldName];
          Some((if field.fieldLabel != "" then field.fieldLabel else field.fieldname, field.fieldtype))
      else if row.childTableName !in meta then None
      else
        var parentField := meta[row.childTableName];
        if parentField.options !in schema then None
        else if row.childFieldName !in schema[parentField.options] then None
        else
          var childField := schema[parentField.options][row.childFieldName];
          Some((parentField.fieldLabel + " → " + childField.fieldLabel, childField.fieldtype))
  }

  class WorkflowTrackedField {
    var isChildTableField: bool
    var fieldName: string
    var childTableName: string
    var childFieldName: string
    var parentDoctype: string
    var fieldLabel: string
    var fieldType: string

    constructor (isChildTableField: bool, fieldName: string, childTableName: string, childFieldName: string,
                 parentDoctype: string, fieldLabel: string, fieldType: string)
      ensures Row() == TrackedField(isChildTableField, fieldName, childTableName, childFieldName)
      ensures this.parentDoctype == parentDoctype
      ensures this.fieldLabel == fieldLabel && this.fieldType == fieldType
    {
      this.isChildTableField := isChildTableField;
      this.fieldName := fieldName;
      this.childTableName := childTableName;
      this.childFieldName := childFieldName;
      this.parentDoctype := parentDoctype;
      this.fieldLabel := fieldLabel;
      this.fieldType := fieldType;
    }

    /** The row as the change detector reads it. */
    function Row(): TrackedField
      reads this
    {
      TrackedField(isChildTableField, fieldName, childTableName, childFieldName)
    }

    /** `populate_field_metadata`: writes label and type when the field
        resolves, leaves them as they were otherwise. */
    method PopulateFieldMetadata(schema: Schema)
      modifies this`fieldLabel, this`fieldType
      ensures match Enrichment(schema, parentDoctype, Row())
              case Some(p) => fieldLabel == p.0 && fieldType == p.1
              case None => fieldLabel == old(fieldLabel) && fieldType == old(fieldType)
    {
      if parentDoctype !in schema {
        return;
      }
      var meta := schema[parentDoctype];
      if !isChildTableField {
        if fieldName in meta {
          var field := meta[fieldName];
          fieldLabel := if field.fieldLabel != "" then field.fieldLabel else field.fieldname;
          fieldType := field.fieldtype;
        }
      } else {
        if childTableName in meta {
          var parentField := meta[childTableName];
          if parentField.options !in schema {
            return;
          }
          var childMeta := schema[parentField.options];
          if childFieldName in childMeta {
            var childField := childMeta[childFieldName];
            fieldLabel := parentField.fieldLabel + " → " + childField.fieldLabel;
            fieldType := childField.fieldtype;
          }
        }
      }
    }

    /** `validate`: enrichment runs only when both the field name and the
        parent document type are set. */
    method Validate(schema: Schema)
      modifies this`fieldLabel, this`fieldType
      ensures fieldName != "" && parentDoctype != "" && Enrichment(schema, parentDoctype, Row()).Some?
              ==> fieldLabel == Enrichment(schema, parentDoctype, Row()).value.0
                  && fieldType == Enrichment(schema, parentDoctype, Row()).value.1
      ensures !(fieldName != "" && parentDoctype != "" && Enrichment(schema, parentDoctype, Row()).Some?)
              ==> fieldLabel == old(fieldLabel) && fieldType == old(fieldType)
    {
      if fieldName != "" && parentDoctype != "" {
        PopulateFieldMetadata(schema);
      }
    }
  }

  /** Every row of a definition the workflow check accepts gets a label and a
      type; a direct row with a non-empty meta label gets the same label the
      change summary shows for it. */
  lemma AcceptedRowsAreEnriched(schema: Schema, wf: Workflow, k: nat)
    requires wf.enableFieldLevelWorkflow && DefinitionCheck(schema, wf) == Pass
    requires k < |wf.trackedFields|
    ensures var row := wf.trackedFields[k];
            && Enrichment(schema, wf.documentType, row).Some?
            && (!row.isChildTableField && schema[wf.documentType][row.fieldName].fieldLabel != "" ==>
                  Enrichment(schema, wf.documentType, row).value.0 == LabelOf(schema[wf.documentType], row.fieldName))
  {
    AcceptedDefinitionResolves(schema, wf);
    assert RowError(schema, wf.documentType, schema[wf.documentType], wf.trackedFields[k]).None?;
  }
}
