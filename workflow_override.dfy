/**
 * The `CustomWorkflow` override of `overrides/workflow.py`: checking a
 * workflow definition's tracked fields against the schema, and appending the
 * changed-field list to the workflow notification.
 */
module WorkflowOverride {
  import opened Wrappers
  import opened Documents
  import opened DiffBuilder
  import opened RequestCache

  // ---------------------------------------------------------------------
  // Definition validation
  // ---------------------------------------------------------------------

  datatype DefinitionError =
    | NoTrackedFields                                    // "Enable Field Level Workflow requires at least one tracked field"
    | DoctypeNotFound(doctype: string)                   // `frappe.get_meta` of an unknown document type
    | FieldNotFound(field: string, doctype: string)      // "Field {0} not found in {1}"
    | ChildTableNotFound(table: string)                  // "Child table {0} not found"
    | ChildFieldNotFound(field: string, childDoctype: string)  // "Field {0} not found in child table {1}"

  /** Why one tracked-field row does not resolve against the meta of the
      workflow's document type, if it does not. A child row's table field
      names the child document type in its `options`. */
  function RowError(schema: Schema, documentType: string, meta: Meta, row: TrackedField): Option<DefinitionError> {
    if !row.isChildTableField then
      if row.fieldName in meta then None else Some(FieldNotFound(row.fieldName, documentType))
    else if row.childTableName !in meta then
      Some(ChildTableNotFound(row.childTableName))
    else
      var childType := meta[row.childTableName].options;
      if childType !in schema then Some(DoctypeNotFound(childType))
      else if row.childFieldName !in schema[childType] then Some(ChildFieldNotFound(row.childFieldName, childType))
      else None
  }

  /** The error of the first row, in declaration order, that does not resolve. */
  function FirstRowError(schema: Schema, documentType: string, meta: Meta, rows: seq<TrackedField>): Option<DefinitionError> {
    if rows == [] then None
    else
      match RowError(schema, documentType, meta, rows[0])
      case Some(e) => Some(e)
      case None => FirstRowError(schema, documentType, meta, rows[1..])
  }

  /** `_validate_tracked_fields`: at least one row, a known document type,
      then every row must resolve. */
  function TrackedFieldsCheck(schema: Schema, wf: Workflow): Outcome<DefinitionError> {
    if |wf.trackedFields| == 0 then Fail(NoTrackedFields)
    else if wf.documentType !in schema then Fail(DoctypeNotFound(wf.documentType))
    else
      match FirstRowError(schema, wf.documentType, schema[wf.documentType], wf.trackedFields)
      case Some(e) => Fail(e)
      case None => Pass
  }

  /** `validate`: the tracked-field check runs only when field-level workflow
      is enabled. */
  function DefinitionCheck(schema: Schema, wf: Workflow): Outcome<DefinitionError> {
    if wf.enableFieldLevelWorkflow then TrackedFieldsCheck(schema, wf) else Pass
  }

  /** First failure wins: the check passes exactly when every row resolves,
      and otherwise reports the error of the first row that does not. */
  lemma {:induction false} FirstFailureWins(schema: Schema, documentType: string, meta: Meta, rows: seq<TrackedField>)
    ensures FirstRowError(schema, documentType, meta, rows).None? <==>
            forall k :: 0 <= k < |rows| ==> RowError(schema, documentType, meta, rows[k]).None?
    ensures forall k :: 0 <= k < |rows| && RowError(schema, documentType, meta, rows[k]).Some?
                        && (forall j :: 0 <= j < k ==> RowError(schema, documentType, meta, rows[j]).None?)
                        ==> FirstRowError(schema, documentType, meta, rows) == RowError(schema, documentType, meta, rows[k])
  {
    if rows != [] {
      FirstFailureWins(schema, documentType, meta, rows[1..]);
      assert forall k :: 1 <= k < |rows| ==> rows[k] == rows[1..][k - 1];
      if RowError(schema, documentType, meta, rows[0]).None? {
        forall k | 0 <= k < |rows| && RowError(schema, documentType, meta, rows[k]).Some?
                   && (forall j :: 0 <= j < k ==> RowError(schema, documentType, meta, rows[j]).None?)
          ensures FirstRowError(schema, documentType, meta, rows) == RowError(schema, documentType, meta, rows[k])
        {
          assert k > 0;
          assert forall j :: 0 <= j < k - 1 ==> rows[1..][j] == rows[j + 1];
        }
      }
    }
  }

  /** The rows loop of `_validate_tracked_fields`, given the parent meta:
      stops at the first row that does not resolve. Child metas are fetched
      through the request's meta cache. */
  method CheckRows(req: Request, documentType: string, meta: Meta, rows: seq<TrackedField>)
    returns (r: Outcome<DefinitionError>)
    requires req.Valid()
    modifies req`metaCache
    ensures req.Valid()
    ensures r == match FirstRowError(req.schema, documentType, meta, rows)
                 case Some(e) => Fail(e)
                 case None => Pass
  {
    var k := 0;
    while k < |rows|
      invariant 0 <= k <= |rows| && req.Valid()
      invariant FirstRowError(req.schema, documentType, meta, rows)
             == FirstRowError(req.schema, documentType, meta, rows[k..])
    {
      var row := rows[k];
      assert rows[k..][1..] == rows[k + 1..];
      if !row.isChildTableField {
        if row.fieldName !in meta {
          return Fail(FieldNotFound(row.fieldName, documentType));
        }
      } else {
        if row.childTableName !in meta {
          return Fail(ChildTableNotFound(row.childTableName));
        }
        var childType := meta[row.childTableName].options;
        var childMeta := req.GetMeta(childType);
        if childMeta.None? {
          return Fail(DoctypeNotFound(childType));
        }
        if row.childFieldName !in childMeta.value {
          return Fail(ChildFieldNotFound(row.childFieldName, childType));
        }
      }
      k := k + 1;
    }
    return Pass;
  }

  /** `_validate_tracked_fields`. */
  method ValidateTrackedFields(req: Request, wf: Workflow) returns (r: Outcome<DefinitionError>)
    requires req.Valid()
    modifies req`metaCache
    ensures req.Valid()
    ensures r == TrackedFieldsCheck(req.schema, wf)
  {
    if |wf.trackedFields| == 0 {
      return Fail(NoTrackedFields);
    }
    var meta := req.GetMeta(wf.documentType);
    if meta.None? {
      return Fail(DoctypeNotFound(wf.documentType));
    }
    r := CheckRows(req, wf.documentType, meta.value, wf.trackedFields);
  }

  /** `CustomWorkflow.validate` (after the host's own workflow checks): a
      definition with field-level workflow disabled is never rejected here. */
  method Validate(req: Request, wf: Workflow) returns (r: Outcome<DefinitionError>)
    requires req.Valid()
    modifies req`metaCache
    ensures req.Valid()
    ensures r == DefinitionCheck(req.schema, wf)
    ensures !wf.enableFieldLevelWorkflow ==> r == Pass && req.metaCache == old(req.metaCache)
  {
    if wf.enableFieldLevelWorkflow {
      r := ValidateTrackedFields(req, wf);
    } else {
      r := Pass;
    }
  }

  /** A definition that passes the check has a non-empty list whose every row
      resolves. */
  lemma AcceptedDefinitionResolves(schema: Schema, wf: Workflow)
    requires wf.enableFieldLevelWorkflow && DefinitionCheck(schema, wf) == Pass
    ensures |wf.trackedFields| > 0 && wf.documentType in schema
    ensures forall k :: 0 <= k < |wf.trackedFields| ==>
              RowError(schema, wf.documentType, schema[wf.documentType], wf.trackedFields[k]).None?
  {
    FirstFailureWins(schema, wf.documentType, schema[wf.documentType], wf.trackedFields);
  }

  // ---------------------------------------------------------------------
  // Notification text
  // ---------------------------------------------------------------------

  const ChangedFieldsHeader: string := "<br><b>Changed Fields:</b><ul>"
  const ChangedFieldsFooter: string := "</ul>"

  /** The list item for one summary entry; `render` is Python's `str()` of a
      value. */
  function ItemLine(c: Change, render: Value -> string): string {
    "<li><b>" + c.displayLabel + "</b>: " + render(c.oldValue) + " → " + render(c.newValue) + "</li>"
  }

  function ItemLines(summary: seq<Change>, render: Value -> string): (lines: seq<string>)
    ensures |lines| == |summary|
  {
    seq(|summary|, k requires 0 <= k < |summary| => ItemLine(summary[k], render))
  }

  /** `"".join(lines)`. */
  function Join(lines: seq<string>): string {
    if lines == [] then "" else Join(lines[..|lines| - 1]) + lines[|lines| - 1]
  }

  /** The message: unchanged without a summary or with an empty one; otherwise
      the header, one item per entry in order, and the footer are appended. */
  function NotificationText(base: string, summary: Option<seq<Change>>, render: Value -> string): string {
    if summary.None? || summary.value == [] then base
    else base + Join([ChangedFieldsHeader] + ItemLines(summary.value, render) + [ChangedFieldsFooter])
  }

  lemma {:induction false} JoinConcat(a: seq<string>, b: seq<string>)
    ensures Join(a + b) == Join(a) + Join(b)
  {
    if b == [] {
      assert a + b == a;
    } else {
      var init := b[..|b| - 1];
      JoinConcat(a, init);
      assert (a + b)[..|a + b| - 1] == a + init;
    }
  }

  lemma JoinSingle(line: string)
    ensures Join([line]) == line
  {
    assert [line][..0] == [];
  }

  /** The shape of an augmented message: the base message, the header, the
      items of the entries in summary order, the footer. */
  lemma NotificationShape(base: string, summary: seq<Change>, render: Value -> string)
    requires summary != []
    ensures NotificationText(base, Some(summary), render)
         == base + ChangedFieldsHeader + Join(ItemLines(summary, render)) + ChangedFieldsFooter
  {
    var items := ItemLines(summary, render);
    var head, foot := ChangedFieldsHeader, ChangedFieldsFooter;
    assert Join([head] + items + [foot]) == Join([head] + items) + Join([foot]) by {
      JoinConcat([head] + items, [foot]);
    }
    assert Join([head] + items) == Join([head]) + Join(items) by {
      JoinConcat([head], items);
    }
    JoinSingle(head);
    JoinSingle(foot);
  }

  /** Items keep summary order: the items of `s1 + s2` are those of `s1`
      followed by those of `s2`. */
  lemma ItemsInSummaryOrder(s1: seq<Change>, s2: seq<Change>, render: Value -> string)
    ensures Join(ItemLines(s1 + s2, render)) == Join(ItemLines(s1, render)) + Join(ItemLines(s2, render))
  {
    assert ItemLines(s1 + s2, render) == ItemLines(s1, render) + ItemLines(s2, render);
    JoinConcat(ItemLines(s1, render), ItemLines(s2, render));
  }

  /** `get_notification_message`, given the host's message `base` and the
      summary attached to the document's flags. */
  method GetNotificationMessage(base: string, summary: Option<seq<Change>>, render: Value -> string)
    returns (message: string)
    ensures message == NotificationText(base, summary, render)
    ensures summary.None? || summary.value == [] ==> message == base
    ensures base <= message
  {
    if summary.None? || summary.value == [] {
      return base;
    }
    var items := summary.value;
    var lines := [ChangedFieldsHeader];
    for k := 0 to |items|
      invariant lines == [ChangedFieldsHeader] + ItemLines(items, render)[..k]
    {
      lines := lines + [ItemLine(items[k], render)];
    }
    lines := lines + [ChangedFieldsFooter];
    assert ItemLines(items, render)[..|items|] == ItemLines(items, render);
    message := base + Join(lines);
  }
}
