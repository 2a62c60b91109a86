# Field-level workflow: change detection and audit engine

A Dafny model of the core of the `field_level_workflow` Frappe app. A
workflow transition fires only when declared "tracked" fields changed since
the last save. A tracked field is either a direct field or a `table.field`
path into a child table. The model covers:

- the **change detector** (`tracked_fields_changed`, `child_table_changed`):
  the row-limit guard, the row-count check and the positional comparison;
- the **diff builder** (`build_change_summary`, `_append_child_changes`): the
  ordered list of per-field changes;
- the **audit writer** (`log_field_changes`, `_log_child_table_changes`,
  `_insert_log`): one change-log entry per summary entry;
- the **workflow gate** (`validate_workflow_fields`, `check_field_changes`)
  and the per-request caches (`get_active_workflow`, the `flw_meta` cache);
- the **workflow-definition override**: checking tracked fields against the
  schema, and appending "Changed Fields" to the notification text;
- the **tracked-field row** (label and type enrichment) and the
  **change-log entry** (write-once life cycle).

Modules, leaf first: `Wrappers`, `Documents` (values, documents, schema,
workflow definition), `ChangeDetector`, `DiffBuilder`, `ChangeLogDoc`,
`AuditLogger`, `RequestCache`, `WorkflowGate`, `WorkflowOverride`,
`TrackedFieldDoc`.

How the source's state is modelled:

- `frappe.local` is the `RequestCache.Request` class. Its caches are fields
  that its methods update. The database and the schema are constant maps on
  the request. `Request.Valid()` says every cached entry agrees with them.
- `doc.flags` is the `WorkflowGate.DocumentOperation` class.
- The audit table is `AuditLogger.AuditStore`, a sequence of records that
  the logger appends to.
- The detector and the diff builder are loops. Each is a method proved
  against a specification function.

Two behaviours of the code worth stating:

- `check_field_changes` does nothing when there is no active, enabled
  workflow (`workflow_field_validator.py:34-36`): it builds no diff and
  writes no log.
- With 200 rows before and 201 after and a limit of 200, the row-limit guard
  (`workflow_field_validator.py:76`) fires before the row-count rule
  (`workflow_field_validator.py:79`), so the table counts as changed by the
  guard.

An observed behaviour, permitted by `DiffBuilder.DetectorMatchesSummary` and exhibited by `DiffBuilder.ResizedTableWithoutEntries`: a
child table that only gained or lost rows always counts as changed. But if
the field on those rows is None, the diff for it is empty. A transition can
then proceed and write no log entry.

## Model

| member | source | states |
|---|---|---|
| `ChangeDetector.ChildTableChanged` | field_level_workflow/utils/workflow_field_validator.py:70-86 | The result is true exactly when either table is over the limit, the row counts differ, or some position holds a different value of the field. A missing table is empty. |
| `ChangeDetector.TrackedFieldsChanged` | field_level_workflow/utils/workflow_field_validator.py:54-67 | The result is true without a snapshot. Otherwise it is true exactly when some tracked spec differs. When false, a snapshot exists and no spec differs. |
| `DiffBuilder.AppendChildChanges` | field_level_workflow/utils/workflow_field_validator.py:142-156 | Appends the child-table diff of the spec to the given list and changes nothing before it. |
| `DiffBuilder.CollectChanges` | field_level_workflow/utils/workflow_field_validator.py:119-139 | The collected list is the change summary: each spec's entries, in declaration order. |
| `DiffBuilder.ChildChangesByPosition` | field_level_workflow/utils/workflow_field_validator.py:145-156 | There is exactly one entry per position below max(len(curr), len(prev)) where old differs from new, in ascending position order. Path and label are both `table.field`, and a missing row reads as None. |
| `DiffBuilder.ChildChangesEmpty` | field_level_workflow/utils/workflow_field_validator.py:147-150 | The child diff is empty exactly when every visited position holds equal values. |
| `DiffBuilder.SummaryEntriesDiffer` | field_level_workflow/utils/workflow_field_validator.py:125-156 | Every summary entry has an old value different from its new value. |
| `DiffBuilder.SummaryConcat` | field_level_workflow/utils/workflow_field_validator.py:125-137 | The summary of `specs1 + specs2` is the summary of `specs1` followed by the summary of `specs2`, so entries follow declaration order. |
| `DiffBuilder.SpecDiffersIffEntries` | field_level_workflow/utils/workflow_field_validator.py:59-65 | The detector sees a difference in one spec exactly when the spec contributes a diff entry, or its table is oversized or resized. |
| `DiffBuilder.DetectorMatchesSummary` | field_level_workflow/utils/workflow_field_validator.py:54-156 | With a snapshot, the detector reports a change exactly when the summary is non-empty or some tracked table is oversized or resized. |
| `DiffBuilder.ScenarioItemsQty` | field_level_workflow/utils/workflow_field_validator.py:54-156 | For `status` plus `items.qty`, where row 1's qty goes from 2 to 5, the detector reports a change. The summary is the single entry `items.qty`: 2 → 5. |
| `DiffBuilder.ResizedTableWithoutEntries` | field_level_workflow/utils/workflow_field_validator.py:70-86 | A tracked table going from no rows to one row without the field counts as changed, yet the summary is empty: the added row's None matches the None that stands for the missing row. |
| `ChangeLogDoc.WorkflowFieldChangeLog.BeforeInsert` | field_level_workflow/doctype/workflow_field_change_log/workflow_field_change_log.py:12-15 | `changed_by` and `changed_on` are set to the user and the time only where empty. An entry with both set is left unchanged, so a second call changes nothing. |
| `ChangeLogDoc.WorkflowFieldChangeLog.OnUpdate` | field_level_workflow/doctype/workflow_field_change_log/workflow_field_change_log.py:17-20 | Passes during the insert and fails with "immutable" in every other phase. |
| `ChangeLogDoc.WorkflowFieldChangeLog.OnTrash` | field_level_workflow/doctype/workflow_field_change_log/workflow_field_change_log.py:22-23 | Always fails with "cannot be deleted". |
| `ChangeLogDoc.WorkflowFieldChangeLog.Insert` | field_level_workflow/doctype/workflow_field_change_log/workflow_field_change_log.py:12-20 | Inserting a new entry succeeds: the on_update inside it passes, the defaults are applied and the entry ends up stored. |
| `ChangeLogDoc.WorkflowFieldChangeLog.Save` | field_level_workflow/doctype/workflow_field_change_log/workflow_field_change_log.py:17-20 | Saving an edit of a stored entry fails with "immutable" and leaves its columns unchanged. |
| `ChangeLogDoc.WorkflowFieldChangeLog.Delete` | field_level_workflow/doctype/workflow_field_change_log/workflow_field_change_log.py:22-23 | Deleting an entry always fails. |
| `AuditLogger.RecordsMirrorChanges` | field_level_workflow/utils/workflow_field_validator.py:160-210 | One record per change, in the same order. Each record's path is the change's field, its old and new values are stored as-is or as JSON for dicts and lists, and the reference, workflow, action, user and time are the header's. |
| `AuditLogger.RecordsIgnoreLabels` | field_level_workflow/utils/workflow_field_validator.py:166-178 | The logged records do not depend on the meta used for labels. |
| `AuditLogger.AuditStore.InsertLog` | field_level_workflow/utils/workflow_field_validator.py:200-210 | Appends exactly one record: the document's type and name, the workflow name, the action or `""`, the path, the stored old and new values, and the session user and time. |
| `AuditLogger.AuditStore.LogChildTableChanges` | field_level_workflow/utils/workflow_field_validator.py:181-197 | Appends the records of the child-table diff, in ascending position order. |
| `AuditLogger.AuditStore.LogFieldChanges` | field_level_workflow/utils/workflow_field_validator.py:160-178 | Appends exactly the records of the change summary, in its order. Without a snapshot it appends nothing. |
| `RequestCache.Request.GetActiveWorkflow` | field_level_workflow/utils/workflow_field_validator.py:91-107 | A cached answer, a cached None included, is returned with no new query. Otherwise the database is queried once and its answer is cached. A consistent cache stays consistent and gives the database's answer. |
| `RequestCache.Request.GetMeta` | field_level_workflow/utils/workflow_field_validator.py:121-123 | An unknown document type fails and leaves the cache alone. Otherwise the cached meta wins over the freshly loaded one, and the key is then cached. |
| `WorkflowGate.BuildChangeSummary` | field_level_workflow/utils/workflow_field_validator.py:113-139 | The result is empty without a snapshot. Otherwise it is the summary, labelled with the meta of the document's type. |
| `WorkflowGate.SkippedIffNothingToLog` | field_level_workflow/utils/workflow_field_validator.py:8-67 | On an ordinary save under an enabled workflow, the flag is false exactly when a snapshot exists, the summary is empty and no tracked table is oversized or resized. |
| `WorkflowGate.DocumentOperation.ValidateWorkflowFields` | field_level_workflow/utils/workflow_field_validator.py:8-25 | The flag is true for a new document, in cancel or amend, and when there is no active or enabled workflow. Otherwise it is the detector's verdict. The cache is untouched in the first three cases. |
| `WorkflowGate.DocumentOperation.CheckFieldChanges` | field_level_workflow/utils/workflow_field_validator.py:28-51 | With no active or enabled workflow, nothing changes. With the flag exactly false, the skip flag is set and nothing is logged. Otherwise the summary's records are logged and the same summary is attached. |
| `WorkflowOverride.FirstFailureWins` | field_level_workflow/overrides/workflow.py:48-65 | The row scan passes exactly when every row resolves. Otherwise it reports the error of the first row that does not. |
| `WorkflowOverride.CheckRows` | field_level_workflow/overrides/workflow.py:48-65 | The loop returns the first row's error, in declaration order: unknown direct field, child table, child document type or child field. It passes otherwise. |
| `WorkflowOverride.ValidateTrackedFields` | field_level_workflow/overrides/workflow.py:40-65 | An empty list fails with "requires at least one tracked field". An unknown document type fails. Otherwise the result is the row scan's. |
| `WorkflowOverride.Validate` | field_level_workflow/overrides/workflow.py:17-21 | The check runs only when field-level workflow is enabled. A disabled definition always passes and leaves the cache alone. |
| `WorkflowOverride.AcceptedDefinitionResolves` | field_level_workflow/overrides/workflow.py:40-65 | An accepted, enabled definition has a non-empty list, a known document type, and rows that all resolve. |
| `WorkflowOverride.NotificationShape` | field_level_workflow/overrides/workflow.py:31-38 | A non-empty summary gives base + header + the items joined + `</ul>`. |
| `WorkflowOverride.ItemsInSummaryOrder` | field_level_workflow/overrides/workflow.py:31-38 | The joined items of `s1 + s2` are those of `s1` followed by those of `s2`, so items keep summary order. |
| `WorkflowOverride.GetNotificationMessage` | field_level_workflow/overrides/workflow.py:23-38 | The base message comes back unchanged when the summary is missing or empty. Otherwise the changed-fields block is appended. The base message is always a prefix of the result. |
| `TrackedFieldDoc.WorkflowTrackedField.PopulateFieldMetadata` | field_level_workflow/doctype/workflow_tracked_field/workflow_tracked_field.py:16-34 | A direct field that is found gets its label (or its fieldname when the label is empty) and its type. A child field gets `parent label → child label` and the child type. Anything not found, including an unknown document type, leaves label and type unchanged. |
| `TrackedFieldDoc.WorkflowTrackedField.Validate` | field_level_workflow/doctype/workflow_tracked_field/workflow_tracked_field.py:11-14 | Enrichment happens only when both the field name and the parent document type are set. Otherwise label and type are unchanged. It never fails. |
| `TrackedFieldDoc.AcceptedRowsAreEnriched` | field_level_workflow/doctype/workflow_tracked_field/workflow_tracked_field.py:16-32 | Every row of an accepted definition resolves for enrichment against the workflow's document type as parent. A direct row with a non-empty meta label gets the label the change summary shows. |

## Left out

- The framework's own workflow validation (`super().validate()`), the
  user-visible "Workflow action skipped" notice (`frappe.msgprint`) and the
  error logging of swallowed exceptions (`frappe.log_error`) are not modelled.
- `frappe.as_json` and Python's `str()` of a value are function parameters
  (`serialize`, `render`). The JSON format and the HTML escaping of the
  notification are out of scope.
- `frappe.utils.now()` is one timestamp per request (`Request.now`), not a
  new clock reading per entry. `frappe.session.user` is `Request.user`.
- The database lookup of the active workflow is a map from document type to
  workflow, so a type has at most one active workflow.
- Direct fields and child tables are separate maps of a document. A direct
  spec that names a table field reads None there.
- `ChangeDetector.ChildTableChanged`, and with it `DiffBuilder.ChildChanges`: a child spec whose
  table name is a non-table field (a Link, say) passes the definition check
  (`overrides/workflow.py:55-61` only asks that the field exists and that its
  options name a document type), and the model reads it as an empty table, so
  it reports no change and no entry. The source reads the field's string
  value there: equal lengths make `row.get` raise AttributeError
  (`workflow_field_validator.py:83`, `148`), unequal lengths report a change
  (line 79). Raising on a character is not modelled.
- Python's `!=` across types is datatype equality on `Value`. An empty string
  stands for both `None` and `""` in string columns, where the code only
  tests truthiness.
- `WorkflowOverride.ItemLine`: a DocField label of None becomes the summary
  label None (`workflow_field_validator.py:129`), which the source's f-string
  renders as "None"; the model renders it as the empty string.
- `TrackedFieldDoc.Enrichment`: a parent or child label of None gives
  "None → …" in the source's f-string (`workflow_tracked_field.py:31`); the
  model gives the empty string in its place.
- `WorkflowGate.BuildChangeSummary` and `WorkflowGate.DocumentOperation.CheckFieldChanges`
  require the document's own type to be in the schema, since the framework
  always has the meta of a document's type.
- `ChangeLogDoc.WorkflowFieldChangeLog.Insert` requires a new (draft) entry:
  only fresh entries are ever inserted.
- The shared `summary` list that `_append_child_changes` appends to is passed
  in and returned as a value. No other code holds the list.
- Transaction rollback is modelled only for a rejected save of a log entry.
  A failed insert part-way through a batch of log entries is not modelled.
- `hooks.py` (it names a `validate_workflow_definition` hook that the
  validator file does not define), `public/js/workflow.js`, `uninstall.py`
  and `setup.py` are not part of this model.
