/**
 * The two hooks of `workflow_field_validator.py`: `validate_workflow_fields`
 * (before save) sets the `tracked_fields_changed` flag on the document, and
 * `check_field_changes` (before a workflow action) reads it to skip the
 * transition or to log the changes and attach the summary.
 */
module WorkflowGate {
  import opened Wrappers
  import opened Documents
  import opened ChangeDetector
  import opened DiffBuilder
  import opened AuditLogger
  import opened RequestCache

  /** The flag the pre-save hook sets: true for a new document, during cancel
      or amend, and when the document type has no active workflow or its
      workflow does not track fields; otherwise the detector's verdict. */
  function PreSaveFlag(isNew: bool, inCancel: bool, inAmend: bool, wf: Option<Workflow>,
                       doc: Doc, before: Option<Doc>, limit: int): bool
  {
    if isNew || inCancel || inAmend then true
    else if wf.None? || !wf.value.enableFieldLevelWorkflow then true
    else AnyTrackedChange(doc, before, wf.value.trackedFields, limit)
  }

  /** A transition on an ordinary save under an enabled workflow is skipped
      exactly when there is a snapshot, the change summary is empty and no
      tracked child table is oversized or resized. */
  lemma SkippedIffNothingToLog(doc: Doc, before: Option<Doc>, wf: Workflow, meta: Meta, limit: int)
    requires wf.enableFieldLevelWorkflow
    ensures !PreSaveFlag(false, false, false, Some(wf), doc, before, limit) <==>
            && before.Some?
            && Summary(doc, before, wf.trackedFields, meta) == []
            && forall k :: 0 <= k < |wf.trackedFields| ==> !SizeChanged(doc, before.value, wf.trackedFields[k], limit)
  {
    if before.Some? {
      DetectorMatchesSummary(doc, before.value, wf.trackedFields, meta, limit);
    }
  }

  /** `build_change_summary`: empty without a snapshot; otherwise the meta of
      the document's type is fetched through the request cache and the
      summary is collected. */
  method BuildChangeSummary(req: Request, doc: Doc, before: Option<Doc>, wf: Workflow)
    returns (summary: seq<Change>)
    requires req.Valid() && doc.doctype in req.schema
    modifies req`metaCache
    ensures req.Valid()
    ensures summary == Summary(doc, before, wf.trackedFields, req.schema[doc.doctype])
  {
    if before.None? {
      return [];
    }
    var meta := req.GetMeta(doc.doctype);
    summary := CollectChanges(doc, before.value, wf.trackedFields, meta.value);
  }

  /** A document in the middle of a save, with the flags the two hooks pass
      to each other (`doc.flags`). */
  class DocumentOperation {
    const doc: Doc
    /** `doc.get_doc_before_save()`. */
    const before: Option<Doc>
    const isNew: bool
    const inCancel: bool
    const inAmend: bool

    var trackedFieldsChanged: Option<bool>
    var skipWorkflow: bool
    var workflowChangeSummary: Option<seq<Change>>

    constructor (doc: Doc, before: Option<Doc>, isNew: bool, inCancel: bool, inAmend: bool)
      ensures this.doc == doc && this.before == before
      ensures this.isNew == isNew && this.inCancel == inCancel && this.inAmend == inAmend
      ensures trackedFieldsChanged == None && !skipWorkflow && workflowChangeSummary == None
    {
      this.doc := doc;
      this.before := before;
      this.isNew := isNew;
      this.inCancel := inCancel;
      this.inAmend := inAmend;
      trackedFieldsChanged := None;
      skipWorkflow := false;
      workflowChangeSummary := None;
    }

    /** `validate_workflow_fields`: sets the flag. The workflow cache is only
        consulted for an ordinary save. */
    method ValidateWorkflowFields(req: Request)
      requires req.Valid()
      modifies this`trackedFieldsChanged, req`workflowCache, req`queries
      ensures req.Valid()
      ensures trackedFieldsChanged == Some(PreSaveFlag(isNew, inCancel, inAmend, ActiveWorkflow(req.db, doc.doctype),
                                                      doc, before, ChildTableLimit(req.tableLimitSetting)))
      ensures isNew || inCancel || inAmend ==>
                req.workflowCache == old(req.workflowCache) && req.queries == old(req.queries)
    {
      if isNew {
        trackedFieldsChanged := Some(true);
        return;
      }
      if inCancel || inAmend {
        trackedFieldsChanged := Some(true);
        return;
      }
      var wf := req.GetActiveWorkflow(doc.doctype);
      if wf.None? || !wf.value.enableFieldLevelWorkflow {
        trackedFieldsChanged := Some(true);
        return;
      }
      var changed := TrackedFieldsChanged(doc, before, wf.value.trackedFields, ChildTableLimit(req.tableLimitSetting));
      trackedFieldsChanged := Some(changed);
    }

    /** `check_field_changes`: nothing without an active, enabled workflow;
        skip the transition when the flag is exactly false; otherwise log
        every change and then attach the summary. */
    method CheckFieldChanges(req: Request, store: AuditStore, action: Option<string>)
      requires req.Valid() && doc.doctype in req.schema
      modifies this`skipWorkflow, this`workflowChangeSummary, req`workflowCache, req`queries, req`metaCache, store
      ensures req.Valid()
      ensures var wf := ActiveWorkflow(req.db, doc.doctype);
              if wf.None? || !wf.value.enableFieldLevelWorkflow then
                && skipWorkflow == old(skipWorkflow)
                && workflowChangeSummary == old(workflowChangeSummary)
                && store.entries == old(store.entries)
              else if trackedFieldsChanged == Some(false) then
                && skipWorkflow
                && workflowChangeSummary == old(workflowChangeSummary)
                && store.entries == old(store.entries)
              else
                var summary := Summary(doc, before, wf.value.trackedFields, req.schema[doc.doctype]);
                && skipWorkflow == old(skipWorkflow)
                && workflowChangeSummary == Some(summary)
                && store.entries == old(store.entries)
                   + Records(HeaderFor(doc, wf.value, action, req.user, req.now), req.serialize, summary)
    {
      var wf := req.GetActiveWorkflow(doc.doctype);
      if wf.None? || !wf.value.enableFieldLevelWorkflow {
        return;
      }
      if trackedFieldsChanged == Some(false) {
        skipWorkflow := true;
        return;
      }
      store.LogFieldChanges(doc, before, wf.value, action, req.user, req.now, req.serialize);
      var summary := BuildChangeSummary(req, doc, before, wf.value);
      workflowChangeSummary := Some(summary);
      if before.Some? {
        RecordsIgnoreLabels(HeaderFor(doc, wf.value, action, req.user, req.now), req.serialize,
                            doc, before.value, wf.value.trackedFields, map[], req.schema[doc.doctype]);
      }
    }
  }
}
