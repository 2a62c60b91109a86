/**
 * The audit writer of `workflow_field_validator.py` (`log_field_changes`,
 * `_log_child_table_changes`, `_insert_log`): one change-log entry per
 * summary entry, in the same order.
 */
module AuditLogger {
  import opened Wrappers
  import opened Documents
  import opened DiffBuilder
  import opened ChangeLogDoc

  /** The columns every entry of one transition shares. */
  datatype LogHeader = LogHeader(
    referenceDoctype: string,
    referenceName: string,
    workflowName: string,
    action: string,
    changedBy: string,
    changedOn: string)

  /** A missing workflow action is logged as the empty string. */
  function HeaderFor(doc: Doc, wf: Workflow, action: Option<string>, user: string, now: string): LogHeader {
    LogHeader(doc.doctype, doc.name, wf.name, action.GetOr(""), user, now)
  }

  /** The entry logged for one changed path. */
  function RecordOf(h: LogHeader, serialize: Value -> string, field: string, was: Value, now: Value): LogRecord {
    LogRecord(h.referenceDoctype, h.referenceName, h.workflowName, h.action, field,
              StoredForm(was, serialize), StoredForm(now, serialize), h.changedBy, h.changedOn)
  }

  /** The entries logged for a list of changes, in order. */
  function Records(h: LogHeader, serialize: Value -> string, cs: seq<Change>): (rs: seq<LogRecord>)
    ensures |rs| == |cs|
  {
    seq(|cs|, k requires 0 <= k < |cs| => RecordOf(h, serialize, cs[k].field, cs[k].oldValue, cs[k].newValue))
  }

  /** One record per change, in the same order: the record's path and stored
      values come from the change, the shared columns from the header. */
  lemma RecordsMirrorChanges(h: LogHeader, serialize: Value -> string, cs: seq<Change>)
    ensures |Records(h, serialize, cs)| == |cs|
    ensures forall k :: 0 <= k < |cs| ==>
              var r := Records(h, serialize, cs)[k];
              && r.changedField == cs[k].field
              && r.oldValue == StoredForm(cs[k].oldValue, serialize)
              && r.newValue == StoredForm(cs[k].newValue, serialize)
              && r.referenceDoctype == h.referenceDoctype
              && r.referenceName == h.referenceName
              && r.workflowName == h.workflowName
              && r.action == h.action
              && r.changedBy == h.changedBy
              && r.changedOn == h.changedOn
  {
  }

  lemma RecordsConcat(h: LogHeader, serialize: Value -> string, a: seq<Change>, b: seq<Change>)
    ensures Records(h, serialize, a + b) == Records(h, serialize, a) + Records(h, serialize, b)
  {
    assert forall k :: 0 <= k < |a + b| ==>
      Records(h, serialize, a + b)[k] == (Records(h, serialize, a) + Records(h, serialize, b))[k];
  }

  /** One more position of a child table adds its entry, if any, at the end. */
  lemma ChildRecordsStep(h: LogHeader, serialize: Value -> string, spec: TrackedField, curr: seq<Row>, prev: seq<Row>, idx: nat)
    ensures var was := CellAt(prev, idx, spec.childFieldName);
            var now := CellAt(curr, idx, spec.childFieldName);
            Records(h, serialize, ChildChangesUpTo(spec, curr, prev, idx + 1))
            == Records(h, serialize, ChildChangesUpTo(spec, curr, prev, idx))
               + (if was != now then [RecordOf(h, serialize, ChildPath(spec), was, now)] else [])
  {
    RecordsConcat(h, serialize, ChildChangesUpTo(spec, curr, prev, idx), ChildChangeAt(spec, curr, prev, idx));
  }

  /** The records written for the first `k` tracked fields of a save. */
  ghost function LoggedUpTo(h: LogHeader, serialize: Value -> string, doc: Doc, before: Doc,
                            specs: seq<TrackedField>, k: nat): seq<LogRecord>
    requires k <= |specs|
  {
    Records(h, serialize, Flatten(SpecParts(doc, before, specs, map[])[..k]))
  }

  /** One more spec adds its records at the end: for a direct spec, the one
      record of its change if its value differs. */
  lemma SummaryRecordsStep(h: LogHeader, serialize: Value -> string, doc: Doc, before: Doc, specs: seq<TrackedField>, k: nat)
    requires k < |specs|
    ensures var spec := specs[k];
            var was := Get(before, spec.fieldName);
            var now := Get(doc, spec.fieldName);
            LoggedUpTo(h, serialize, doc, before, specs, k + 1)
            == LoggedUpTo(h, serialize, doc, before, specs, k)
               + if !spec.isChildTableField then
                   (if was != now then [RecordOf(h, serialize, spec.fieldName, was, now)] else [])
                 else
                   Records(h, serialize, ChildChanges(spec, Rows(doc, spec.childTableName), Rows(before, spec.childTableName)))
  {
    var parts := SpecParts(doc, before, specs, map[]);
    assert parts[..k + 1][..k] == parts[..k];
    RecordsConcat(h, serialize, Flatten(parts[..k]), parts[k]);
  }

  lemma SummaryRecordsDone(h: LogHeader, serialize: Value -> string, doc: Doc, before: Doc, specs: seq<TrackedField>)
    ensures LoggedUpTo(h, serialize, doc, before, specs, |specs|)
            == Records(h, serialize, Summary(doc, Some(before), specs, map[]))
  {
    var parts := SpecParts(doc, before, specs, map[]);
    assert parts[..|specs|] == parts;
  }

  lemma SummaryRecordsStart(h: LogHeader, serialize: Value -> string, doc: Doc, before: Doc, specs: seq<TrackedField>)
    ensures LoggedUpTo(h, serialize, doc, before, specs, 0) == []
  {
    var parts := SpecParts(doc, before, specs, map[]);
    assert parts[..0] == [];
  }


  /** Logging does not look at labels: the entries for two summaries that
      differ only in the meta used for labels are the same. */
  lemma RecordsIgnoreLabels(h: LogHeader, serialize: Value -> string, doc: Doc, before: Doc,
                            specs: seq<TrackedField>, meta1: Meta, meta2: Meta)
    ensures Records(h, serialize, SummaryOf(doc, before, specs, meta1))
         == Records(h, serialize, SummaryOf(doc, before, specs, meta2))
  {
    var p1 := SpecParts(doc, before, specs, meta1);
    var p2 := SpecParts(doc, before, specs, meta2);
    forall k | 0 <= k < |specs|
      ensures Records(h, serialize, p1[k]) == Records(h, serialize, p2[k])
    {
      var spec := specs[k];
      if !spec.isChildTableField && p1[k] != [] {
        assert Records(h, serialize, p1[k]) == [RecordOf(h, serialize, spec.fieldName,
          Get(before, spec.fieldName), Get(doc, spec.fieldName))];
      }
    }
    RecordsOfFlatten(h, serialize, p1, p2);
  }

  lemma {:induction false} RecordsOfFlatten(h: LogHeader, serialize: Value -> string, p1: seq<seq<Change>>, p2: seq<seq<Change>>)
    requires |p1| == |p2|
    requires forall k :: 0 <= k < |p1| ==> Records(h, serialize, p1[k]) == Records(h, serialize, p2[k])
    ensures Records(h, serialize, Flatten(p1)) == Records(h, serialize, Flatten(p2))
  {
    if p1 != [] {
      var n := |p1| - 1;
      RecordsOfFlatten(h, serialize, p1[..n], p2[..n]);
      RecordsConcat(h, serialize, Flatten(p1[..n]), p1[n]);
      RecordsConcat(h, serialize, Flatten(p2[..n]), p2[n]);
    }
  }

  /** The audit store: every change-log entry inserted so far, in order. */
  class AuditStore {
    var entries: seq<LogRecord>

    constructor ()
      ensures entries == []
    {
      entries := [];
    }

    /** `_insert_log`: builds the entry, inserts it (which stamps the user and
        the time) and stores it. */
    method InsertLog(doc: Doc, wf: Workflow, action: Option<string>, fieldname: string,
                     was: Value, now: Value, user: string, timestamp: string, serialize: Value -> string)
      modifies this
      ensures entries == old(entries)
              + [RecordOf(HeaderFor(doc, wf, action, user, timestamp), serialize, fieldname, was, now)]
    {
      var entry := new WorkflowFieldChangeLog(LogRecord(
        doc.doctype, doc.name, wf.name, action.GetOr(""), fieldname,
        StoredForm(was, serialize), StoredForm(now, serialize), "", ""));
      var inserted := entry.Insert(user, timestamp);
      entries := entries + [entry.data];
    }

    /** `_log_child_table_changes`: one entry per differing position, in
        ascending position order. */
    method LogChildTableChanges(doc: Doc, before: Doc, wf: Workflow, action: Option<string>, spec: TrackedField,
                                user: string, timestamp: string, serialize: Value -> string)
      modifies this
      ensures entries == old(entries)
              + Records(HeaderFor(doc, wf, action, user, timestamp), serialize,
                        ChildChanges(spec, Rows(doc, spec.childTableName), Rows(before, spec.childTableName)))
    {
      var h := HeaderFor(doc, wf, action, user, timestamp);
      var curr := Rows(doc, spec.childTableName);
      var prev := Rows(before, spec.childTableName);
      var maxLen := Max(|curr|, |prev|);
      for idx := 0 to maxLen
        invariant entries == old(entries) + Records(h, serialize, ChildChangesUpTo(spec, curr, prev, idx))
      {
        var was := if idx < |prev| then Cell(prev[idx], spec.childFieldName) else Null;
        var now := if idx < |curr| then Cell(curr[idx], spec.childFieldName) else Null;
        var path := ChildPath(spec);
        ChildRecordsStep(h, serialize, spec, curr, prev, idx);
        if was != now {
          InsertLog(doc, wf, action, path, was, now, user, timestamp, serialize);
        }
      }
    }

    /** `log_field_changes`: nothing without a before-save snapshot; otherwise
        the entries of the change summary, spec by spec. */
    method LogFieldChanges(doc: Doc, before: Option<Doc>, wf: Workflow, action: Option<string>,
                           user: string, timestamp: string, serialize: Value -> string)
      modifies this
      ensures entries == old(entries)
              + Records(HeaderFor(doc, wf, action, user, timestamp), serialize,
                        Summary(doc, before, wf.trackedFields, map[]))
    {
      if before.None? {
        return;
      }
      var prior := before.value;
      var h := HeaderFor(doc, wf, action, user, timestamp);
      var specs := wf.trackedFields;
      SummaryRecordsStart(h, serialize, doc, prior, specs);
      for k := 0 to |specs|
        invariant entries == old(entries) + LoggedUpTo(h, serialize, doc, prior, specs, k)
      {
        var spec := specs[k];
        SummaryRecordsStep(h, serialize, doc, prior, specs, k);
        if !spec.isChildTableField {
          var was := Get(prior, spec.fieldName);
          var now := Get(doc, spec.fieldName);
          if was != now {
            InsertLog(doc, wf, action, spec.fieldName, was, now, user, timestamp, serialize);
          }
        } else {
          LogChildTableChanges(doc, prior, wf, action, spec, user, timestamp, serialize);
        }
      }
      SummaryRecordsDone(h, serialize, doc, prior, specs);
    }
  }
}
