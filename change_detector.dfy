/**
 * The change detector of `workflow_field_validator.py`: decides whether any
 * tracked field of a document differs from its before-save snapshot.
 */
module ChangeDetector {
  import opened Wrappers
  import opened Documents

  /** A tracked child table counts as changed when either side is over the row
      limit, when the row counts differ, or when some position holds a
      different value of `field`. Rows are matched by position only. */
  predicate TableDiffers(curr: seq<Row>, prev: seq<Row>, field: string, limit: int) {
    || |curr| > limit
    || |prev| > limit
    || |curr| != |prev|
    || exists i :: 0 <= i < |curr| && Cell(curr[i], field) != Cell(prev[i], field)
  }

  /** One tracked spec shows a difference between `before` and `doc`. */
  predicate SpecDiffers(doc: Doc, before: Doc, spec: TrackedField, limit: int) {
    if !spec.isChildTableField then
      Get(before, spec.fieldName) != Get(doc, spec.fieldName)
    else
      TableDiffers(Rows(doc, spec.childTableName), Rows(before, spec.childTableName),
                   spec.childFieldName, limit)
  }

  /** The detector's verdict: no snapshot at all, or some spec differs. */
  predicate AnyTrackedChange(doc: Doc, before: Option<Doc>, specs: seq<TrackedField>, limit: int) {
    || before.None?
    || exists k :: 0 <= k < |specs| && SpecDiffers(doc, before.value, specs[k], limit)
  }

  /** `child_table_changed`: the size guard, then the count check, then the
      positional scan that stops at the first differing row. */
  method ChildTableChanged(doc: Doc, before: Doc, tableField: string, fieldname: string, limit: int)
    returns (changed: bool)
    ensures changed == TableDiffers(Rows(doc, tableField), Rows(before, tableField), fieldname, limit)
  {
    var curr := Rows(doc, tableField);
    var prev := Rows(before, tableField);
    if |curr| > limit || |prev| > limit {
      return true;
    }
    if |curr| != |prev| {
      return true;
    }
    var idx := 0;
    while idx < |curr|
      invariant 0 <= idx <= |curr|
      invariant forall i :: 0 <= i < idx ==> Cell(curr[i], fieldname) == Cell(prev[i], fieldname)
    {
      if Cell(curr[idx], fieldname) != Cell(prev[idx], fieldname) {
        return true;
      }
      idx := idx + 1;
    }
    return false;
  }

  /** `tracked_fields_changed`: true without a snapshot; otherwise scans the
      specs in declaration order and stops at the first one that differs. */
  method TrackedFieldsChanged(doc: Doc, before: Option<Doc>, specs: seq<TrackedField>, limit: int)
    returns (changed: bool)
    ensures changed == AnyTrackedChange(doc, before, specs, limit)
    ensures !changed ==> before.Some? && forall k :: 0 <= k < |specs| ==> !SpecDiffers(doc, before.value, specs[k], limit)
  {
    if before.None? {
      return true;
    }
    var prior := before.value;
    var k := 0;
    while k < |specs|
      invariant 0 <= k <= |specs|
      invariant forall j :: 0 <= j < k ==> !SpecDiffers(doc, prior, specs[j], limit)
    {
      var spec := specs[k];
      if !spec.isChildTableField {
        if Get(prior, spec.fieldName) != Get(doc, spec.fieldName) {
          return true;
        }
      } else {
        var tableChanged := ChildTableChanged(doc, prior, spec.childTableName, spec.childFieldName, limit);
        if tableChanged {
          return true;
        }
      }
      k := k + 1;
    }
    return false;
  }
}
