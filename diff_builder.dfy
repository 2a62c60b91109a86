/**
 * The diff builder of `workflow_field_validator.py`: the ordered list of
 * per-field changes (`build_change_summary`, `_append_child_changes`), and
 * how it relates to the change detector's verdict.
 */
module DiffBuilder {
  import opened Wrappers
  import opened Documents
  import opened ChangeDetector

  /** One summary entry: the field path, its display label, and the values
      before and after the save. */
  datatype Change = Change(field: string, displayLabel: string, oldValue: Value, newValue: Value)

  function Max(a: int, b: int): int {
    if a < b then b else a
  }

  /** The entry for position `i` of a child spec, if the values there differ.
      A position past the end of a table reads as None. */
  function ChildChangeAt(spec: TrackedField, curr: seq<Row>, prev: seq<Row>, i: int): seq<Change> {
    var was := CellAt(prev, i, spec.childFieldName);
    var now := CellAt(curr, i, spec.childFieldName);
    if was != now then [Change(ChildPath(spec), ChildPath(spec), was, now)] else []
  }

  /** The entries for positions `0 .. n-1`, in ascending order. */
  function ChildChangesUpTo(spec: TrackedField, curr: seq<Row>, prev: seq<Row>, n: nat): seq<Change> {
    if n == 0 then []
    else ChildChangesUpTo(spec, curr, prev, n - 1) + ChildChangeAt(spec, curr, prev, n - 1)
  }

  /** Every position of the longer table is visited. */
  function ChildChanges(spec: TrackedField, curr: seq<Row>, prev: seq<Row>): seq<Change> {
    ChildChangesUpTo(spec, curr, prev, Max(|curr|, |prev|))
  }

  /** A direct field's label: the meta label when the field is known,
      otherwise the raw field name. */
  function LabelOf(meta: Meta, field: string): string {
    if field in meta then meta[field].fieldLabel else field
  }

  /** The entries one spec contributes. */
  function SpecChanges(doc: Doc, before: Doc, spec: TrackedField, meta: Meta): seq<Change> {
    if !spec.isChildTableField then
      var was := Get(before, spec.fieldName);
      var now := Get(doc, spec.fieldName);
      if was != now then [Change(spec.fieldName, LabelOf(meta, spec.fieldName), was, now)] else []
    else
      ChildChanges(spec, Rows(doc, spec.childTableName), Rows(before, spec.childTableName))
  }

  /** The entries of each spec, in declaration order. */
  function SpecParts(doc: Doc, before: Doc, specs: seq<TrackedField>, meta: Meta): (parts: seq<seq<Change>>)
    ensures |parts| == |specs|
  {
    seq(|specs|, k requires 0 <= k < |specs| => SpecChanges(doc, before, specs[k], meta))
  }

  /** The concatenation of a list of entry lists. */
  function Flatten(parts: seq<seq<Change>>): seq<Change> {
    if parts == [] then [] else Flatten(parts[..|parts| - 1]) + parts[|parts| - 1]
  }

  /** The entries of `specs`, spec by spec in declaration order. */
  function SummaryOf(doc: Doc, before: Doc, specs: seq<TrackedField>, meta: Meta): seq<Change> {
    Flatten(SpecParts(doc, before, specs, meta))
  }

  /** The change summary: empty without a before-save snapshot. */
  function Summary(doc: Doc, before: Option<Doc>, specs: seq<TrackedField>, meta: Meta): seq<Change> {
    if before.None? then [] else SummaryOf(doc, before.value, specs, meta)
  }

  /** A child spec whose table is over the row limit or changed its row count:
      the detector reports it without looking at values. */
  predicate SizeChanged(doc: Doc, before: Doc, spec: TrackedField, limit: int) {
    var curr := Rows(doc, spec.childTableName);
    var prev := Rows(before, spec.childTableName);
    spec.isChildTableField && (|curr| > limit || |prev| > limit || |curr| != |prev|)
  }

  // ---------------------------------------------------------------------
  // The operations
  // ---------------------------------------------------------------------

  /** `_append_child_changes`: appends one entry per differing position of
      `0 .. max(len(curr), len(prev)) - 1` to the summary built so far. */
  method AppendChildChanges(summary: seq<Change>, doc: Doc, before: Doc, spec: TrackedField)
    returns (out: seq<Change>)
    ensures out == summary + ChildChanges(spec, Rows(doc, spec.childTableName), Rows(before, spec.childTableName))
  {
    var curr := Rows(doc, spec.childTableName);
    var prev := Rows(before, spec.childTableName);
    var maxLen := Max(|curr|, |prev|);
    out := summary;
    for idx := 0 to maxLen
      invariant out == summary + ChildChangesUpTo(spec, curr, prev, idx)
    {
      var was := if idx < |prev| then Cell(prev[idx], spec.childFieldName) else Null;
      var now := if idx < |curr| then Cell(curr[idx], spec.childFieldName) else Null;
      if was != now {
        var path := ChildPath(spec);
        out := out + [Change(path, path, was, now)];
      }
    }
  }

  /** The loop of `build_change_summary` once the snapshot and the meta are
      known: direct specs in place, child specs through AppendChildChanges. */
  method CollectChanges(doc: Doc, before: Doc, specs: seq<TrackedField>, meta: Meta)
    returns (summary: seq<Change>)
    ensures summary == SummaryOf(doc, before, specs, meta)
  {
    ghost var parts := SpecParts(doc, before, specs, meta);
    summary := [];
    for k := 0 to |specs|
      invariant summary == Flatten(parts[..k])
    {
      var spec := specs[k];
      assert parts[..k + 1][..k] == parts[..k];
      if !spec.isChildTableField {
        var was := Get(before, spec.fieldName);
        var now := Get(doc, spec.fieldName);
        if was != now {
          var fieldLabel := LabelOf(meta, spec.fieldName);
          summary := summary + [Change(spec.fieldName, fieldLabel, was, now)];
        }
      } else {
        summary := AppendChildChanges(summary, doc, before, spec);
      }
    }
    assert parts[..|specs|] == parts;
  }

  // ---------------------------------------------------------------------
  // Properties of the summary
  // ---------------------------------------------------------------------

  /** The ascending list of positions `< n` where a child spec's values differ. */
  ghost function DiffPositions(spec: TrackedField, curr: seq<Row>, prev: seq<Row>, n: nat): seq<nat> {
    if n == 0 then []
    else
      DiffPositions(spec, curr, prev, n - 1)
      + (if CellAt(prev, n - 1, spec.childFieldName) != CellAt(curr, n - 1, spec.childFieldName) then [n - 1] else [])
  }

  /** The differing positions below `n`: each is below `n` and they ascend. */
  lemma {:induction false} DiffPositionsAscend(spec: TrackedField, curr: seq<Row>, prev: seq<Row>, n: nat)
    ensures forall k :: 0 <= k < |DiffPositions(spec, curr, prev, n)| ==> DiffPositions(spec, curr, prev, n)[k] < n
    ensures forall k, l :: 0 <= k < l < |DiffPositions(spec, curr, prev, n)| ==>
              DiffPositions(spec, curr, prev, n)[k] < DiffPositions(spec, curr, prev, n)[l]
  {
    if n > 0 {
      DiffPositionsAscend(spec, curr, prev, n - 1);
      var init := DiffPositions(spec, curr, prev, n - 1);
      var pos := DiffPositions(spec, curr, prev, n);
      if CellAt(prev, n - 1, spec.childFieldName) != CellAt(curr, n - 1, spec.childFieldName) {
        assert pos == init + [n - 1];
        assert forall k :: 0 <= k < |init| ==> pos[k] == init[k] < n - 1;
      } else {
        assert pos == init;
      }
    }
  }

  /** A position below `n` is listed exactly when its values differ. */
  lemma {:induction false} DiffPositionsMembership(spec: TrackedField, curr: seq<Row>, prev: seq<Row>, n: nat)
    ensures forall i :: 0 <= i < n ==>
              (i in DiffPositions(spec, curr, prev, n) <==>
               CellAt(prev, i, spec.childFieldName) != CellAt(curr, i, spec.childFieldName))
  {
    if n > 0 {
      DiffPositionsMembership(spec, curr, prev, n - 1);
      DiffPositionsAscend(spec, curr, prev, n - 1);
      var init := DiffPositions(spec, curr, prev, n - 1);
      var extra := if CellAt(prev, n - 1, spec.childFieldName) != CellAt(curr, n - 1, spec.childFieldName) then [n - 1] else [];
      assert DiffPositions(spec, curr, prev, n) == init + extra;
      assert n - 1 !in init;
    }
  }

  /** Child diffs, position by position: exactly one entry per differing
      position, in ascending position order, labelled `"<table>.<field>"`,
      with None for a row that one side lacks. */
  lemma {:induction false} ChildChangesByPosition(spec: TrackedField, curr: seq<Row>, prev: seq<Row>, n: nat)
    ensures var pos := DiffPositions(spec, curr, prev, n);
            var cs := ChildChangesUpTo(spec, curr, prev, n);
            && |cs| == |pos|
            && (forall k :: 0 <= k < |pos| ==>
                  cs[k] == Change(ChildPath(spec), ChildPath(spec),
                                  CellAt(prev, pos[k], spec.childFieldName),
                                  CellAt(curr, pos[k], spec.childFieldName)))
            && (forall k :: 0 <= k < |pos| ==> pos[k] < n)
            && (forall k, l :: 0 <= k < l < |pos| ==> pos[k] < pos[l])
            && (forall i :: 0 <= i < n ==>
                  (i in pos <==> CellAt(prev, i, spec.childFieldName) != CellAt(curr, i, spec.childFieldName)))
  {
    DiffPositionsAscend(spec, curr, prev, n);
    DiffPositionsMembership(spec, curr, prev, n);
    ChildChangesMatchPositions(spec, curr, prev, n);
  }

  lemma {:induction false} ChildChangesMatchPositions(spec: TrackedField, curr: seq<Row>, prev: seq<Row>, n: nat)
    ensures var pos := DiffPositions(spec, curr, prev, n);
            var cs := ChildChangesUpTo(spec, curr, prev, n);
            && |cs| == |pos|
            && (forall k :: 0 <= k < |pos| ==>
                  cs[k] == Change(ChildPath(spec), ChildPath(spec),
                                  CellAt(prev, pos[k], spec.childFieldName),
                                  CellAt(curr, pos[k], spec.childFieldName)))
  {
    if n > 0 {
      ChildChangesMatchPositions(spec, curr, prev, n - 1);
      var pos := DiffPositions(spec, curr, prev, n - 1);
      var cs := ChildChangesUpTo(spec, curr, prev, n - 1);
      var was := CellAt(prev, n - 1, spec.childFieldName);
      var now := CellAt(curr, n - 1, spec.childFieldName);
      if was != now {
        assert DiffPositions(spec, curr, prev, n) == pos + [n - 1];
        assert ChildChangesUpTo(spec, curr, prev, n) == cs + [Change(ChildPath(spec), ChildPath(spec), was, now)];
      } else {
        assert DiffPositions(spec, curr, prev, n) == pos;
        assert ChildChangesUpTo(spec, curr, prev, n) == cs;
      }
    }
  }

  /** No child diff at all exactly when every visited position agrees. */
  lemma {:induction false} ChildChangesEmpty(spec: TrackedField, curr: seq<Row>, prev: seq<Row>, n: nat)
    ensures ChildChangesUpTo(spec, curr, prev, n) == [] <==>
            forall i :: 0 <= i < n ==> CellAt(prev, i, spec.childFieldName) == CellAt(curr, i, spec.childFieldName)
  {
    if n > 0 {
      ChildChangesEmpty(spec, curr, prev, n - 1);
    }
  }

  /** Every entry of a flattened list comes from one of its parts. */
  lemma {:induction false} FlattenMember(parts: seq<seq<Change>>, c: Change)
    requires c in Flatten(parts)
    ensures exists k :: 0 <= k < |parts| && c in parts[k]
  {
    var init := parts[..|parts| - 1];
    if c in Flatten(init) {
      FlattenMember(init, c);
      var k :| 0 <= k < |init| && c in init[k];
      assert parts[k] == init[k];
    }
  }

  /** The flattening of a concatenation. */
  lemma {:induction false} FlattenConcat(a: seq<seq<Change>>, b: seq<seq<Change>>)
    ensures Flatten(a + b) == Flatten(a) + Flatten(b)
  {
    if b == [] {
      assert a + b == a;
    } else {
      var init := b[..|b| - 1];
      FlattenConcat(a, init);
      assert (a + b)[..|a + b| - 1] == a + init;
      assert (a + b)[|a + b| - 1] == b[|b| - 1];
      assert Flatten(a + b) == Flatten(a + init) + b[|b| - 1];
    }
  }

  /** No entries at all exactly when every part is empty. */
  lemma {:induction false} FlattenEmpty(parts: seq<seq<Change>>)
    ensures Flatten(parts) == [] <==> forall k :: 0 <= k < |parts| ==> parts[k] == []
  {
    if parts != [] {
      var init := parts[..|parts| - 1];
      FlattenEmpty(init);
      assert forall k :: 0 <= k < |init| ==> init[k] == parts[k];
    }
  }

  /** Every summary entry records a real difference. */
  lemma SummaryEntriesDiffer(doc: Doc, before: Doc, specs: seq<TrackedField>, meta: Meta)
    ensures forall c :: c in SummaryOf(doc, before, specs, meta) ==> c.oldValue != c.newValue
  {
    var parts := SpecParts(doc, before, specs, meta);
    forall c | c in Flatten(parts)
      ensures c.oldValue != c.newValue
    {
      FlattenMember(parts, c);
      var k :| 0 <= k < |parts| && c in parts[k];
      var spec := specs[k];
      if spec.isChildTableField {
        var curr := Rows(doc, spec.childTableName);
        var prev := Rows(before, spec.childTableName);
        ChildChangesByPosition(spec, curr, prev, Max(|curr|, |prev|));
      }
    }
  }

  /** Declaration order: the summary of `specs1 + specs2` lists every entry of
      `specs1` before any entry of `specs2`. */
  lemma SummaryConcat(doc: Doc, before: Doc, specs1: seq<TrackedField>, specs2: seq<TrackedField>, meta: Meta)
    ensures SummaryOf(doc, before, specs1 + specs2, meta)
         == SummaryOf(doc, before, specs1, meta) + SummaryOf(doc, before, specs2, meta)
  {
    assert SpecParts(doc, before, specs1 + specs2, meta)
        == SpecParts(doc, before, specs1, meta) + SpecParts(doc, before, specs2, meta);
    FlattenConcat(SpecParts(doc, before, specs1, meta), SpecParts(doc, before, specs2, meta));
  }

  /** One spec: the detector sees a difference exactly when the spec
      contributes an entry or its table is oversized or resized. */
  lemma SpecDiffersIffEntries(doc: Doc, before: Doc, spec: TrackedField, meta: Meta, limit: int)
    ensures SpecDiffers(doc, before, spec, limit) <==>
            SpecChanges(doc, before, spec, meta) != [] || SizeChanged(doc, before, spec, limit)
  {
    if spec.isChildTableField {
      var curr := Rows(doc, spec.childTableName);
      var prev := Rows(before, spec.childTableName);
      var f := spec.childFieldName;
      ChildChangesEmpty(spec, curr, prev, Max(|curr|, |prev|));
      if !SizeChanged(doc, before, spec, limit) {
        assert |curr| == |prev| == Max(|curr|, |prev|);
        if SpecChanges(doc, before, spec, meta) != [] {
          var i :| 0 <= i < |curr| && CellAt(prev, i, f) != CellAt(curr, i, f);
          assert Cell(curr[i], f) != Cell(prev[i], f);
        }
        if SpecDiffers(doc, before, spec, limit) {
          var i :| 0 <= i < |curr| && Cell(curr[i], f) != Cell(prev[i], f);
          assert CellAt(prev, i, f) != CellAt(curr, i, f);
        }
      }
    }
  }

  /** The detector and the diff agree: with a snapshot, a tracked change is
      reported exactly when the summary is non-empty or some tracked child
      table is oversized or changed its row count. (A resized table need not
      yield an entry: an added row whose field is None matches the None that
      stands for the missing row.) */
  lemma DetectorMatchesSummary(doc: Doc, before: Doc, specs: seq<TrackedField>, meta: Meta, limit: int)
    ensures AnyTrackedChange(doc, Some(before), specs, limit) <==>
            || Summary(doc, Some(before), specs, meta) != []
            || exists k :: 0 <= k < |specs| && SizeChanged(doc, before, specs[k], limit)
  {
    var parts := SpecParts(doc, before, specs, meta);
    FlattenEmpty(parts);
    forall k | 0 <= k < |specs|
      ensures SpecDiffers(doc, before, specs[k], limit) <==>
              parts[k] != [] || SizeChanged(doc, before, specs[k], limit)
    {
      SpecDiffersIffEntries(doc, before, specs[k], meta, limit);
    }
    if AnyTrackedChange(doc, Some(before), specs, limit) {
      var k :| 0 <= k < |specs| && SpecDiffers(doc, before, specs[k], limit);
      assert parts[k] != [] || SizeChanged(doc, before, specs[k], limit);
    }
    if Flatten(parts) != [] {
      var k :| 0 <= k < |parts| && parts[k] != [];
      assert SpecDiffers(doc, before, specs[k], limit);
    }
  }

  /** A scenario: `status` is tracked directly and `items.qty` in a
      child table; only the second row's qty changes from 2 to 5. */
  lemma ScenarioItemsQty()
    ensures var specs := [TrackedField(false, "status", "", ""), TrackedField(true, "", "items", "qty")];
            var before := Doc("Order", "ORD-1", map["status" := Scalar("Draft")],
                              map["items" := [map["qty" := Scalar("1")], map["qty" := Scalar("2")]]]);
            var doc := Doc("Order", "ORD-1", map["status" := Scalar("Draft")],
                           map["items" := [map["qty" := Scalar("1")], map["qty" := Scalar("5")]]]);
            && AnyTrackedChange(doc, Some(before), specs, 200)
            && Summary(doc, Some(before), specs, map[])
               == [Change("items.qty", "items.qty", Scalar("2"), Scalar("5"))]
  {
    var specs := [TrackedField(false, "status", "", ""), TrackedField(true, "", "items", "qty")];
    var prev := [map["qty" := Scalar("1")], map["qty" := Scalar("2")]];
    var curr := [map["qty" := Scalar("1")], map["qty" := Scalar("5")]];
    var before := Doc("Order", "ORD-1", map["status" := Scalar("Draft")], map["items" := prev]);
    var doc := Doc("Order", "ORD-1", map["status" := Scalar("Draft")], map["items" := curr]);
    assert Cell(curr[1], "qty") != Cell(prev[1], "qty");
    assert SpecDiffers(doc, before, specs[1], 200);
    assert ChildChangesUpTo(specs[1], curr, prev, 1) == [];
    assert ChildPath(specs[1]) == "items.qty";
    assert CellAt(prev, 1, "qty") == Scalar("2") && CellAt(curr, 1, "qty") == Scalar("5");
    assert ChildChangeAt(specs[1], curr, prev, 1) == [Change("items.qty", "items.qty", Scalar("2"), Scalar("5"))];
    assert ChildChangesUpTo(specs[1], curr, prev, 2) == [Change("items.qty", "items.qty", Scalar("2"), Scalar("5"))];
    var parts := SpecParts(doc, before, specs, map[]);
    assert parts == [[], [Change("items.qty", "items.qty", Scalar("2"), Scalar("5"))]];
    assert parts[..1][..0] == [];
    assert Flatten(parts[..1]) == [];
    assert Flatten(parts) == Flatten(parts[..1]) + parts[1];
  }

  /** A table that gains a row whose tracked field is None counts as changed,
      yet the summary has no entry for it. */
  lemma ResizedTableWithoutEntries()
    ensures var specs := [TrackedField(true, "", "items", "qty")];
            var before := Doc("Order", "ORD-1", map[], map["items" := []]);
            var doc := Doc("Order", "ORD-1", map[], map["items" := [map[]]]);
            && AnyTrackedChange(doc, Some(before), specs, 200)
            && Summary(doc, Some(before), specs, map[]) == []
  {
    var specs := [TrackedField(true, "", "items", "qty")];
    var prev: seq<Row> := [];
    var curr: seq<Row> := [map[]];
    var before := Doc("Order", "ORD-1", map[], map["items" := prev]);
    var doc := Doc("Order", "ORD-1", map[], map["items" := curr]);
    assert SpecDiffers(doc, before, specs[0], 200);
    assert CellAt(prev, 0, "qty") == Null == CellAt(curr, 0, "qty");
    assert ChildChangesUpTo(specs[0], curr, prev, 1) == ChildChangesUpTo(specs[0], curr, prev, 0) + [];
    var parts := SpecParts(doc, before, specs, map[]);
    assert parts == [[]];
    assert parts[..0] == [];
  }
}
