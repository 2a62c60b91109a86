/**
 * The "Workflow Field Change Log" document type: one audit record per
 * tracked-field change, written once and never updated or deleted
 * (`workflow_field_change_log.py`).
 */
module ChangeLogDoc {
  import opened Wrappers
  import opened Documents

  /** What a log column holds: the value as it is, or the JSON text of a dict
      or list value. */
  datatype Stored = AsIs(value: Value) | Serialized(json: string)

  /** `frappe.as_json(v) if isinstance(v, (dict, list)) else v`; the JSON
      encoder itself is the `serialize` parameter. */
  function StoredForm(v: Value, serialize: Value -> string): Stored {
    if v.Dict? || v.List? then Serialized(serialize(v)) else AsIs(v)
  }

  /** The columns of one log entry. An empty string is an unset column. */
  datatype LogRecord = LogRecord(
    referenceDoctype: string,
    referenceName: string,
    workflowName: string,
    action: string,
    changedField: string,
    oldValue: Stored,
    newValue: Stored,
    changedBy: string,
    changedOn: string)

  /** Where an entry is in its life: built, inside `insert()` (when
      `flags.in_insert` is set), or stored. */
  datatype Phase = Draft | Inserting | Inserted

  datatype LogError =
    | Immutable    // "Workflow Field Change Log entries are immutable."
    | Undeletable  // "Workflow Field Change Log entries cannot be deleted."

  /** Python's `current or fallback` on a string column. */
  function Defaulted(current: string, fallback: string): string {
    if current != "" then current else fallback
  }

  class WorkflowFieldChangeLog {
    var data: LogRecord
    var phase: Phase

    constructor (data: LogRecord)
      ensures this.data == data && phase == Draft
    {
      this.data := data;
      phase := Draft;
    }

    /** `before_insert`: fills `changed_by` with the session user and
        `changed_on` with the current time, each only when it is empty. */
    method BeforeInsert(user: string, now: string)
      modifies this`data
      ensures data == old(data).(changedBy := Defaulted(old(data.changedBy), user),
                                 changedOn := Defaulted(old(data.changedOn), now))
      ensures old(data.changedBy) != "" && old(data.changedOn) != "" ==> data == old(data)
    {
      data := data.(changedBy := Defaulted(data.changedBy, user),
                    changedOn := Defaulted(data.changedOn, now));
    }

    /** `on_update`: allowed only while the entry is being inserted. */
    method OnUpdate() returns (r: Outcome<LogError>)
      ensures r == if phase == Inserting then Pass else Fail(Immutable)
    {
      if phase != Inserting {
        return Fail(Immutable);
      }
      return Pass;
    }

    /** `on_trash`: deleting an entry always fails. */
    method OnTrash() returns (r: Outcome<LogError>)
      ensures r == Fail(Undeletable)
    {
      return Fail(Undeletable);
    }

    /** `insert()` as the host runs it for this document type: `before_insert`,
        the write, then the `on_update` hook with `in_insert` set, which passes. */
    method Insert(user: string, now: string) returns (r: Outcome<LogError>)
      requires phase == Draft
      modifies this
      ensures r == Pass && phase == Inserted
      ensures data == old(data).(changedBy := Defaulted(old(data.changedBy), user),
                                 changedOn := Defaulted(old(data.changedOn), now))
    {
      phase := Inserting;
      BeforeInsert(user, now);
      r := OnUpdate();
      phase := Inserted;
    }

    /** `save()` of a stored entry with edited columns: the write is followed
        by `on_update`, which raises, and the write is rolled back. */
    method Save(edited: LogRecord) returns (r: Outcome<LogError>)
      requires phase == Inserted
      modifies this`data
      ensures r == Fail(Immutable) && data == old(data)
    {
      var saved := data;
      data := edited;
      r := OnUpdate();
      if r.Fail? {
        data := saved;
      }
    }

    /** `delete()`: `on_trash` raises before anything is removed. */
    method Delete() returns (r: Outcome<LogError>)
      ensures r == Fail(Undeletable)
    {
      r := OnTrash();
    }
  }
}
