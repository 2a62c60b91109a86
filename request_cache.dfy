/**
 * The per-request state that `workflow_field_validator.py` and the workflow
 * override keep on `frappe.local`: the active-workflow cache
 * (`flw_active_workflow`) and the meta cache (`flw_meta`), together with the
 * request's view of the database, the schema, the session user and the clock.
 */
module RequestCache {
  import opened Wrappers
  import opened Documents

  /** The active workflow of a document type, as the database holds it; a
      type without one is absent from `db`. */
  function ActiveWorkflow(db: map<string, Workflow>, doctype: string): Option<Workflow> {
    if doctype in db then Some(db[doctype]) else None
  }

  class Request {
    const db: map<string, Workflow>
    const schema: Schema
    const user: string
    const now: string
    const tableLimitSetting: Option<int>
    const serialize: Value -> string

    var workflowCache: map<string, Option<Workflow>>
    var metaCache: map<string, Meta>
    /** The document types looked up in the database, in order. */
    var queries: seq<string>

    /** Every cached entry agrees with the database and the schema. */
    ghost predicate Valid()
      reads this
    {
      && (forall dt :: dt in workflowCache ==> workflowCache[dt] == ActiveWorkflow(db, dt))
      && (forall dt :: dt in metaCache ==> dt in schema && metaCache[dt] == schema[dt])
    }

    constructor (db: map<string, Workflow>, schema: Schema, user: string, now: string,
                 tableLimitSetting: Option<int>, serialize: Value -> string)
      ensures Valid()
      ensures this.db == db && this.schema == schema && this.user == user && this.now == now
      ensures this.tableLimitSetting == tableLimitSetting && this.serialize == serialize
      ensures workflowCache == map[] && metaCache == map[] && queries == []
    {
      this.db := db;
      this.schema := schema;
      this.user := user;
      this.now := now;
      this.tableLimitSetting := tableLimitSetting;
      this.serialize := serialize;
      workflowCache := map[];
      metaCache := map[];
      queries := [];
    }

    /** `get_active_workflow`: a cached answer (a cached None included) is
        returned without a query; otherwise the database is asked once and
        the answer is cached. */
    method GetActiveWorkflow(doctype: string) returns (wf: Option<Workflow>)
      modifies this`workflowCache, this`queries
      ensures wf == if doctype in old(workflowCache) then old(workflowCache)[doctype] else ActiveWorkflow(db, doctype)
      ensures workflowCache == old(workflowCache)[doctype := wf]
      ensures queries == if doctype in old(workflowCache) then old(queries) else old(queries) + [doctype]
      ensures old(Valid()) ==> Valid() && wf == ActiveWorkflow(db, doctype)
    {
      if doctype in workflowCache {
        return workflowCache[doctype];
      }
      queries := queries + [doctype];
      if doctype !in db {
        workflowCache := workflowCache[doctype := None];
        return None;
      }
      wf := Some(db[doctype]);
      workflowCache := workflowCache[doctype := wf];
    }

    /** `meta_cache.setdefault(doctype, frappe.get_meta(doctype))`: the meta
        is loaded first (an unknown type raises, here None), then the cached
        entry wins over the fresh one. */
    method GetMeta(doctype: string) returns (meta: Option<Meta>)
      modifies this`metaCache
      ensures doctype !in schema ==> meta == None && metaCache == old(metaCache)
      ensures doctype in schema ==>
                && meta == Some(if doctype in old(metaCache) then old(metaCache)[doctype] else schema[doctype])
                && metaCache == old(metaCache)[doctype := meta.value]
      ensures old(Valid()) ==> Valid() && meta == if doctype in schema then Some(schema[doctype]) else None
    {
      if doctype !in schema {
        return None;
      }
      var loaded := schema[doctype];
      if doctype !in metaCache {
        metaCache := metaCache[doctype := loaded];
      }
      meta := Some(metaCache[doctype]);
    }
  }
}
