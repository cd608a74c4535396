/**
 * Tenant isolation and soft deletion by query rewriting
 * (apps/api/src/database/prisma/tenant-prisma.extension.ts). One table at a time; a row is a map
 * from columns to values. Filters have Prisma's meaning: every top-level condition must hold, and
 * an undefined condition is none.
 */
module TenantQuery {
  import opened Optional

  datatype Value = Null | Text(s: string) | Number(n: int) | Moment(ms: int)

  type Row = map<string, Value>

  const COACHING_ID: string := "coachingId"
  const DELETED_AT: string := "deletedAt"
  /** The relation field through which data can name the coaching instead of `coachingId`. */
  const COACHING: string := "coaching"

  datatype Cond = Undefined | Equals(v: Value) | Test(holds: Value -> bool)

  datatype Clause = AllOf(ws: seq<Where>) | AnyOf(ws: seq<Where>) | NoneOf(ws: seq<Where>)

  /** A `where` object: conditions on columns, and its AND, OR and NOT keys. */
  datatype Where = Where(fields: map<string, Cond>, clauses: seq<Clause>)

  function Column(row: Row, k: string): Value {
    if k in row then row[k] else Null
  }

  predicate Holds(c: Cond, v: Value) {
    match c
    case Undefined => true
    case Equals(w) => v == w
    case Test(holds) => holds(v)
  }

  predicate Matches(w: Where, row: Row) {
    && (forall k :: k in w.fields ==> Holds(w.fields[k], Column(row, k)))
    && (forall i :: 0 <= i < |w.clauses| ==> ClauseHolds(w.clauses[i], row))
  }

  predicate ClauseHolds(c: Clause, row: Row) {
    match c
    case AllOf(ws) => forall i :: 0 <= i < |ws| ==> Matches(ws[i], row)
    case AnyOf(ws) => exists i :: 0 <= i < |ws| && Matches(ws[i], row)
    case NoneOf(ws) => forall i :: 0 <= i < |ws| ==> !Matches(ws[i], row)
  }

  const Everything := Where(map[], [])

  predicate MatchesOptional(w: Option<Where>, row: Row) {
    w.None? || Matches(w.value, row)
  }

  /** What the model lists say of a model. */
  datatype Model = Model(tenantScoped: bool, softDelete: bool, auditedCreate: bool, auditedUpdate: bool)

  datatype Scope = Tenant(id: string) | System | NoScope

  datatype Error = TenantContextMissing | CrossTenantAccess | SoftDeleteInTransaction | NotFound | Database

  datatype Rewrite<T> = Ok(value: T) | Refused(error: Error)

  // ---------- The rewriting functions ----------

  /** The tenant a value names must be the active one, if it names any. */
  predicate SameTenant(c: Option<Cond>, scope: Scope) {
    scope.Tenant? ==> c.None? || c.value.Undefined? || (c.value.Equals? && c.value.v == Text(scope.id))
  }

  function Lookup<T>(m: map<string, T>, k: string): Option<T> {
    if k in m then Some(m[k]) else None
  }

  function Filters(w: Option<Where>, scope: Scope, model: Model, excludeDeleted: bool): map<string, Cond> {
    (if model.tenantScoped && scope.Tenant? then map[COACHING_ID := Equals(Text(scope.id))] else map[])
    + (if excludeDeleted && model.softDelete && !(w.Some? && DELETED_AT in w.value.fields)
       then map[DELETED_AT := Equals(Null)] else map[])
  }

  /** `unique` operations need their key at the top level, so the filters are spread into the object. */
  function ScopeWhere(w: Option<Where>, scope: Scope, model: Model, unique: bool,
      excludeDeleted: bool): Rewrite<Where> {
    var filters := Filters(w, scope, model, excludeDeleted);
    if model.tenantScoped && w.Some? && !SameTenant(Lookup(w.value.fields, COACHING_ID), scope) then
      Refused(CrossTenantAccess)
    else if filters.Keys == {} then Ok(if w.Some? then w.value else Everything)
    else if unique then
      Ok(if w.Some? then w.value.(fields := w.value.fields + filters) else Where(filters, []))
    else if w.Some? && (w.value.fields.Keys != {}
        || |w.value.clauses| > 0) then Ok(Where(map[], [AllOf([w.value, Where(filters, [])])]))
    else Ok(Where(filters, []))
  }

  function StampCreate(data: Row, scope: Scope, model: Model, user: Option<string>): Rewrite<Row> {
    if model.tenantScoped && scope.Tenant? && COACHING_ID in data && data[COACHING_ID] != Text(scope.id) then
      Refused(CrossTenantAccess)
    else
      var stamped := if model.tenantScoped && scope.Tenant? && COACHING !in data
                     then data[COACHING_ID := Text(scope.id)] else data;
      Ok(if model.auditedCreate && user.Some? && "createdBy" !in data
         then stamped["createdBy" := Text(user.value)] else stamped)
  }

  function StampUpdate(data: Row, scope: Scope, model: Model, user: Option<string>): Rewrite<Row> {
    if model.tenantScoped && scope.Tenant? && COACHING_ID in data && data[COACHING_ID] != Text(scope.id) then
      Refused(CrossTenantAccess)
    else
      Ok(if model.auditedUpdate && user.Some? && "updatedBy" !in data
         then data["updatedBy" := Text(user.value)] else data)
  }

  // ---------- What the rewriting means ----------

  predicate Owned(row: Row, t: string) {
    Column(row, COACHING_ID) == Text(t)
  }

  predicate Live(row: Row) {
    Column(row, DELETED_AT) == Null
  }

  /** The rows an operation of this scope is meant to reach: the caller's, within the tenant, and live. */
  predicate Reaches(w: Option<Where>, scope: Scope, model: Model, excludeDeleted: bool, row: Row) {
    && MatchesOptional(w, row)
    && (model.tenantScoped && scope.Tenant? ==> Owned(row, scope.id))
    && (excludeDeleted && model.softDelete && !(w.Some? && DELETED_AT in w.value.fields) ==> Live(row))
  }

  lemma FiltersMean(w: Option<Where>, scope: Scope, model: Model, excludeDeleted: bool, row: Row)
    ensures var filters := Filters(w, scope, model, excludeDeleted);
            Matches(Where(filters, []), row) <==>
              && (model.tenantScoped && scope.Tenant? ==> Owned(row, scope.id))
              && (excludeDeleted && model.softDelete && !(w.Some? && DELETED_AT in w.value.fields) ==> Live(row))
  {
    var f := Where(Filters(w, scope, model, excludeDeleted), []);
    assert COACHING_ID != DELETED_AT;
    if Matches(f, row) {
      assert COACHING_ID in f.fields ==> Holds(f.fields[COACHING_ID], Column(row, COACHING_ID));
      assert DELETED_AT in f.fields ==> Holds(f.fields[DELETED_AT], Column(row, DELETED_AT));
    }
  }

  /** Spreading the filters over the caller's conditions means both, though it overwrites some. */
  lemma SpreadMeans(w: Where, filters: map<string, Cond>, row: Row)
    requires forall k :: k in filters && k in w.fields ==>
               w.fields[k].Undefined? || (w.fields[k].Equals? && filters[k].Equals? && w.fields[k].v == filters[k].v)
    ensures Matches(w.(fields := w.fields + filters), row) <==> Matches(w, row) && Matches(Where(filters, []), row)
  {
    var both := w.(fields := w.fields + filters);
    if Matches(both, row) {
      forall k | k in w.fields
        ensures Holds(w.fields[k], Column(row, k))
      {
        assert Holds(both.fields[k], Column(row, k));
      }
      forall k | k in filters
        ensures Holds(filters[k], Column(row, k))
      {
        assert Holds(both.fields[k], Column(row, k));
      }
    }
  }

  lemma ConjunctionMeans(v: Where, w: Where, row: Row)
    ensures Matches(Where(map[], [AllOf([v, w])]), row) <==> Matches(v, row) && Matches(w, row)
  {
    var both := Where(map[], [AllOf([v, w])]);
    assert both.clauses[0] == AllOf([v, w]);
    assert [v, w][0] == v && [v, w][1] == w;
    if Matches(both, row) {
      assert ClauseHolds(both.clauses[0], row);
    }
  }

  /** In both forms the rewritten filter selects exactly the rows the operation is meant to reach. */
  lemma ScopeWhereMeans(w: Option<Where>, scope: Scope, model: Model, unique: bool, excludeDeleted: bool, row: Row)
    ensures ScopeWhere(w, scope, model, unique, excludeDeleted).Ok? ==>
              (Matches(ScopeWhere(w, scope, model, unique, excludeDeleted).value, row) <==>
               Reaches(w, scope, model, excludeDeleted, row))
    ensures ScopeWhere(w, scope, model, unique, excludeDeleted).Refused? <==>
              && model.tenantScoped && scope.Tenant? && w.Some? && COACHING_ID in w.value.fields
              && !w.value.fields[COACHING_ID].Undefined?
              && w.value.fields[COACHING_ID] != Equals(Text(scope.id))
  {
    var filters := Filters(w, scope, model, excludeDeleted);
    FiltersMean(w, scope, model, excludeDeleted, row);
    if w.Some? && ScopeWhere(w, scope, model, unique, excludeDeleted).Ok? {
      if unique {
        SpreadMeans(w.value, filters, row);
      } else {
        ConjunctionMeans(w.value, Where(filters, []), row);
      }
    }
  }

  // ---------- Operations ----------

  type Rows = map<nat, Row>

  datatype Query =
    | Find(where: Option<Where>, unique: bool, many: bool) // the eight read operations
    | Create(data: Row)
    | CreateMany(items: seq<Row>)
    | Update(key: Where, data: Row)
    | UpdateMany(where: Option<Where>, data: Row)
    | Upsert(key: Where, create: Row, data: Row)
    | Delete(key: Where)
    | DeleteMany(where: Option<Where>)
    | Other(where: Option<Where>, data: Row) // any other write; refused on tenant models

  /** The rows read or written, or why nothing was done. */
  datatype Result = Fail(error: Error) | Done(ids: set<nat>)

  /** The row that data describes: a coaching relation sets the foreign key. */
  function Stored(data: Row): Row {
    if COACHING in data then (data - {COACHING})[COACHING_ID := data[COACHING]] else data
  }

  function Changed(row: Row, data: Row): Row {
    Stored(row + data)
  }

  function ChangeAll(rows: Rows, ids: set<nat>, data: Row): Rows {
    map id | id in rows :: if id in ids then Changed(rows[id], data) else rows[id]
  }

  function Matching(rows: Rows, w: Where): set<nat> {
    set id | id in rows && Matches(w, rows[id])
  }

  function Select(rows: Rows, w: Option<Where>, scope: Scope, model: Model, excludeDeleted: bool): set<nat> {
    set id | id in rows && Reaches(w, scope, model, excludeDeleted, rows[id])
  }

  lemma MatchingIsSelect(rows: Rows, w: Option<Where>, scope: Scope, model: Model, unique: bool, excludeDeleted: bool)
    requires ScopeWhere(w, scope, model, unique, excludeDeleted).Ok?
    ensures Matching(rows, ScopeWhere(w, scope, model, unique, excludeDeleted).value)
         == Select(rows, w, scope, model, excludeDeleted)
  {
    forall id | id in rows
      ensures Matches(ScopeWhere(w, scope, model, unique, excludeDeleted).value, rows[id])
         <==> Reaches(w, scope, model, excludeDeleted, rows[id])
    {
      ScopeWhereMeans(w, scope, model, unique, excludeDeleted, rows[id]);
    }
  }

  function StampAll(items: seq<Row>, scope: Scope, model: Model, user: Option<string>): (r: Rewrite<seq<Row>>)
    ensures r.Ok? ==> |r.value| == |items|
  {
    if items == [] then Ok([])
    else
      var first := StampCreate(items[0], scope, model, user);
      var rest := StampAll(items[1..], scope, model, user);
      if first.Refused? then Refused(first.error)
      else if rest.Refused? then Refused(rest.error)
      else Ok([first.value] + rest.value)
  }

  function InsertAll(rows: Rows, next: nat, items: seq<Row>): Rows
    decreases |items|
  {
    if items == [] then rows else InsertAll(rows[next := Stored(items[0])], next + 1, items[1..])
  }

  /** The columns a soft delete writes. */
  function Deletion(model: Model, user: Option<string>, now: int): Row {
    map[DELETED_AT := Moment(now)]
    + if model.auditedUpdate && user.Some? then map["updatedBy" := Text(user.value)] else map[]
  }

  predicate Deletes(q: Query) {
    q.Delete? || q.DeleteMany?
  }

  /** A filter names the coaching, and not as this one. */
  predicate FilterNamesAnother(w: Option<Where>, t: string) {
    && w.Some? && COACHING_ID in w.value.fields
    && !w.value.fields[COACHING_ID].Undefined? && w.value.fields[COACHING_ID] != Equals(Text(t))
  }

  /** A filter that may not be used in this scope. */
  predicate FilterForbidden(w: Option<Where>, scope: Scope, model: Model) {
    model.tenantScoped && scope.Tenant? && FilterNamesAnother(w, scope.id)
  }

  predicate DataNamesAnother(data: Row, t: string) {
    COACHING_ID in data && data[COACHING_ID] != Text(t)
  }

  /** Somewhere in its arguments an operation names a coaching other than this one. */
  ghost predicate NamesAnother(q: Query, t: string) {
    match q
    case Find(w, _, _) => FilterNamesAnother(w, t)
    case Create(data) => DataNamesAnother(data, t)
    case CreateMany(items) => exists i :: 0 <= i < |items| && DataNamesAnother(items[i], t)
    case Update(key, data) => FilterNamesAnother(Some(key), t) || DataNamesAnother(data, t)
    case UpdateMany(w, data) => FilterNamesAnother(w, t) || DataNamesAnother(data, t)
    case Upsert(key, create, data) =>
      FilterNamesAnother(Some(key), t) || DataNamesAnother(create, t) || DataNamesAnother(data, t)
    case Delete(key) => FilterNamesAnother(Some(key), t)
    case DeleteMany(w) => FilterNamesAnother(w, t)
    case Other(_, _) => false
  }

  /** Why an operation is refused before it gets to the database, if it is. */
  ghost function RefusalOf(model: Model, scope: Scope, inTransaction: bool, q: Query): Option<Error> {
    if model.tenantScoped && (scope.NoScope? || q.Other?) then Some(TenantContextMissing)
    else if model.tenantScoped && scope.Tenant? && NamesAnother(q, scope.id) then Some(CrossTenantAccess)
    else if model.softDelete && inTransaction && Deletes(q) then Some(SoftDeleteInTransaction)
    else None
  }

  /** An update or delete of a single row that finds none. */
  predicate FindsNone(model: Model, scope: Scope, q: Query, rows: Rows) {
    || (q.Update? && Select(rows, Some(q.key), scope, model, true) == {})
    || (q.Delete? && Select(rows, Some(q.key), scope, model, model.softDelete) == {})
  }

  /** When an operation fails, and with what: refused, given up by the database, or nothing found. */
  ghost predicate Answers(model: Model, scope: Scope, inTransaction: bool, q: Query, down: bool, before: Rows,
                          r: Result) {
    var refusal := RefusalOf(model, scope, inTransaction, q);
    if refusal.Some? then r == Fail(refusal.value)
    else if down then r == Fail(Database)
    else if FindsNone(model, scope, q, before) then r == Fail(NotFound)
    else r.Done?
  }

  lemma {:induction false} StampAllRefuses(items: seq<Row>, scope: Scope, model: Model, user: Option<string>)
    ensures StampAll(items, scope, model, user).Refused? <==>
            model.tenantScoped && scope.Tenant? && exists i :: 0 <= i < |items| && DataNamesAnother(items[i], scope.id)
    ensures StampAll(items, scope, model, user).Refused? ==>
              StampAll(items, scope, model, user).error == CrossTenantAccess
  {
    if items != [] {
      StampAllRefuses(items[1..], scope, model, user);
      if scope.Tenant? {
        forall i | 0 < i < |items|
          ensures items[i] == items[1..][i - 1]
        {
        }
      }
    }
  }

  /** One of `ids`, or the failure of finding none. */
  ghost predicate Single(r: Result, ids: set<nat>) {
    r.Done? ==> exists id :: id in ids && r.ids == {id}
  }

  /**
   * What an operation does to the table, said in terms of the rows it reaches rather than of the
   * rewritten filter. New rows are numbered from `next`.
   */
  ghost predicate Effect(model: Model, scope: Scope, user: Option<string>, q: Query, now: int,
                         before: Rows, after: Rows, next: nat, r: Result) {
    if r.Fail? then after == before
    else match q
      case Find(w, _, many) =>
        && after == before
        && var reached := Select(before, w, scope, model, true);
           if many then r.ids == reached else Single(r, reached) || (r.ids == {} == reached)
      case Create(data) =>
        && StampCreate(data, scope, model, user).Ok?
        && r.ids == after.Keys - before.Keys
        && after == before[next := Stored(StampCreate(data, scope, model, user).value)]
      case CreateMany(items) =>
        && StampAll(items, scope, model, user).Ok?
        && r.ids == after.Keys - before.Keys
        && after == InsertAll(before, next, StampAll(items, scope, model, user).value)
      case Update(key, data) =>
        && StampUpdate(data, scope, model, user).Ok?
        && Single(r, Select(before, Some(key), scope, model, true))
        && after == ChangeAll(before, r.ids, StampUpdate(data, scope, model, user).value)
      case UpdateMany(w, data) =>
        && StampUpdate(data, scope, model, user).Ok?
        && r.ids == Select(before, w, scope, model, true)
        && after == ChangeAll(before, r.ids, StampUpdate(data, scope, model, user).value)
      case Upsert(key, create, data) =>
        && StampUpdate(data, scope, model, user).Ok? && StampCreate(create, scope, model, user).Ok?
        && var reached := Select(before, Some(key), scope, model, false);
           if reached == {} then
             r.ids == after.Keys - before.Keys
                 && after == before[next := Stored(StampCreate(create, scope, model, user).value)]
           else
             Single(r, reached) && after == ChangeAll(before, r.ids, StampUpdate(data, scope, model, user).value)
      case Delete(key) =>
        && Single(r, Select(before, Some(key), scope, model, model.softDelete))
        && after == if model.softDelete then ChangeAll(before, r.ids, Deletion(model, user, now)) else before - r.ids
      case DeleteMany(w) =>
        && r.ids == Select(before, w, scope, model, model.softDelete)
        && after == if model.softDelete then ChangeAll(before, r.ids, Deletion(model, user, now)) else before - r.ids
      case Other(w, data) =>
        && !model.tenantScoped
        && (forall id :: id in r.ids <==> id in before && MatchesOptional(w, before[id]))
        && after == ChangeAll(before, r.ids, data)
  }

  class TenantClient {
    const model: Model
    var rows: Rows
    var next: nat

    /** The audited models are all tenant-scoped. */
    constructor (model: Model)
      requires model.auditedCreate || model.auditedUpdate ==> model.tenantScoped
      ensures this.model == model && rows == map[] && next == 0 && Valid()
    {
      this.model := model;
      rows, next := map[], 0;
    }

    ghost predicate Valid()
      reads this
    {
      && (model.auditedCreate || model.auditedUpdate ==> model.tenantScoped)
      && (forall id :: id in rows ==> id < next)
    }

    /**
     * The client extension's hook: rewrites the arguments and runs the operation, or refuses it.
     * `down` says that the database fails the operation once it gets there.
     */
    method AllOperations(scope: Scope, user: Option<string>, inTransaction: bool, q: Query, now: int, down: bool)
      returns (r: Result)
      requires Valid()
      modifies this`rows, this`next
      ensures Valid()
      ensures Effect(model, scope, user, q, now, old(rows), rows, old(next), r)
      ensures Answers(model, scope, inTransaction, q, down, old(rows), r)
    {
      if model.tenantScoped && scope.NoScope? {
        return Fail(TenantContextMissing);
      }
      if q.Find? {
        r := Read(q.where, scope, q.unique, q.many, down);
      } else if q.Other? {
        if model.tenantScoped {
          return Fail(TenantContextMissing);
        }
        r := Unscoped(q.where, q.data, down);
      } else if q.Create? || q.CreateMany? || q.Upsert? {
        r := Creates(scope, user, inTransaction, q, now, down);
      } else {
        r := Changes(scope, user, inTransaction, q, now, down);
      }
    }

    method Creates(scope: Scope, user: Option<string>, inTransaction: bool, q: Query, now: int, down: bool)
      returns (r: Result)
      requires Valid() && (q.Create? || q.CreateMany? || q.Upsert?) && !(model.tenantScoped && scope.NoScope?)
      modifies this`rows, this`next
      ensures Valid()
      ensures Effect(model, scope, user, q, now, old(rows), rows, old(next), r)
      ensures Answers(model, scope, inTransaction, q, down, old(rows), r)
    {
      match q
      case Create(data) =>
        var stamped := StampCreate(data, scope, model, user);
        r := Add(if stamped.Refused? then Refused(stamped.error) else Ok([stamped.value]), down);
      case CreateMany(items) =>
        StampAllRefuses(items, scope, model, user);
        r := Add(StampAll(items, scope, model, user), down);
      case Upsert(key, create, data) =>
        r := CreateOrUpdate(key, create, data, scope, user, down);
    }

    method Changes(scope: Scope, user: Option<string>, inTransaction: bool, q: Query, now: int, down: bool)
      returns (r: Result)
      requires Valid() && (q.Update? || q.UpdateMany? || Deletes(q)) && !(model.tenantScoped && scope.NoScope?)
      modifies this`rows
      ensures Valid()
      ensures Effect(model, scope, user, q, now, old(rows), rows, next, r)
      ensures Answers(model, scope, inTransaction, q, down, old(rows), r)
    {
      match q
      case Update(key, data) =>
        r := Write(Some(key), scope, true, true, StampUpdate(data, scope, model, user), down);
      case UpdateMany(w, data) =>
        r := Write(w, scope, false, true, StampUpdate(data, scope, model, user), down);
      case Delete(key) =>
        r := Remove(Some(key), scope, user, inTransaction, true, now, down);
      case DeleteMany(w) =>
        r := Remove(w, scope, user, inTransaction, false, now, down);
    }

    /** Any other write of a model without tenants, as the caller wrote it. */
    method Unscoped(w: Option<Where>, data: Row, down: bool) returns (r: Result)
      requires Valid()
      modifies this`rows
      ensures Valid()
      ensures r == if down then Fail(Database) else Done(set id | id in old(rows) && MatchesOptional(w, old(rows)[id]))
      ensures rows == if down then old(rows) else ChangeAll(old(rows), r.ids, data)
    {
      if down {
        return Fail(Database);
      }
      var ids := set id | id in rows && MatchesOptional(w, rows[id]);
      rows := ChangeAll(rows, ids, data);
      r := Done(ids);
    }

    /** The rows a rewritten filter matches. */
    method Reach(w: Option<Where>, scope: Scope, unique: bool, excludeDeleted: bool, down: bool) returns (r: Result)
      ensures r == if FilterForbidden(w, scope, model) then Fail(CrossTenantAccess)
                   else if down then Fail(Database)
                   else Done(Select(rows, w, scope, model, excludeDeleted))
    {
      var where := ScopeWhere(w, scope, model, unique, excludeDeleted);
      if where.Refused? {
        return Fail(where.error);
      }
      MatchingIsSelect(rows, w, scope, model, unique, excludeDeleted);
      r := if down then Fail(Database) else Done(Matching(rows, where.value));
    }

    /** SELECT of all rows reached, or of any one. */
    method Read(w: Option<Where>, scope: Scope, unique: bool, many: bool, down: bool) returns (r: Result)
      ensures var reached := Select(rows, w, scope, model, true);
              if FilterForbidden(w, scope, model) then r == Fail(CrossTenantAccess)
              else if down then r == Fail(Database)
              else r.Done? && if many || reached == {} then r.ids == reached else Single(r, reached)
    {
      r := Reach(w, scope, unique, true, down);
      if r.Done? && !many && r.ids != {} {
        var id :| id in r.ids;
        r := Done({id});
      }
    }

    /** INSERT of the stamped rows, unless stamping refused them. */
    method Add(stamped: Rewrite<seq<Row>>, down: bool) returns (r: Result)
      requires Valid()
      modifies this`rows, this`next
      ensures Valid()
      ensures r.Fail? <==> stamped.Refused? || down
      ensures r.Fail? ==> rows == old(rows) && r.error == if stamped.Refused? then stamped.error else Database
      ensures r.Done? ==> rows == InsertAll(old(rows), old(next), stamped.value) && r.ids == rows.Keys - old(rows.Keys)
    {
      if stamped.Refused? || down {
        return Fail(if stamped.Refused? then stamped.error else Database);
      }
      var ids := Insert(stamped.value);
      r := Done(ids);
    }

    method Insert(items: seq<Row>) returns (ids: set<nat>)
      requires Valid()
      modifies this`rows, this`next
      ensures Valid()
      ensures rows == InsertAll(old(rows), old(next), items) && next == old(next) + |items|
      ensures ids == rows.Keys - old(rows.Keys)
    {
      InsertedKeys(rows, next, items);
      ids := InsertAll(rows, next, items).Keys - rows.Keys;
      rows := InsertAll(rows, next, items);
      next := next + |items|;
    }

    /** UPDATE of one row or of all rows the filter matches. */
    method Write(w: Option<Where>, scope: Scope, single: bool, excludeDeleted: bool, change: Rewrite<Row>, down: bool)
      returns (r: Result)
      requires Valid()
      modifies this`rows
      ensures Valid()
      ensures r.Fail? ==> rows == old(rows)
      ensures var reached := Select(old(rows), w, scope, model, excludeDeleted);
              if FilterForbidden(w, scope, model) then r == Fail(CrossTenantAccess)
              else if change.Refused? then r == Fail(change.error)
              else if down then r == Fail(Database)
              else if single && reached == {} then r == Fail(NotFound)
              else r.Done? && if single then Single(r, reached) else r.ids == reached
      ensures r.Done? ==> rows == ChangeAll(old(rows), r.ids, change.value)
    {
      r := Reach(w, scope, single, excludeDeleted, down);
      if change.Refused? && r != Fail(CrossTenantAccess) {
        return Fail(change.error);
      }
      if r.Fail? {
        return;
      }
      if single {
        if r.ids == {} {
          return Fail(NotFound);
        }
        var id :| id in r.ids;
        r := Done({id});
      }
      rows := ChangeAll(rows, r.ids, change.value);
    }

    /** An upsert: looks for the key among deleted rows too. */
    method CreateOrUpdate(key: Where, create: Row, data: Row, scope: Scope, user: Option<string>, down: bool)
      returns (r: Result)
      requires Valid()
      modifies this`rows, this`next
      ensures Valid()
      ensures Effect(model, scope, user, Upsert(key, create, data), 0, old(rows), rows, old(next), r)
      ensures var refused := model.tenantScoped && scope.Tenant? && NamesAnother(Upsert(key, create, data), scope.id);
              && (r.Fail? <==> refused || down)
              && (r.Fail? ==> r.error == if refused then CrossTenantAccess else Database)
    {
      var toCreate := StampCreate(create, scope, model, user);
      var toUpdate := StampUpdate(data, scope, model, user);
      r := Reach(Some(key), scope, true, false, down);
      if toCreate.Refused? || toUpdate.Refused? {
        return Fail(CrossTenantAccess);
      }
      if r.Fail? {
        return;
      }
      if r.ids == {} {
        var ids := Insert([toCreate.value]);
        r := Done(ids);
      } else {
        r := Write(Some(key), scope, true, false, toUpdate, down);
      }
    }

    /** DELETE; the rows of a soft-delete model are only marked. */
    method Remove(w: Option<Where>, scope: Scope, user: Option<string>, inTransaction: bool, single: bool, now: int,
        down: bool)
      returns (r: Result)
      requires Valid()
      modifies this`rows
      ensures Valid()
      ensures r.Fail? ==> rows == old(rows)
      ensures var reached := Select(old(rows), w, scope, model, model.softDelete);
              if FilterForbidden(w, scope, model) then r == Fail(CrossTenantAccess)
              else if model.softDelete && inTransaction then r == Fail(SoftDeleteInTransaction)
              else if down then r == Fail(Database)
              else if single && reached == {} then r == Fail(NotFound)
              else r.Done? && if single then Single(r, reached) else r.ids == reached
      ensures r.Done? ==>
                rows == if model.softDelete then ChangeAll(old(rows), r.ids, Deletion(model, user, now))
                        else old(rows) - r.ids
    {
      if model.softDelete {
        var change := if inTransaction then Refused(SoftDeleteInTransaction) else Ok(Deletion(model, user, now));
        r := Write(w, scope, single, true, change, down);
        return;
      }
      r := Reach(w, scope, single, false, down);
      if r.Fail? {
        return;
      }
      if single {
        if r.ids == {} {
          return Fail(NotFound);
        }
        var id :| id in r.ids;
        r := Done({id});
      }
      rows := rows - r.ids;
    }
  }

  lemma {:induction false} InsertedKeys(rows: Rows, next: nat, items: seq<Row>)
    requires forall id :: id in rows ==> id < next
    ensures forall id :: id in InsertAll(rows, next, items) <==> id in rows || next <= id < next + |items|
    ensures forall id :: id in rows ==> InsertAll(rows, next, items)[id] == rows[id]
    decreases |items|
  {
    if items != [] {
      InsertedKeys(rows[next := Stored(items[0])], next + 1, items[1..]);
    }
  }

  // ---------- Isolation of one operation ----------

  ghost predicate Numbered(rows: Rows, next: nat) {
    forall id :: id in rows ==> id < next
  }

  /** The rows of one tenant, whole. */
  function TenantRows(rows: Rows, t: string): Rows {
    map id | id in rows && Owned(rows[id], t) :: rows[id]
  }

  /** Data that does not use the coaching relation, or connects it to this coaching. */
  predicate Homely(data: Row, t: string) {
    COACHING !in data || data[COACHING] == Text(t)
  }

  predicate HomelyQuery(q: Query, t: string) {
    match q
    case Create(data) => Homely(data, t)
    case CreateMany(items) => forall i :: 0 <= i < |items| ==> Homely(items[i], t)
    case Update(_, data) => Homely(data, t)
    case UpdateMany(_, data) => Homely(data, t)
    case Upsert(_, create, data) => Homely(create, t) && Homely(data, t)
    case _ => true
  }

  /** An operation of tenant t neither changes, removes nor returns a row of anyone else. */
  lemma OthersRowsUntouched(model: Model, t: string, user: Option<string>, q: Query, now: int,
                            before: Rows, after: Rows, next: nat, r: Result)
    requires model.tenantScoped && Numbered(before, next)
    requires Effect(model, Tenant(t), user, q, now, before, after, next, r)
    ensures forall id :: id in before && !Owned(before[id], t) ==> id in after && after[id] == before[id]
    ensures r.Done? ==> forall id :: id in r.ids && id in before ==> Owned(before[id], t)
  {
    if r.Done? && q.CreateMany? {
      InsertedKeys(before, next, StampAll(q.items, Tenant(t), model, user).value);
    }
  }

  /** A stamped new row belongs to the tenant exactly when its data names no other coaching by relation. */
  lemma StampedRowOwner(model: Model, t: string, user: Option<string>, data: Row)
    requires model.tenantScoped && StampCreate(data, Tenant(t), model, user).Ok?
    ensures Owned(Stored(StampCreate(data, Tenant(t), model, user).value), t) <==> Homely(data, t)
  {
    assert "createdBy" != COACHING_ID && "createdBy" != COACHING && COACHING_ID != COACHING;
  }

  /**
   * The filters alone do not confine data: from any table, a create connected to another coaching
   * succeeds and belongs to it.
   */
  lemma RelationEscapes(model: Model, t: string, other: string, before: Rows, next: nat)
    returns (q: Query, after: Rows)
    requires model.tenantScoped && t != other && Numbered(before, next)
    ensures Effect(model, Tenant(t), None, q, 0, before, after, next, Done({next}))
    ensures q.Create? && next in after && Owned(after[next], other)
  {
    var data: Row := map[COACHING := Text(other)];
    assert COACHING_ID != COACHING;
    assert StampCreate(data, Tenant(t), model, None) == Ok(data);
    q, after := Create(data), before[next := Stored(data)];
    assert after.Keys - before.Keys == {next};
  }

  /** So does an update, by any key: it moves a live row of the tenant to the other coaching. */
  lemma UpdateEscapes(model: Model, t: string, other: string, before: Rows, next: nat, id: nat, key: Where)
    returns (q: Query, after: Rows)
    requires model.tenantScoped && t != other
    requires id in before && Owned(before[id], t) && Live(before[id])
    requires Matches(key, before[id]) && COACHING_ID !in key.fields
    ensures Effect(model, Tenant(t), None, q, 0, before, after, next, Done({id}))
    ensures q.Update? && q.key == key && id in after && Owned(after[id], other)
  {
    var data: Row := map[COACHING := Text(other)];
    assert COACHING_ID != COACHING;
    assert StampUpdate(data, Tenant(t), model, None) == Ok(data);
    q, after := Update(key, data), ChangeAll(before, {id}, data);
    assert id in Select(before, Some(key), Tenant(t), model, true);
  }

  /** A changed row stays with its tenant exactly when the data names no other coaching by relation. */
  lemma ChangedRowOwner(model: Model, t: string, user: Option<string>, row: Row, data: Row)
    requires model.tenantScoped && StampUpdate(data, Tenant(t), model, user).Ok?
    requires Owned(row, t) && COACHING !in row
    ensures Owned(Changed(row, StampUpdate(data, Tenant(t), model, user).value), t) <==> Homely(data, t)
  {
    assert "updatedBy" != COACHING_ID && "updatedBy" != COACHING && COACHING_ID != COACHING;
  }

  /** Rows as stored have no relation field. */
  ghost predicate Flat(rows: Rows) {
    forall id :: id in rows ==> COACHING !in rows[id]
  }

  lemma DeletedRowOwner(model: Model, t: string, user: Option<string>, now: int, row: Row)
    requires Owned(row, t) && COACHING !in row
    ensures Owned(Changed(row, Deletion(model, user, now)), t)
  {
    assert COACHING_ID != DELETED_AT && COACHING != DELETED_AT;
    assert "updatedBy" != COACHING_ID && "updatedBy" != COACHING;
  }

  /** With data that stays home, every row an operation creates or changes belongs to its tenant. */
  lemma WritesStayHome(model: Model, t: string, user: Option<string>, q: Query, now: int,
                       before: Rows, after: Rows, next: nat, r: Result, id: nat)
    requires model.tenantScoped && Numbered(before, next) && Flat(before) && HomelyQuery(q, t)
    requires Effect(model, Tenant(t), user, q, now, before, after, next, r)
    requires id in after && (id !in before || after[id] != before[id])
    ensures Owned(after[id], t)
  {
    OthersRowsUntouched(model, t, user, q, now, before, after, next, r);
    match q
    case Create(data) => StampedRowOwner(model, t, user, data);
    case CreateMany(items) => InsertedOwners(before, next, items, model, t, user, id);
    case Update(_, data) => ChangedRowOwner(model, t, user, before[id], data);
    case UpdateMany(_, data) => ChangedRowOwner(model, t, user, before[id], data);
    case Upsert(_, create, data) =>
      if id in before {
        ChangedRowOwner(model, t, user, before[id], data);
      } else {
        StampedRowOwner(model, t, user, create);
      }
    case Delete(_) => DeletedRowOwner(model, t, user, now, before[id]);
    case DeleteMany(_) => DeletedRowOwner(model, t, user, now, before[id]);
    case _ =>
  }

  lemma {:induction false} InsertedOwners(rows: Rows, next: nat, items: seq<Row>, model: Model, t: string,
                                          user: Option<string>, id: nat)
    requires model.tenantScoped && Numbered(rows, next)
    requires forall i :: 0 <= i < |items| ==> Homely(items[i], t)
    requires StampAll(items, Tenant(t), model, user).Ok?
    requires var after := InsertAll(rows, next, StampAll(items, Tenant(t), model, user).value);
             id in after && (id !in rows || after[id] != rows[id])
    ensures Owned(InsertAll(rows, next, StampAll(items, Tenant(t), model, user).value)[id], t)
    decreases |items|
  {
    var stamped := StampAll(items, Tenant(t), model, user).value;
    if items != [] {
      var first := Stored(stamped[0]);
      StampedRowOwner(model, t, user, items[0]);
      assert stamped[1..] == StampAll(items[1..], Tenant(t), model, user).value;
      InsertedKeys(rows, next, stamped);
      InsertedKeys(rows[next := first], next + 1, stamped[1..]);
      if id != next {
        InsertedOwners(rows[next := first], next + 1, items[1..], model, t, user, id);
      }
    }
  }

  // ---------- Isolation over whole runs ----------

  datatype Step = Step(scope: Scope, user: Option<string>, q: Query, now: int, result: Result)

  /** A run of operations on one table, as the client performs them; `nexts` numbers the new rows. */
  ghost predicate IsRun(model: Model, tables: seq<Rows>, nexts: seq<nat>, steps: seq<Step>) {
    && |tables| == |nexts| == |steps| + 1
    && Flat(tables[0])
    && (forall i :: 0 <= i < |tables| ==> Numbered(tables[i], nexts[i]))
    && (forall i :: 0 <= i < |steps| ==>
          Effect(model, steps[i].scope, steps[i].user, steps[i].q, steps[i].now,
                 tables[i], tables[i + 1], nexts[i], steps[i].result))
  }

  lemma FlatKept(model: Model, scope: Scope, user: Option<string>, q: Query, now: int,
                 before: Rows, after: Rows, next: nat, r: Result)
    requires Flat(before) && Numbered(before, next)
    requires Effect(model, scope, user, q, now, before, after, next, r)
    ensures Flat(after)
  {
    if r.Done? && q.CreateMany? {
      FlatInserted(before, next, StampAll(q.items, scope, model, user).value);
    }
  }

  lemma {:induction false} FlatInserted(rows: Rows, next: nat, items: seq<Row>)
    requires Flat(rows)
    ensures Flat(InsertAll(rows, next, items))
    decreases |items|
  {
    if items != [] {
      FlatInserted(rows[next := Stored(items[0])], next + 1, items[1..]);
    }
  }

  lemma {:induction false} RunIsFlat(model: Model, tables: seq<Rows>, nexts: seq<nat>, steps: seq<Step>, i: nat)
    requires IsRun(model, tables, nexts, steps) && i < |tables|
    ensures Flat(tables[i])
  {
    if i > 0 {
      RunIsFlat(model, tables, nexts, steps, i - 1);
      var x := steps[i - 1];
      FlatKept(model, x.scope, x.user, x.q, x.now, tables[i - 1], tables[i], nexts[i - 1], x.result);
    }
  }

  /** One operation of another tenant leaves the rows of tenant t exactly as they were. */
  lemma TenantRowsKept(model: Model, t: string, u: string, user: Option<string>, q: Query, now: int,
                       before: Rows, after: Rows, next: nat, r: Result)
    requires model.tenantScoped && t != u && Numbered(before, next) && Flat(before) && HomelyQuery(q, u)
    requires Effect(model, Tenant(u), user, q, now, before, after, next, r)
    ensures TenantRows(after, t) == TenantRows(before, t)
  {
    OthersRowsUntouched(model, u, user, q, now, before, after, next, r);
    forall id | id in after && Owned(after[id], t)
      ensures id in before && after[id] == before[id]
    {
      if id !in before || after[id] != before[id] {
        WritesStayHome(model, u, user, q, now, before, after, next, r, id);
      }
    }
    SameTenantRows(before, after, t);
  }

  lemma SameTenantRows(before: Rows, after: Rows, t: string)
    requires forall id :: id in before && Owned(before[id], t) ==> id in after && after[id] == before[id]
    requires forall id :: id in after && Owned(after[id], t) ==> id in before && after[id] == before[id]
    ensures TenantRows(after, t) == TenantRows(before, t)
  {
  }

  /**
   * In any run, whoever else takes part in it: a step of another tenant leaves the rows of tenant t
   * as they are just then, and returns none of them.
   */
  lemma TenantIsIsolated(model: Model, t: string, tables: seq<Rows>, nexts: seq<nat>, steps: seq<Step>, k: nat)
    requires model.tenantScoped && IsRun(model, tables, nexts, steps) && k < |steps|
    requires steps[k].scope.Tenant? && steps[k].scope.id != t && HomelyQuery(steps[k].q, steps[k].scope.id)
    ensures TenantRows(tables[k + 1], t) == TenantRows(tables[k], t)
    ensures steps[k].result.Done? ==> steps[k].result.ids !! TenantRows(tables[k], t).Keys
  {
    var x := steps[k];
    RunIsFlat(model, tables, nexts, steps, k);
    TenantRowsKept(model, t, x.scope.id, x.user, x.q, x.now, tables[k], tables[k + 1], nexts[k], x.result);
    OthersRowsUntouched(model, x.scope.id, x.user, x.q, x.now, tables[k], tables[k + 1], nexts[k], x.result);
  }

  /** So over any stretch of a run in which only other tenants act, the rows of tenant t do not change. */
  lemma {:induction false} IsolatedStretch(model: Model, t: string, tables: seq<Rows>, nexts: seq<nat>,
                                           steps: seq<Step>, i: nat, j: nat)
    requires model.tenantScoped && IsRun(model, tables, nexts, steps) && i <= j < |tables|
    requires forall k :: i <= k < j ==>
               steps[k].scope.Tenant? && steps[k].scope.id != t && HomelyQuery(steps[k].q, steps[k].scope.id)
    ensures TenantRows(tables[j], t) == TenantRows(tables[i], t)
  {
    if i < j {
      IsolatedStretch(model, t, tables, nexts, steps, i, j - 1);
      TenantIsIsolated(model, t, tables, nexts, steps, j - 1);
    }
  }

  lemma NothingIsRemovedByOne(model: Model, scope: Scope, user: Option<string>, q: Query, now: int,
                              before: Rows, after: Rows, next: nat, r: Result)
    requires model.softDelete && Numbered(before, next)
    requires Effect(model, scope, user, q, now, before, after, next, r)
    ensures before.Keys <= after.Keys
  {
    if r.Done? && q.CreateMany? {
      InsertedKeys(before, next, StampAll(q.items, scope, model, user).value);
    }
  }

  /** On a soft-delete model no run of operations, of any tenant or of the system, removes a row. */
  lemma {:induction false} NothingIsRemoved(model: Model, tables: seq<Rows>, nexts: seq<nat>, steps: seq<Step>,
                                            i: nat, j: nat)
    requires model.softDelete && IsRun(model, tables, nexts, steps) && i <= j < |tables|
    ensures tables[i].Keys <= tables[j].Keys
  {
    if i < j {
      NothingIsRemoved(model, tables, nexts, steps, i, j - 1);
      var x := steps[j - 1];
      NothingIsRemovedByOne(model, x.scope, x.user, x.q, x.now, tables[j - 1], tables[j], nexts[j - 1], x.result);
    }
  }

  // ---------- What is written ----------

  /** A stamped new row has the columns its data gives, and its creator where audited; the rest is as it was asked. */
  lemma CreatedColumns(model: Model, scope: Scope, user: Option<string>, data: Row, k: string)
    requires StampCreate(data, scope, model, user).Ok? && k != COACHING && k != COACHING_ID
    ensures Column(Stored(StampCreate(data, scope, model, user).value), k) ==
            if k in data then data[k]
            else if k == "createdBy" && model.auditedCreate && user.Some? then Text(user.value) else Null
  {
  }

  /** A changed row takes the columns its data gives, and its editor where audited; the others stay. */
  lemma ChangedColumns(model: Model, scope: Scope, user: Option<string>, row: Row, data: Row, k: string)
    requires StampUpdate(data, scope, model, user).Ok? && k != COACHING && k != COACHING_ID
    ensures Column(Changed(row, StampUpdate(data, scope, model, user).value), k) ==
            if k in data then data[k]
            else if k == "updatedBy" && model.auditedUpdate && user.Some? then Text(user.value) else Column(row, k)
  {
  }

  /** New rows get new numbers, one for each item, and no row that was there changes. */
  lemma CreatedRows(model: Model, scope: Scope, user: Option<string>, items: seq<Row>, now: int,
                    before: Rows, after: Rows, next: nat, r: Result)
    requires Numbered(before, next) && r.Done?
    requires Effect(model, scope, user, CreateMany(items), now, before, after, next, r)
    ensures forall id :: id in r.ids <==> next <= id < next + |items|
    ensures forall id :: id in before ==> id in after && after[id] == before[id]
    ensures forall i :: 0 <= i < |items| ==>
              && StampCreate(items[i], scope, model, user).Ok?
              && next + i in after && after[next + i] == Stored(StampCreate(items[i], scope, model, user).value)
  {
    var stamped := StampAll(items, scope, model, user).value;
    InsertedKeys(before, next, stamped);
    StampedEach(items, scope, model, user);
    InsertedRows(before, next, stamped);
  }

  lemma {:induction false} StampedEach(items: seq<Row>, scope: Scope, model: Model, user: Option<string>)
    requires StampAll(items, scope, model, user).Ok?
    ensures forall i :: 0 <= i < |items| ==>
              StampCreate(items[i], scope, model, user) == Ok(StampAll(items, scope, model, user).value[i])
  {
    if items != [] {
      StampedEach(items[1..], scope, model, user);
    }
  }

  lemma {:induction false} InsertedRows(rows: Rows, next: nat, items: seq<Row>)
    requires Numbered(rows, next)
    ensures forall i :: 0 <= i < |items| ==>
              next + i in InsertAll(rows, next, items) && InsertAll(rows, next, items)[next + i] == Stored(items[i])
    decreases |items|
  {
    if items != [] {
      InsertedKeys(rows[next := Stored(items[0])], next + 1, items[1..]);
      InsertedRows(rows[next := Stored(items[0])], next + 1, items[1..]);
      forall i | 0 < i < |items|
        ensures next + i in InsertAll(rows, next, items)
        ensures InsertAll(rows, next, items)[next + i] == Stored(items[i])
      {
        assert next + 1 + (i - 1) == next + i;
      }
    }
  }

  // ---------- Deleted rows ----------

  /**
   * A delete on a soft-delete model marks the rows it reports as deleted at that instant; of their
   * other columns only the audited editor changes, and no other row does.
   */
  lemma DeletedRows(model: Model, scope: Scope, user: Option<string>, q: Query, now: int,
                    before: Rows, after: Rows, next: nat, r: Result, id: nat)
    requires model.softDelete && Deletes(q) && r.Done? && Flat(before)
    requires Effect(model, scope, user, q, now, before, after, next, r)
    ensures after.Keys == before.Keys && r.ids <= before.Keys
    ensures id in before && id !in r.ids ==> after[id] == before[id]
    ensures id in r.ids ==>
              && Column(after[id], DELETED_AT) == Moment(now) && !Live(after[id])
              && forall k :: k != DELETED_AT ==>
                   Column(after[id], k) == if k == "updatedBy" && model.auditedUpdate && user.Some?
                                           then Text(user.value) else Column(before[id], k)
  {
    if id in r.ids {
      MarkedDeleted(model, user, now, before[id]);
    }
  }

  lemma MarkedDeleted(model: Model, user: Option<string>, now: int, row: Row)
    requires COACHING !in row
    ensures var after := Changed(row, Deletion(model, user, now));
            && Column(after, DELETED_AT) == Moment(now)
            && forall k :: k != DELETED_AT ==>
                 Column(after, k) == if k == "updatedBy" && model.auditedUpdate && user.Some?
                                     then Text(user.value) else Column(row, k)
  {
    var change := Deletion(model, user, now);
    assert COACHING != DELETED_AT && COACHING != "updatedBy";
    assert Changed(row, change) == row + change;
  }

  /** The filter of a find, an update or a delete. */
  function FilterOf(q: Query): Option<Where> {
    match q
    case Find(w, _, _) => w
    case Update(key, _) => Some(key)
    case UpdateMany(w, _) => w
    case Delete(key) => Some(key)
    case DeleteMany(w) => w
    case _ => None
  }

  /** A find, an update or a delete whose filter says nothing about `deletedAt`. */
  predicate LeavesDeletionOpen(q: Query) {
    && (q.Find? || q.Update? || q.UpdateMany? || q.Delete? || q.DeleteMany?)
    && (FilterOf(q).Some? ==> DELETED_AT !in FilterOf(q).value.fields)
  }

  /** Such an operation neither returns nor changes a deleted row, whoever performs it. */
  lemma DeletedIsOutOfReach(model: Model, scope: Scope, user: Option<string>, q: Query, now: int,
                            before: Rows, after: Rows, next: nat, r: Result, id: nat)
    requires model.softDelete && LeavesDeletionOpen(q) && id in before && !Live(before[id])
    requires Effect(model, scope, user, q, now, before, after, next, r)
    ensures id in after && after[id] == before[id]
    ensures r.Done? ==> id !in r.ids
  {
  }

  /** A filter with a condition on `deletedAt` finds deleted rows too: every row of the tenant that it matches. */
  lemma DeletedCanBeSought(model: Model, scope: Scope, user: Option<string>, w: Where, unique: bool, now: int,
                           before: Rows, after: Rows, next: nat, r: Result, id: nat)
    requires DELETED_AT in w.fields && r.Done?
    requires Effect(model, scope, user, Find(Some(w), unique, true), now, before, after, next, r)
    ensures id in r.ids <==>
            && id in before && Matches(w, before[id])
            && (model.tenantScoped && scope.Tenant? ==> Column(before[id], COACHING_ID) == Text(scope.id))
  {
  }

  /** A step from `before` to `after` writes the `deletedAt` of this row. */
  predicate WritesDeletedAt(before: Rows, after: Rows, id: nat) {
    id in before && id in after && Column(after[id], DELETED_AT) != Column(before[id], DELETED_AT)
  }

  lemma {:induction false} StaysDeleted(model: Model, tables: seq<Rows>, nexts: seq<nat>, steps: seq<Step>,
                                        i: nat, j: nat, id: nat)
    requires model.softDelete && IsRun(model, tables, nexts, steps) && i <= j < |tables|
    requires id in tables[i] && !Live(tables[i][id])
    requires forall k :: i <= k < j ==> !WritesDeletedAt(tables[k], tables[k + 1], id)
    ensures id in tables[j] && !Live(tables[j][id])
  {
    if i < j {
      StaysDeleted(model, tables, nexts, steps, i, j - 1, id);
      NothingIsRemoved(model, tables, nexts, steps, j - 1, j);
      assert !WritesDeletedAt(tables[j - 1], tables[j], id);
    }
  }

  /**
   * In any run on a soft-delete model: once a delete has reported a row, and as long as nobody
   * writes its `deletedAt`, no find, update or delete that leaves `deletedAt` open returns or
   * changes it.
   */
  lemma DeletedStaysOut(model: Model, tables: seq<Rows>, nexts: seq<nat>, steps: seq<Step>, i: nat, j: nat, id: nat)
    requires model.softDelete && IsRun(model, tables, nexts, steps) && i < j < |steps|
    requires Deletes(steps[i].q) && steps[i].result.Done? && id in steps[i].result.ids
    requires forall k :: i < k < j ==> !WritesDeletedAt(tables[k], tables[k + 1], id)
    requires LeavesDeletionOpen(steps[j].q)
    ensures id in tables[j] && id in tables[j + 1] && tables[j + 1][id] == tables[j][id]
    ensures steps[j].result.Done? ==> id !in steps[j].result.ids
  {
    var x, y := steps[i], steps[j];
    RunIsFlat(model, tables, nexts, steps, i);
    DeletedRows(model, x.scope, x.user, x.q, x.now, tables[i], tables[i + 1], nexts[i], x.result, id);
    StaysDeleted(model, tables, nexts, steps, i + 1, j, id);
    DeletedIsOutOfReach(model, y.scope, y.user, y.q, y.now, tables[j], tables[j + 1], nexts[j], y.result, id);
  }
}
