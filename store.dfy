/**
 * The part of the database the role/permission seeder works on: the
 * `permissions` and `roles` tables, keyed by their `slug` column, and the
 * `role_permission` pivot, read as a map from a role id to the set of
 * permission ids attached to it.
 *
 * Two Eloquent operations are modelled: `updateOrCreate` keyed by slug
 * (`Upsert`), and `sync` on a role's permission relation (`Sync`).
 */
module Store {
  import opened Wrappers

  /** One row: its auto-increment id, its slug and the other columns the seeder fills. */
  datatype Row<A> = Row(id: nat, slug: string, attrs: A)

  /** A table: its rows in insertion order and the id the next inserted row receives. */
  datatype Table<A> = Table(rows: seq<Row<A>>, nextId: nat)

  /** The columns of a `permissions` row besides id and slug (`moduleName` is the `module` column). */
  datatype PermissionFields = PermissionFields(name: string, moduleName: string)

  /** The columns of a `roles` row besides id and slug. */
  datatype RoleFields = RoleFields(name: string, description: string)

  /** Role id to the ids of the permissions its pivot rows point to. */
  type Pivot = map<nat, set<nat>>

  /** The whole state the seeder reads and writes. */
  datatype Snapshot = Snapshot(
    permissions: Table<PermissionFields>,
    roles: Table<RoleFields>,
    rolePermission: Pivot)

  predicate SlugsUnique<A>(t: Table<A>)
  {
    forall i, j | 0 <= i < j < |t.rows| :: t.rows[i].slug != t.rows[j].slug
  }

  predicate IdsUnique<A>(t: Table<A>)
  {
    forall i, j | 0 <= i < j < |t.rows| :: t.rows[i].id != t.rows[j].id
  }

  predicate IdsBelowNext<A>(t: Table<A>)
  {
    forall i | 0 <= i < |t.rows| :: t.rows[i].id < t.nextId
  }

  /** Unique slugs, unique ids, and every id below the auto-increment counter. */
  predicate WellFormed<A>(t: Table<A>)
  {
    SlugsUnique(t) && IdsUnique(t) && IdsBelowNext(t)
  }

  /** `where('slug', slug)->first()`: the index of the first row with that slug. */
  function FindSlug<A>(rows: seq<Row<A>>, slug: string): (r: Option<nat>)
    ensures r.Some? ==> r.value < |rows| && rows[r.value].slug == slug
    ensures r.Some? ==> forall j | 0 <= j < r.value :: rows[j].slug != slug
    ensures r.None? <==> forall j | 0 <= j < |rows| :: rows[j].slug != slug
  {
    if rows == [] then None
    else if rows[0].slug == slug then Some(0)
    else match FindSlug(rows[1..], slug)
      case None => None
      case Some(k) => Some(k + 1)
  }

  /** The row a slug-keyed query finds, if any. */
  function Lookup<A>(t: Table<A>, slug: string): Option<Row<A>>
  {
    match FindSlug(t.rows, slug)
    case None => None
    case Some(i) => Some(t.rows[i])
  }

  /** What `updateOrCreate` leaves behind: the new table and the id of the row it saved. */
  datatype Upserted<A> = Upserted(table: Table<A>, id: nat)

  /**
   * `updateOrCreate(['slug' => slug], attrs)`: the first row with that slug
   * takes the given column values and keeps its id; with no such row, a new
   * row is appended under the next auto-increment id.
   */
  function Upsert<A>(t: Table<A>, slug: string, attrs: A): Upserted<A>
  {
    match FindSlug(t.rows, slug)
    case Some(i) =>
      Upserted(Table(t.rows[i := Row(t.rows[i].id, slug, attrs)], t.nextId), t.rows[i].id)
    case None =>
      Upserted(Table(t.rows + [Row(t.nextId, slug, attrs)], t.nextId + 1), t.nextId)
  }

  /** `Permission::all()` as ids: the id of every row. */
  function AllIds<A>(t: Table<A>): set<nat>
  {
    set i | 0 <= i < |t.rows| :: t.rows[i].id
  }

  /** `whereIn('slug', slugs)->get()` as ids: the ids of the rows whose slug is listed. */
  function IdsWithSlugIn<A>(t: Table<A>, slugs: seq<string>): set<nat>
  {
    set i | 0 <= i < |t.rows| && t.rows[i].slug in slugs :: t.rows[i].id
  }

  /** The slugs of the rows whose id is in `ids`. */
  function SlugsOf<A>(t: Table<A>, ids: set<nat>): set<string>
  {
    set i | 0 <= i < |t.rows| && t.rows[i].id in ids :: t.rows[i].slug
  }

  /** `$role->permissions()->sync(ids)`: the role's pivot rows become exactly `ids`. */
  function Sync(pv: Pivot, roleId: nat, ids: set<nat>): (r: Pivot)
    ensures roleId in r && r[roleId] == ids
    ensures forall q | q != roleId :: (q in r <==> q in pv) && (q in pv ==> r[q] == pv[q])
  {
    pv[roleId := ids]
  }

  /** The table holds exactly one row with slug `slug`, and that row has `attrs`. */
  predicate HeldOnce<A(==)>(t: Table<A>, slug: string, attrs: A)
  {
    exists i | 0 <= i < |t.rows| ::
      t.rows[i].slug == slug && t.rows[i].attrs == attrs
      && forall j | 0 <= j < |t.rows| && t.rows[j].slug == slug :: j == i
  }

  // ---------------------------------------------------------------------
  // updateOrCreate
  // ---------------------------------------------------------------------

  /** After an upsert, the slug finds a row holding the given values under the returned id. */
  lemma UpsertStores<A>(t: Table<A>, slug: string, attrs: A)
    ensures Lookup(Upsert(t, slug, attrs).table, slug) == Some(Row(Upsert(t, slug, attrs).id, slug, attrs))
    ensures Lookup(t, slug).Some? ==> Upsert(t, slug, attrs).id == Lookup(t, slug).value.id
    ensures Lookup(t, slug).None? ==> Upsert(t, slug, attrs).id == t.nextId
  {
    var u := Upsert(t, slug, attrs).table;
    match FindSlug(t.rows, slug)
    case Some(i) =>
      assert FindSlug(u.rows, slug) == Some(i) by {
        FindSlugUnmoved(t.rows, u.rows, slug);
      }
    case None =>
      var k := FindSlug(u.rows, slug);
      assert u.rows[|t.rows|].slug == slug;
      assert k == Some(|t.rows|);
  }

  /**
   * Two row lists whose slugs agree up to some position, and which differ
   * only past it, give `FindSlug` the same answer when the slug first
   * appears there.
   */
  lemma FindSlugUnmoved<A>(rows: seq<Row<A>>, rows': seq<Row<A>>, slug: string)
    requires FindSlug(rows, slug).Some?
    requires |rows'| == |rows|
    requires forall j | 0 <= j < |rows| :: rows'[j].slug == rows[j].slug
    ensures FindSlug(rows', slug) == FindSlug(rows, slug)
  {
    var i := FindSlug(rows, slug).value;
    var k := FindSlug(rows', slug);
    assert rows'[i].slug == slug;
    if k.Some? {
      assert k.value == i;
    }
  }

  /** An upsert leaves every other slug's row as it was. */
  lemma UpsertKeepsOthers<A>(t: Table<A>, slug: string, attrs: A, other: string)
    requires other != slug
    ensures Lookup(Upsert(t, slug, attrs).table, other) == Lookup(t, other)
  {
    var u := Upsert(t, slug, attrs).table;
    var k := FindSlug(t.rows, other);
    if FindSlug(t.rows, slug).Some? {
      var i := FindSlug(t.rows, slug).value;
      FindSlugSameSlugs(t.rows, u.rows, other);
      if k.Some? {
        assert k.value != i;
      }
    } else {
      var k' := FindSlug(u.rows, other);
      if k.Some? {
        assert u.rows[k.value] == t.rows[k.value];
        assert k' == k;
      } else {
        assert k'.None?;
      }
    }
  }

  lemma FindSlugSameSlugs<A>(rows: seq<Row<A>>, rows': seq<Row<A>>, slug: string)
    requires |rows'| == |rows|
    requires forall j | 0 <= j < |rows| :: rows'[j].slug == rows[j].slug
    ensures FindSlug(rows', slug) == FindSlug(rows, slug)
  {
    if FindSlug(rows, slug).Some? {
      FindSlugUnmoved(rows, rows', slug);
    } else {
      assert FindSlug(rows', slug).None?;
    }
  }

  /** An upsert keeps slugs unique, ids unique and the counter ahead of every id. */
  lemma UpsertWellFormed<A>(t: Table<A>, slug: string, attrs: A)
    requires WellFormed(t)
    ensures WellFormed(Upsert(t, slug, attrs).table)
    ensures AllIds(Upsert(t, slug, attrs).table) == AllIds(t) + {Upsert(t, slug, attrs).id}
  {
    if FindSlug(t.rows, slug).Some? {
      UpdateWellFormed(t, slug, attrs);
    } else {
      AppendWellFormed(t, slug, attrs);
    }
  }

  lemma UpdateWellFormed<A>(t: Table<A>, slug: string, attrs: A)
    requires WellFormed(t) && FindSlug(t.rows, slug).Some?
    ensures WellFormed(Upsert(t, slug, attrs).table)
    ensures AllIds(Upsert(t, slug, attrs).table) == AllIds(t) + {Upsert(t, slug, attrs).id}
  {
    var u := Upsert(t, slug, attrs).table;
    assert forall j | 0 <= j < |u.rows| :: u.rows[j].id == t.rows[j].id && u.rows[j].slug == t.rows[j].slug;
    assert AllIds(u) == AllIds(t);
  }

  lemma AppendWellFormed<A>(t: Table<A>, slug: string, attrs: A)
    requires WellFormed(t) && FindSlug(t.rows, slug).None?
    ensures WellFormed(Upsert(t, slug, attrs).table)
    ensures AllIds(Upsert(t, slug, attrs).table) == AllIds(t) + {Upsert(t, slug, attrs).id}
  {
    var u := Upsert(t, slug, attrs).table;
    assert u.rows == t.rows + [Row(t.nextId, slug, attrs)];
    forall x | x in AllIds(u) ensures x in AllIds(t) + {t.nextId} {
      var j :| 0 <= j < |u.rows| && u.rows[j].id == x;
      if j < |t.rows| { assert t.rows[j].id == x; }
    }
    forall x | x in AllIds(t) + {t.nextId} ensures x in AllIds(u) {
      if x == t.nextId {
        assert u.rows[|t.rows|].id == x;
      } else {
        var j :| 0 <= j < |t.rows| && t.rows[j].id == x;
        assert u.rows[j].id == x;
      }
    }
  }

  /**
   * An upsert keeps ids unique and the counter ahead of every id, whether or
   * not slugs are unique: it either keeps a row's id or takes the counter.
   */
  lemma UpsertKeepsIds<A>(t: Table<A>, slug: string, attrs: A)
    requires IdsUnique(t) && IdsBelowNext(t)
    ensures IdsUnique(Upsert(t, slug, attrs).table) && IdsBelowNext(Upsert(t, slug, attrs).table)
  {
    var u := Upsert(t, slug, attrs).table;
    if FindSlug(t.rows, slug).Some? {
      assert forall j | 0 <= j < |u.rows| :: u.rows[j].id == t.rows[j].id;
    } else {
      assert u.rows == t.rows + [Row(t.nextId, slug, attrs)];
    }
  }

  /** With unique ids, two different slugs that both find a row find rows with different ids. */
  lemma LookupIdsDiffer<A>(t: Table<A>, x: string, y: string)
    requires IdsUnique(t) && x != y
    requires Lookup(t, x).Some? && Lookup(t, y).Some?
    ensures Lookup(t, x).value.id != Lookup(t, y).value.id
  {
    var i, j := FindSlug(t.rows, x).value, FindSlug(t.rows, y).value;
    assert i != j;
  }

  /** Upserting values the slug's row already holds changes nothing and returns that row's id. */
  lemma UpsertSettled<A>(t: Table<A>, slug: string, attrs: A)
    requires Lookup(t, slug).Some? && Lookup(t, slug).value.attrs == attrs
    ensures Upsert(t, slug, attrs) == Upserted(t, Lookup(t, slug).value.id)
  {
    var i := FindSlug(t.rows, slug).value;
    assert t.rows[i := Row(t.rows[i].id, slug, attrs)] == t.rows;
  }

  /** With unique slugs, the row a slug finds is the only row with that slug. */
  lemma LookupHeldOnce<A>(t: Table<A>, slug: string, attrs: A)
    requires SlugsUnique(t)
    requires Lookup(t, slug).Some? && Lookup(t, slug).value.attrs == attrs
    ensures HeldOnce(t, slug, attrs)
  {
    var i := FindSlug(t.rows, slug).value;
    assert t.rows[i].slug == slug && t.rows[i].attrs == attrs;
  }

  /**
   * With unique ids, the rows a `whereIn` on slugs selects carry exactly the
   * listed slugs that the table holds; here every listed slug is held.
   */
  lemma SlugsOfSelected<A>(t: Table<A>, slugs: seq<string>)
    requires IdsUnique(t)
    requires forall x | x in slugs :: Lookup(t, x).Some?
    ensures SlugsOf(t, IdsWithSlugIn(t, slugs)) == set x | x in slugs
  {
    var ids := IdsWithSlugIn(t, slugs);
    forall y | y in SlugsOf(t, ids) ensures y in slugs {
      var i :| 0 <= i < |t.rows| && t.rows[i].id in ids && t.rows[i].slug == y;
      var j :| 0 <= j < |t.rows| && t.rows[j].slug in slugs && t.rows[j].id == t.rows[i].id;
      assert i == j;
    }
    forall x | x in slugs ensures x in SlugsOf(t, ids) {
      var i := FindSlug(t.rows, x).value;
      assert t.rows[i].id in ids;
    }
  }

  // ---------------------------------------------------------------------
  // sync
  // ---------------------------------------------------------------------

  /** Syncing the same ids again changes nothing. */
  lemma SyncIdempotent(pv: Pivot, roleId: nat, ids: set<nat>)
    ensures Sync(Sync(pv, roleId, ids), roleId, ids) == Sync(pv, roleId, ids)
  {
  }

  /** A sync forgets what the role held before: the prior pivot rows of that role play no part. */
  lemma SyncForgetsPrevious(pv: Pivot, pv': Pivot, roleId: nat, ids: set<nat>)
    requires forall q | q != roleId :: (q in pv <==> q in pv') && (q in pv ==> pv[q] == pv'[q])
    ensures Sync(pv, roleId, ids) == Sync(pv', roleId, ids)
  {
  }

  // ---------------------------------------------------------------------
  // The database object the seeder drives
  // ---------------------------------------------------------------------

  class Database {
    var permissions: Table<PermissionFields>
    var roles: Table<RoleFields>
    var rolePermission: Pivot

    function State(): Snapshot
      reads this
    {
      Snapshot(permissions, roles, rolePermission)
    }

    constructor (s: Snapshot)
      ensures State() == s
    {
      permissions := s.permissions;
      roles := s.roles;
      rolePermission := s.rolePermission;
    }

    /** `Permission::updateOrCreate(['slug' => slug], ...)`. */
    method UpdateOrCreatePermission(slug: string, fields: PermissionFields) returns (id: nat)
      modifies this
      ensures permissions == Upsert(old(permissions), slug, fields).table
      ensures id == Upsert(old(permissions), slug, fields).id
      ensures roles == old(roles) && rolePermission == old(rolePermission)
    {
      var u := Upsert(permissions, slug, fields);
      permissions := u.table;
      id := u.id;
    }

    /** `Role::updateOrCreate(['slug' => slug], ...)`. */
    method UpdateOrCreateRole(slug: string, fields: RoleFields) returns (id: nat)
      modifies this
      ensures roles == Upsert(old(roles), slug, fields).table
      ensures id == Upsert(old(roles), slug, fields).id
      ensures permissions == old(permissions) && rolePermission == old(rolePermission)
    {
      var u := Upsert(roles, slug, fields);
      roles := u.table;
      id := u.id;
    }

    /** `$role->permissions()->sync(ids)` for the role with id `roleId`. */
    method SyncPermissions(roleId: nat, ids: set<nat>)
      modifies this
      ensures rolePermission == Sync(old(rolePermission), roleId, ids)
      ensures permissions == old(permissions) && roles == old(roles)
    {
      rolePermission := Sync(rolePermission, roleId, ids);
    }
  }
}
