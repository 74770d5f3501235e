/**
 * The role/permission seeder (database/seeders/RolePermissionSeeder.php):
 * it upserts 23 permissions and the roles admin, coordinador and alumno,
 * each keyed by slug, then syncs each role's permissions: admin gets every
 * permission row, coordinador the academic ones, alumno three read-only ones.
 *
 * `Seeded` is the store the seeder leaves behind, as a function of the store
 * it starts from; `Run` is the seeder itself, proved to produce it.
 */
module RolePermissionSeeder {
  import opened Wrappers
  import opened Store

  /** One entry of the seeder's permission list. */
  datatype PermissionSeed = PermissionSeed(name: string, slug: string, moduleName: string)

  function Fields(e: PermissionSeed): PermissionFields
  {
    PermissionFields(e.name, e.moduleName)
  }

  const PermissionSeeds: seq<PermissionSeed> := [
    PermissionSeed("Ver usuarios", "users.view", "usuarios"),
    PermissionSeed("Crear usuarios", "users.create", "usuarios"),
    PermissionSeed("Editar usuarios", "users.edit", "usuarios"),
    PermissionSeed("Eliminar usuarios", "users.delete", "usuarios"),
    PermissionSeed("Ver carreras", "careers.view", "carreras"),
    PermissionSeed("Crear carreras", "careers.create", "carreras"),
    PermissionSeed("Editar carreras", "careers.edit", "carreras"),
    PermissionSeed("Eliminar carreras", "careers.delete", "carreras"),
    PermissionSeed("Ver materias", "subjects.view", "materias"),
    PermissionSeed("Crear materias", "subjects.create", "materias"),
    PermissionSeed("Editar materias", "subjects.edit", "materias"),
    PermissionSeed("Eliminar materias", "subjects.delete", "materias"),
    PermissionSeed("Ver estudiantes", "students.view", "estudiantes"),
    PermissionSeed("Crear estudiantes", "students.create", "estudiantes"),
    PermissionSeed("Editar estudiantes", "students.edit", "estudiantes"),
    PermissionSeed("Eliminar estudiantes", "students.delete", "estudiantes"),
    PermissionSeed("Ver calificaciones", "grades.view", "calificaciones"),
    PermissionSeed("Crear calificaciones", "grades.create", "calificaciones"),
    PermissionSeed("Editar calificaciones", "grades.edit", "calificaciones"),
    PermissionSeed("Eliminar calificaciones", "grades.delete", "calificaciones"),
    PermissionSeed("Ver reportes", "reports.view", "reportes"),
    PermissionSeed("Generar reportes", "reports.generate", "reportes"),
    PermissionSeed("Ver dashboard", "dashboard.view", "dashboard")
  ]

  const AdminFields: RoleFields := RoleFields("Administrador", "Acceso completo al sistema")
  const CoordinadorFields: RoleFields := RoleFields("Coordinador", "Gestión académica y de estudiantes")
  const AlumnoFields: RoleFields := RoleFields("Alumno", "Acceso a información personal y académica")

  /** The slugs the coordinador's `whereIn` selects. */
  const CoordinadorSlugs: seq<string> := [
    "careers.view", "careers.create", "careers.edit",
    "subjects.view", "subjects.create", "subjects.edit",
    "students.view", "students.create", "students.edit",
    "grades.view", "grades.create", "grades.edit",
    "reports.view", "reports.generate",
    "dashboard.view"
  ]

  /** The slugs the alumno's `whereIn` selects. */
  const AlumnoSlugs: seq<string> := ["students.view", "grades.view", "dashboard.view"]

  /** The permission loop: one slug-keyed upsert per entry, in list order. */
  function UpsertAll(t: Table<PermissionFields>, seeds: seq<PermissionSeed>): Table<PermissionFields>
    decreases |seeds|
  {
    if seeds == [] then t
    else
      var e := seeds[|seeds| - 1];
      Upsert(UpsertAll(t, seeds[..|seeds| - 1]), e.slug, Fields(e)).table
  }

  /** The roles table after the three role upserts, and the ids the upserts returned. */
  datatype SeededRoles = SeededRoles(table: Table<RoleFields>, adminId: nat, coordinadorId: nat, alumnoId: nat)

  function SeedRoles(roles: Table<RoleFields>): SeededRoles
  {
    var admin := Upsert(roles, "admin", AdminFields);
    var coordinador := Upsert(admin.table, "coordinador", CoordinadorFields);
    var alumno := Upsert(coordinador.table, "alumno", AlumnoFields);
    SeededRoles(alumno.table, admin.id, coordinador.id, alumno.id)
  }

  /** The three syncs, on the permission table the loop left and the role ids the upserts returned. */
  function SyncAll(pv: Pivot, perms: Table<PermissionFields>, r: SeededRoles): Pivot
  {
    var pv1 := Sync(pv, r.adminId, AllIds(perms));
    var pv2 := Sync(pv1, r.coordinadorId, IdsWithSlugIn(perms, CoordinadorSlugs));
    Sync(pv2, r.alumnoId, IdsWithSlugIn(perms, AlumnoSlugs))
  }

  /** The store after the seeder has run on `s`. */
  function Seeded(s: Snapshot): Snapshot
  {
    var perms := UpsertAll(s.permissions, PermissionSeeds);
    var roles := SeedRoles(s.roles);
    Snapshot(perms, roles.table, SyncAll(s.rolePermission, perms, roles))
  }

  /** The permission ids the pivot attaches to the role with slug `roleSlug`. */
  function AssignedTo(s: Snapshot, roleSlug: string): set<nat>
  {
    match Lookup(s.roles, roleSlug)
    case None => {}
    case Some(r) => if r.id in s.rolePermission then s.rolePermission[r.id] else {}
  }

  /** No slug appears twice in the list. */
  predicate Distinct(xs: seq<string>)
  {
    forall i, j | 0 <= i < j < |xs| :: xs[i] != xs[j]
  }

  predicate SeedSlugsDistinct(seeds: seq<PermissionSeed>)
  {
    forall i, j | 0 <= i < j < |seeds| :: seeds[i].slug != seeds[j].slug
  }

  /** Every entry of `seeds` is stored: its slug finds a row with its name and module. */
  predicate Settled(t: Table<PermissionFields>, seeds: seq<PermissionSeed>)
  {
    forall k | 0 <= k < |seeds| ::
      Lookup(t, seeds[k].slug).Some? && Lookup(t, seeds[k].slug).value.attrs == Fields(seeds[k])
  }

  predicate StartsWith(s: string, prefix: string)
  {
    |prefix| <= |s| && s[..|prefix|] == prefix
  }

  predicate EndsWith(s: string, suffix: string)
  {
    |suffix| <= |s| && s[|s| - |suffix|..] == suffix
  }

  // ---------------------------------------------------------------------
  // The permission loop
  // ---------------------------------------------------------------------

  /** With distinct slugs in the list, the loop leaves every entry stored. */
  lemma {:induction false} UpsertAllSettles(t: Table<PermissionFields>, seeds: seq<PermissionSeed>)
    requires SeedSlugsDistinct(seeds)
    ensures Settled(UpsertAll(t, seeds), seeds)
    decreases |seeds|
  {
    if seeds != [] {
      var n := |seeds| - 1;
      var init, e := seeds[..n], seeds[n];
      var u := UpsertAll(t, init);
      UpsertAllSettles(t, init);
      UpsertStores(u, e.slug, Fields(e));
      forall k | 0 <= k < |seeds|
        ensures Lookup(UpsertAll(t, seeds), seeds[k].slug).Some?
        ensures Lookup(UpsertAll(t, seeds), seeds[k].slug).value.attrs == Fields(seeds[k])
      {
        if k < n {
          assert init[k] == seeds[k];
          UpsertKeepsOthers(u, e.slug, Fields(e), seeds[k].slug);
        }
      }
    }
  }

  /** On a table where every entry is already stored, the loop changes nothing. */
  lemma {:induction false} UpsertAllSettledNoop(t: Table<PermissionFields>, seeds: seq<PermissionSeed>)
    requires Settled(t, seeds)
    ensures UpsertAll(t, seeds) == t
    decreases |seeds|
  {
    if seeds != [] {
      var n := |seeds| - 1;
      var init, e := seeds[..n], seeds[n];
      assert Settled(t, init) by {
        forall k | 0 <= k < |init| ensures init[k] == seeds[k] { }
      }
      UpsertAllSettledNoop(t, init);
      UpsertSettled(t, e.slug, Fields(e));
    }
  }

  /** The loop keeps the table well formed. */
  lemma {:induction false} UpsertAllWellFormed(t: Table<PermissionFields>, seeds: seq<PermissionSeed>)
    requires WellFormed(t)
    ensures WellFormed(UpsertAll(t, seeds))
    decreases |seeds|
  {
    if seeds != [] {
      var n := |seeds| - 1;
      UpsertAllWellFormed(t, seeds[..n]);
      UpsertWellFormed(UpsertAll(t, seeds[..n]), seeds[n].slug, Fields(seeds[n]));
    }
  }

  /** The loop keeps ids unique and below the counter, whether or not slugs are unique. */
  lemma {:induction false} UpsertAllKeepsIds(t: Table<PermissionFields>, seeds: seq<PermissionSeed>)
    requires IdsUnique(t) && IdsBelowNext(t)
    ensures IdsUnique(UpsertAll(t, seeds)) && IdsBelowNext(UpsertAll(t, seeds))
    decreases |seeds|
  {
    if seeds != [] {
      var n := |seeds| - 1;
      UpsertAllKeepsIds(t, seeds[..n]);
      UpsertKeepsIds(UpsertAll(t, seeds[..n]), seeds[n].slug, Fields(seeds[n]));
    }
  }

  lemma FrontSeedSlugsDistinct()
    ensures forall i, j | 0 <= i < j < 12 :: PermissionSeeds[i].slug != PermissionSeeds[j].slug
  {
  }

  lemma BackSeedSlugsDistinct()
    ensures forall i, j | 12 <= i < j < |PermissionSeeds| :: PermissionSeeds[i].slug != PermissionSeeds[j].slug
  {
  }

  lemma CrossSeedSlugsDistinct()
    ensures forall i, j | 0 <= i < 12 <= j < |PermissionSeeds| :: PermissionSeeds[i].slug != PermissionSeeds[j].slug
  {
  }

  /** The seeder lists 23 permissions, each under its own slug. */
  lemma PermissionSeedsDistinct()
    ensures |PermissionSeeds| == 23
    ensures SeedSlugsDistinct(PermissionSeeds)
  {
    FrontSeedSlugsDistinct();
    BackSeedSlugsDistinct();
    CrossSeedSlugsDistinct();
  }

  // ---------------------------------------------------------------------
  // What the seeder leaves behind
  // ---------------------------------------------------------------------

  /** Each listed permission exists exactly once afterwards, with its listed name and module. */
  lemma SeededPermissions(s: Snapshot, k: nat)
    requires WellFormed(s.permissions)
    requires k < |PermissionSeeds|
    ensures WellFormed(Seeded(s).permissions)
    ensures HeldOnce(Seeded(s).permissions, PermissionSeeds[k].slug, Fields(PermissionSeeds[k]))
  {
    PermissionSeedsDistinct();
    UpsertAllSettles(s.permissions, PermissionSeeds);
    UpsertAllWellFormed(s.permissions, PermissionSeeds);
    LookupHeldOnce(Seeded(s).permissions, PermissionSeeds[k].slug, Fields(PermissionSeeds[k]));
  }

  /** After the role upserts, each role slug finds the row its upsert saved. */
  lemma SeedRolesStores(roles: Table<RoleFields>)
    ensures Lookup(SeedRoles(roles).table, "admin") == Some(Row(SeedRoles(roles).adminId, "admin", AdminFields))
    ensures Lookup(SeedRoles(roles).table, "coordinador") == Some(Row(SeedRoles(roles).coordinadorId, "coordinador", CoordinadorFields))
    ensures Lookup(SeedRoles(roles).table, "alumno") == Some(Row(SeedRoles(roles).alumnoId, "alumno", AlumnoFields))
  {
    var admin := Upsert(roles, "admin", AdminFields);
    var coordinador := Upsert(admin.table, "coordinador", CoordinadorFields);
    UpsertStores(roles, "admin", AdminFields);
    UpsertStores(admin.table, "coordinador", CoordinadorFields);
    UpsertStores(coordinador.table, "alumno", AlumnoFields);
    UpsertKeepsOthers(admin.table, "coordinador", CoordinadorFields, "admin");
    UpsertKeepsOthers(coordinador.table, "alumno", AlumnoFields, "admin");
    UpsertKeepsOthers(coordinador.table, "alumno", AlumnoFields, "coordinador");
  }

  /**
   * With ids unique and below the counter, the three role upserts return three
   * different ids: the three slugs find three different rows.
   */
  lemma SeedRolesIdsDistinct(roles: Table<RoleFields>)
    requires IdsUnique(roles) && IdsBelowNext(roles)
    ensures IdsUnique(SeedRoles(roles).table) && IdsBelowNext(SeedRoles(roles).table)
    ensures SeedRoles(roles).adminId != SeedRoles(roles).coordinadorId
    ensures SeedRoles(roles).adminId != SeedRoles(roles).alumnoId
    ensures SeedRoles(roles).coordinadorId != SeedRoles(roles).alumnoId
  {
    SeedRolesKeepIds(roles);
    SeedRolesStores(roles);
    var t := SeedRoles(roles).table;
    LookupIdsDiffer(t, "admin", "coordinador");
    LookupIdsDiffer(t, "admin", "alumno");
    LookupIdsDiffer(t, "coordinador", "alumno");
  }

  lemma SeedRolesKeepIds(roles: Table<RoleFields>)
    requires IdsUnique(roles) && IdsBelowNext(roles)
    ensures IdsUnique(SeedRoles(roles).table) && IdsBelowNext(SeedRoles(roles).table)
  {
    var admin := Upsert(roles, "admin", AdminFields);
    var coordinador := Upsert(admin.table, "coordinador", CoordinadorFields);
    UpsertKeepsIds(roles, "admin", AdminFields);
    UpsertKeepsIds(admin.table, "coordinador", CoordinadorFields);
    UpsertKeepsIds(coordinador.table, "alumno", AlumnoFields);
  }

  /** The role upserts keep the roles table well formed and give the three roles three different ids. */
  lemma SeedRolesWellFormed(roles: Table<RoleFields>)
    requires WellFormed(roles)
    ensures WellFormed(SeedRoles(roles).table)
    ensures SeedRoles(roles).adminId != SeedRoles(roles).coordinadorId
    ensures SeedRoles(roles).adminId != SeedRoles(roles).alumnoId
    ensures SeedRoles(roles).coordinadorId != SeedRoles(roles).alumnoId
  {
    var admin := Upsert(roles, "admin", AdminFields);
    var coordinador := Upsert(admin.table, "coordinador", CoordinadorFields);
    UpsertWellFormed(roles, "admin", AdminFields);
    UpsertWellFormed(admin.table, "coordinador", CoordinadorFields);
    UpsertWellFormed(coordinador.table, "alumno", AlumnoFields);
    SeedRolesIdsDistinct(roles);
  }

  /** admin, coordinador and alumno each exist exactly once afterwards, with their listed name and description. */
  lemma SeededRolesHeldOnce(s: Snapshot)
    requires WellFormed(s.roles)
    ensures WellFormed(Seeded(s).roles)
    ensures HeldOnce(Seeded(s).roles, "admin", AdminFields)
    ensures HeldOnce(Seeded(s).roles, "coordinador", CoordinadorFields)
    ensures HeldOnce(Seeded(s).roles, "alumno", AlumnoFields)
  {
    SeedRolesStores(s.roles);
    SeedRolesWellFormed(s.roles);
    var t := Seeded(s).roles;
    LookupHeldOnce(t, "admin", AdminFields);
    LookupHeldOnce(t, "coordinador", CoordinadorFields);
    LookupHeldOnce(t, "alumno", AlumnoFields);
  }

  /** Afterwards the admin's pivot rows are exactly the whole permission table (`Permission::all()`). */
  lemma AdminHoldsEveryPermission(s: Snapshot)
    requires IdsUnique(s.roles) && IdsBelowNext(s.roles)
    ensures AssignedTo(Seeded(s), "admin") == AllIds(Seeded(s).permissions)
  {
    SeedRolesStores(s.roles);
    SeedRolesIdsDistinct(s.roles);
  }

  lemma CoordinadorSyncedToSelection(s: Snapshot)
    requires IdsUnique(s.roles) && IdsBelowNext(s.roles)
    ensures AssignedTo(Seeded(s), "coordinador") == IdsWithSlugIn(Seeded(s).permissions, CoordinadorSlugs)
  {
    SeedRolesStores(s.roles);
    SeedRolesIdsDistinct(s.roles);
  }

  lemma AlumnoSyncedToSelection(s: Snapshot)
    ensures AssignedTo(Seeded(s), "alumno") == IdsWithSlugIn(Seeded(s).permissions, AlumnoSlugs)
  {
    SeedRolesStores(s.roles);
  }

  /** The position in the permission list of each coordinador slug, and of each alumno slug. */
  const CoordinadorSeedIndex: seq<nat> := [4, 5, 6, 8, 9, 10, 12, 13, 14, 16, 17, 18, 20, 21, 22]
  const AlumnoSeedIndex: seq<nat> := [12, 16, 22]

  /** The coordinador and alumno lists name slugs of the permission list. */
  lemma SelectionsNameSeeds()
    ensures |CoordinadorSeedIndex| == |CoordinadorSlugs| && |AlumnoSeedIndex| == |AlumnoSlugs|
    ensures forall i | 0 <= i < |CoordinadorSlugs| ::
      CoordinadorSeedIndex[i] < |PermissionSeeds| && PermissionSeeds[CoordinadorSeedIndex[i]].slug == CoordinadorSlugs[i]
    ensures forall i | 0 <= i < |AlumnoSlugs| ::
      AlumnoSeedIndex[i] < |PermissionSeeds| && PermissionSeeds[AlumnoSeedIndex[i]].slug == AlumnoSlugs[i]
  {
  }

  /** Every slug of the permission list finds its row afterwards. */
  lemma SeedStored(s: Snapshot, k: nat)
    requires k < |PermissionSeeds|
    ensures Lookup(Seeded(s).permissions, PermissionSeeds[k].slug).Some?
  {
    PermissionSeedsDistinct();
    UpsertAllSettles(s.permissions, PermissionSeeds);
  }

  /** The coordinador list names fifteen different slugs. */
  lemma CoordinadorSlugsDistinct()
    ensures Distinct(CoordinadorSlugs)
    ensures |set x | x in CoordinadorSlugs| == 15
  {
    forall i, j | 0 <= i < j < |CoordinadorSlugs| ensures CoordinadorSlugs[i] != CoordinadorSlugs[j] {
      CoordinadorPairDiffers(i, j);
    }
    DistinctSlugCount(CoordinadorSlugs);
  }

  lemma CoordinadorSeedIndexIncreasing()
    ensures forall i, j | 0 <= i < j < |CoordinadorSeedIndex| :: CoordinadorSeedIndex[i] < CoordinadorSeedIndex[j]
  {
  }

  lemma CoordinadorPairDiffers(i: nat, j: nat)
    requires i < j < |CoordinadorSlugs|
    ensures CoordinadorSlugs[i] != CoordinadorSlugs[j]
  {
    SelectionsNameSeeds();
    PermissionSeedsDistinct();
    CoordinadorSeedIndexIncreasing();
    var a, b := CoordinadorSeedIndex[i], CoordinadorSeedIndex[j];
    assert a < b < |PermissionSeeds|;
    assert PermissionSeeds[a].slug != PermissionSeeds[b].slug;
  }

  /** A list of pairwise different slugs names as many slugs as it has entries. */
  lemma {:induction false} DistinctSlugCount(xs: seq<string>)
    requires Distinct(xs)
    ensures |set x | x in xs| == |xs|
  {
    if xs != [] {
      var rest := xs[1..];
      DistinctSlugCount(rest);
      assert (set x | x in xs) == {xs[0]} + (set x | x in rest);
      assert xs[0] !in (set x | x in rest);
    }
  }

  /** Every slug the coordinador list names is a slug the loop stored. */
  lemma CoordinadorSlugsStored(s: Snapshot)
    ensures forall x | x in CoordinadorSlugs :: Lookup(Seeded(s).permissions, x).Some?
  {
    SelectionsNameSeeds();
    forall i | 0 <= i < |CoordinadorSlugs| ensures Lookup(Seeded(s).permissions, CoordinadorSlugs[i]).Some? {
      SeedStored(s, CoordinadorSeedIndex[i]);
    }
  }

  /** Every slug the alumno list names is a slug the loop stored. */
  lemma AlumnoSlugsStored(s: Snapshot)
    ensures forall x | x in AlumnoSlugs :: Lookup(Seeded(s).permissions, x).Some?
  {
    SelectionsNameSeeds();
    forall i | 0 <= i < |AlumnoSlugs| ensures Lookup(Seeded(s).permissions, AlumnoSlugs[i]).Some? {
      SeedStored(s, AlumnoSeedIndex[i]);
    }
  }

  lemma NotUserSlug(x: string)
    requires |x| > 0 && x[0] != 'u'
    ensures !StartsWith(x, "users.")
  {
    if |x| >= 6 {
      assert x[..6][0] == x[0];
    }
  }

  lemma NotDeleteSlug(x: string)
    requires |x| >= 4 && x[|x| - 4] != 'l'
    ensures !EndsWith(x, ".delete")
  {
    if |x| >= 7 {
      assert x[|x| - 7..][3] == x[|x| - 4];
    }
  }

  /** The coordinador list holds no user-management slug and no delete slug. */
  lemma CoordinadorListIsAcademic(x: string)
    requires x in CoordinadorSlugs
    ensures !StartsWith(x, "users.") && !EndsWith(x, ".delete")
  {
    assert |x| >= 4 && x[0] != 'u' && x[|x| - 4] != 'l';
    NotUserSlug(x);
    NotDeleteSlug(x);
  }

  /**
   * Afterwards the coordinador holds exactly the fifteen listed slugs, none
   * of them a user-management or delete permission.
   */
  lemma CoordinadorHoldsAcademicPermissions(s: Snapshot)
    requires IdsUnique(s.permissions) && IdsBelowNext(s.permissions)
    requires IdsUnique(s.roles) && IdsBelowNext(s.roles)
    ensures SlugsOf(Seeded(s).permissions, AssignedTo(Seeded(s), "coordinador")) == set x | x in CoordinadorSlugs
    ensures |SlugsOf(Seeded(s).permissions, AssignedTo(Seeded(s), "coordinador"))| == 15
    ensures forall x | x in SlugsOf(Seeded(s).permissions, AssignedTo(Seeded(s), "coordinador")) ::
      !StartsWith(x, "users.") && !EndsWith(x, ".delete")
  {
    CoordinadorSyncedToSelection(s);
    UpsertAllKeepsIds(s.permissions, PermissionSeeds);
    CoordinadorSlugsStored(s);
    SlugsOfSelected(Seeded(s).permissions, CoordinadorSlugs);
    CoordinadorSlugsDistinct();
    forall x | x in CoordinadorSlugs ensures !StartsWith(x, "users.") && !EndsWith(x, ".delete") {
      CoordinadorListIsAcademic(x);
    }
  }

  /** Afterwards the alumno holds exactly students.view, grades.view and dashboard.view. */
  lemma AlumnoHoldsReadOnlyPermissions(s: Snapshot)
    requires IdsUnique(s.permissions) && IdsBelowNext(s.permissions)
    ensures SlugsOf(Seeded(s).permissions, AssignedTo(Seeded(s), "alumno"))
      == {"students.view", "grades.view", "dashboard.view"}
  {
    AlumnoSyncedToSelection(s);
    UpsertAllKeepsIds(s.permissions, PermissionSeeds);
    AlumnoSlugsStored(s);
    SlugsOfSelected(Seeded(s).permissions, AlumnoSlugs);
    AlumnoSlugSet();
  }

  lemma AlumnoSlugSet()
    ensures (set x | x in AlumnoSlugs) == {"students.view", "grades.view", "dashboard.view"}
  {
  }

  /** alumno's permissions lie within coordinador's, which lie within admin's. */
  lemma AssignmentsNested(s: Snapshot)
    requires IdsUnique(s.roles) && IdsBelowNext(s.roles)
    ensures AssignedTo(Seeded(s), "alumno") <= AssignedTo(Seeded(s), "coordinador")
    ensures AssignedTo(Seeded(s), "coordinador") <= AssignedTo(Seeded(s), "admin")
  {
    AdminHoldsEveryPermission(s);
    CoordinadorSyncedToSelection(s);
    AlumnoSyncedToSelection(s);
    assert forall x | x in AlumnoSlugs :: x in CoordinadorSlugs;
  }

  /** The syncs touch the three seeded roles only: every other role keeps its pivot rows. */
  lemma OtherRolesUntouched(s: Snapshot, q: nat)
    requires q != SeedRoles(s.roles).adminId && q != SeedRoles(s.roles).coordinadorId
    requires q != SeedRoles(s.roles).alumnoId
    ensures q in Seeded(s).rolePermission <==> q in s.rolePermission
    ensures q in s.rolePermission ==> Seeded(s).rolePermission[q] == s.rolePermission[q]
  {
  }

  // ---------------------------------------------------------------------
  // Running the seeder twice
  // ---------------------------------------------------------------------

  /** The role upserts, run on the table they produced, find every row in place and change nothing. */
  lemma SeedRolesSettled(roles: Table<RoleFields>)
    ensures SeedRoles(SeedRoles(roles).table) == SeedRoles(roles)
  {
    var r := SeedRoles(roles);
    SeedRolesStores(roles);
    UpsertSettled(r.table, "admin", AdminFields);
    UpsertSettled(r.table, "coordinador", CoordinadorFields);
    UpsertSettled(r.table, "alumno", AlumnoFields);
  }

  /** Repeating the three syncs with the same ids changes nothing. */
  lemma SyncAllIdempotent(pv: Pivot, perms: Table<PermissionFields>, r: SeededRoles)
    ensures SyncAll(SyncAll(pv, perms, r), perms, r) == SyncAll(pv, perms, r)
  {
  }

  /** Running the seeder on the store it produced gives that same store back. */
  lemma SeederIdempotent(s: Snapshot)
    ensures Seeded(Seeded(s)) == Seeded(s)
  {
    var s1 := Seeded(s);
    PermissionSeedsDistinct();
    UpsertAllSettles(s.permissions, PermissionSeeds);
    UpsertAllSettledNoop(s1.permissions, PermissionSeeds);
    SeedRolesSettled(s.roles);
    SyncAllIdempotent(s.rolePermission, s1.permissions, SeedRoles(s.roles));
  }

  // ---------------------------------------------------------------------
  // The seeder
  // ---------------------------------------------------------------------

  /** `run()`: the permission loop, the three role upserts, then the three syncs. */
  method Run(db: Database)
    modifies db
    ensures db.State() == Seeded(old(db.State()))
  {
    for i := 0 to |PermissionSeeds|
      invariant db.permissions == UpsertAll(old(db.permissions), PermissionSeeds[..i])
      invariant db.roles == old(db.roles) && db.rolePermission == old(db.rolePermission)
    {
      var e := PermissionSeeds[i];
      var _ := db.UpdateOrCreatePermission(e.slug, Fields(e));
      assert PermissionSeeds[..i + 1][..i] == PermissionSeeds[..i];
    }
    assert PermissionSeeds[..|PermissionSeeds|] == PermissionSeeds;

    var adminId := db.UpdateOrCreateRole("admin", AdminFields);
    var coordinadorId := db.UpdateOrCreateRole("coordinador", CoordinadorFields);
    var alumnoId := db.UpdateOrCreateRole("alumno", AlumnoFields);

    db.SyncPermissions(adminId, AllIds(db.permissions));
    db.SyncPermissions(coordinadorId, IdsWithSlugIn(db.permissions, CoordinadorSlugs));
    db.SyncPermissions(alumnoId, IdsWithSlugIn(db.permissions, AlumnoSlugs));
  }
}
