/**
 * The static role catalogue of config/roles.php: the permission registry,
 * grouped by functional module, and the four role templates (admin, manager,
 * vendedor, cliente) with the slugs each one lists.
 *
 * The per-role lists of the file are written module by module, in the same
 * order as the registry; `Gather` joins the per-module pieces back into the
 * flat lists of the file, so that distinctness and membership can be proved
 * one module at a time.
 */
module RolesConfig {

  /** The twelve functional modules, in the order the registry lists them. */
  datatype Module =
    | Dashboard | Users | Roles | Catalog | Services | Ecommerce
    | Reservations | CrmCustomers | CrmSales | Inventory | Reports | Settings

  const Modules: seq<Module> :=
    [Dashboard, Users, Roles, Catalog, Services, Ecommerce,
     Reservations, CrmCustomers, CrmSales, Inventory, Reports, Settings]

  /** Position of a module in the registry. */
  function Ord(m: Module): nat
  {
    match m
    case Dashboard => 0
    case Users => 1
    case Roles => 2
    case Catalog => 3
    case Services => 4
    case Ecommerce => 5
    case Reservations => 6
    case CrmCustomers => 7
    case CrmSales => 8
    case Inventory => 9
    case Reports => 10
    case Settings => 11
  }

  /** The key under which the registry groups a module's permissions. */
  function ModuleKey(m: Module): string
  {
    match m
    case Dashboard => "dashboard"
    case Users => "users"
    case Roles => "roles"
    case Catalog => "catalog"
    case Services => "services"
    case Ecommerce => "ecommerce"
    case Reservations => "reservations"
    case CrmCustomers => "crm_customers"
    case CrmSales => "crm_sales"
    case Inventory => "inventory"
    case Reports => "reports"
    case Settings => "settings"
  }

  /** The permission slugs the registry defines for one module. */
  function ModuleSlugs(m: Module): seq<string>
  {
    match m
    case Dashboard => ["view-dashboard"]
    case Users => ["view-users", "create-users", "edit-users", "delete-users"]
    case Roles => ["view-roles", "create-roles", "edit-roles", "delete-roles", "assign-roles"]
    case Catalog =>
      ["view-products", "create-products", "edit-products", "delete-products",
       "view-categories", "create-categories", "edit-categories", "delete-categories"]
    case Services => ["view-services", "create-services", "edit-services", "delete-services"]
    case Ecommerce =>
      ["view-orders", "create-orders", "edit-orders", "delete-orders", "process-orders",
       "view-cart", "manage-checkout"]
    case Reservations =>
      ["view-reservations", "create-reservations", "edit-reservations", "delete-reservations",
       "manage-calendar", "view-availability"]
    case CrmCustomers =>
      ["view-customers", "create-customers", "edit-customers", "delete-customers",
       "view-customer-history"]
    case CrmSales =>
      ["view-leads", "create-leads", "edit-leads", "delete-leads",
       "view-opportunities", "create-opportunities", "edit-opportunities", "delete-opportunities",
       "manage-pipeline"]
    case Inventory => ["view-inventory", "manage-inventory", "view-stock-alerts", "manage-suppliers"]
    case Reports => ["view-reports", "export-reports", "view-analytics"]
    case Settings => ["view-settings", "edit-settings", "manage-notifications"]
  }

  /** The four role templates of the file. */
  datatype RoleKey = Admin | Manager | Vendedor | Cliente

  /** What a template grants: every registered permission, or an explicit list. */
  datatype Grant = All | Listed(slugs: seq<string>)

  function RoleSlug(r: RoleKey): string
  {
    match r
    case Admin => "admin"
    case Manager => "manager"
    case Vendedor => "vendedor"
    case Cliente => "cliente"
  }

  function RoleName(r: RoleKey): string
  {
    match r
    case Admin => "Administrador"
    case Manager => "Manager"
    case Vendedor => "Vendedor"
    case Cliente => "Cliente"
  }

  function RoleDescription(r: RoleKey): string
  {
    match r
    case Admin => "Acceso completo al sistema"
    case Manager => "Gestión operativa completa"
    case Vendedor => "Gestión de ventas y CRM"
    case Cliente => "Acceso limitado al frontend"
  }

  /** The part of the manager list that falls in module `m`. */
  function ManagerSlugs(m: Module): seq<string>
  {
    match m
    case Dashboard => ["view-dashboard"]
    case Users => ["view-users", "create-users", "edit-users"]
    case Roles => []
    case Catalog =>
      ["view-products", "create-products", "edit-products", "delete-products",
       "view-categories", "create-categories", "edit-categories", "delete-categories"]
    case Services => ["view-services", "create-services", "edit-services", "delete-services"]
    case Ecommerce => ["view-orders", "edit-orders", "process-orders"]
    case Reservations =>
      ["view-reservations", "create-reservations", "edit-reservations", "delete-reservations",
       "manage-calendar", "view-availability"]
    case CrmCustomers => ["view-customers", "create-customers", "edit-customers", "view-customer-history"]
    case CrmSales =>
      ["view-leads", "create-leads", "edit-leads", "delete-leads",
       "view-opportunities", "create-opportunities", "edit-opportunities", "delete-opportunities",
       "manage-pipeline"]
    case Inventory => ["view-inventory", "manage-inventory", "view-stock-alerts"]
    case Reports => ["view-reports", "export-reports", "view-analytics"]
    case Settings => ["view-settings", "edit-settings", "manage-notifications"]
  }

  /** The part of the vendedor list that falls in module `m`. */
  function VendedorSlugs(m: Module): seq<string>
  {
    match m
    case Dashboard => ["view-dashboard"]
    case Users => []
    case Roles => []
    case Catalog => ["view-products", "view-categories"]
    case Services => ["view-services"]
    case Ecommerce => ["view-orders", "create-orders", "edit-orders"]
    case Reservations => ["view-reservations", "create-reservations", "edit-reservations", "view-availability"]
    case CrmCustomers => ["view-customers", "create-customers", "edit-customers", "view-customer-history"]
    case CrmSales =>
      ["view-leads", "create-leads", "edit-leads",
       "view-opportunities", "create-opportunities", "edit-opportunities",
       "manage-pipeline"]
    case Inventory => ["view-inventory"]
    case Reports => ["view-reports", "export-reports"]
    case Settings => []
  }

  /** The part of the cliente list that falls in module `m`. */
  function ClienteSlugs(m: Module): seq<string>
  {
    match m
    case Catalog => ["view-products", "view-categories"]
    case Services => ["view-services"]
    case Ecommerce => ["view-cart", "manage-checkout"]
    case Reservations => ["view-reservations", "create-reservations", "edit-reservations", "view-availability"]
    case CrmCustomers => ["view-customers", "edit-customers", "view-customer-history"]
    case _ => []
  }

  /** The part of a listed role's permissions that falls in module `m`. */
  function ListedSlugs(r: RoleKey, m: Module): seq<string>
  {
    match r
    case Admin => ModuleSlugs(m)
    case Manager => ManagerSlugs(m)
    case Vendedor => VendedorSlugs(m)
    case Cliente => ClienteSlugs(m)
  }

  /** Concatenates the per-module pieces `f(m)` in the order of `ms`. */
  function Gather(ms: seq<Module>, f: Module -> seq<string>): seq<string>
  {
    if ms == [] then [] else f(ms[0]) + Gather(ms[1..], f)
  }

  /** Every slug the registry defines, in file order. */
  function Registry(): seq<string>
  {
    Gather(Modules, ModuleSlugs)
  }

  /** The `permissions` entry of a role template. */
  function RoleGrant(r: RoleKey): Grant
  {
    if r == Admin then All else Listed(Gather(Modules, m => ListedSlugs(r, m)))
  }

  /** The slugs a template's entry denotes, with `'all'` read as the whole registry. */
  function Granted(r: RoleKey): set<string>
  {
    match RoleGrant(r)
    case All => set s | s in Registry()
    case Listed(l) => set s | s in l
  }

  /** Role `r` holds slug `s`: some module's piece of its template names it. */
  predicate Grants(r: RoleKey, s: string)
  {
    exists m :: s in ListedSlugs(r, m)
  }

  predicate Distinct(s: seq<string>)
  {
    forall i, j | 0 <= i < j < |s| :: s[i] != s[j]
  }

  predicate Disjoint(a: seq<string>, b: seq<string>)
  {
    forall i, j | 0 <= i < |a| && 0 <= j < |b| :: a[i] != b[j]
  }

  /** A destructive permission: its slug starts with `delete-`. */
  predicate IsDeleteSlug(s: string)
  {
    |s| >= 7 && s[..7] == "delete-"
  }

  lemma NotDeleteByFirstLetter(s: string)
    requires |s| > 0 && s[0] != 'd'
    ensures !IsDeleteSlug(s)
  {
    if |s| >= 7 {
      assert s[..7][0] == s[0];
    }
  }

  // ---------------------------------------------------------------------
  // Generic facts about Gather
  // ---------------------------------------------------------------------

  lemma {:induction false} GatherMembers(ms: seq<Module>, f: Module -> seq<string>, x: string)
    ensures x in Gather(ms, f) <==> exists m :: m in ms && x in f(m)
    decreases |ms|
  {
    if ms != [] {
      GatherMembers(ms[1..], f, x);
      assert forall m :: m in ms <==> m == ms[0] || m in ms[1..];
    }
  }

  lemma DisjointMembers(a: seq<string>, b: seq<string>, x: string)
    requires Disjoint(a, b) && x in a
    ensures x !in b
  {
    var i :| 0 <= i < |a| && a[i] == x;
    forall j | 0 <= j < |b| ensures b[j] != x {
      assert a[i] != b[j];
    }
  }

  lemma DistinctAppend(a: seq<string>, b: seq<string>)
    requires Distinct(a) && Distinct(b)
    requires forall x :: x in a ==> x !in b
    ensures Distinct(a + b)
  {
    forall i, j | 0 <= i < j < |a + b|
      ensures (a + b)[i] != (a + b)[j]
    {
      if j < |a| {
      } else if i < |a| {
        assert (a + b)[j] in b;
      } else {
        assert (a + b)[i] == b[i - |a|] && (a + b)[j] == b[j - |a|];
      }
    }
  }

  lemma {:induction false} GatherDistinct(ms: seq<Module>, f: Module -> seq<string>)
    requires forall i, j | 0 <= i < j < |ms| :: ms[i] != ms[j]
    requires forall m | m in ms :: Distinct(f(m))
    requires forall m, n | m in ms && n in ms && m != n :: Disjoint(f(m), f(n))
    ensures Distinct(Gather(ms, f))
    decreases |ms|
  {
    if ms != [] {
      var rest := ms[1..];
      forall i, j | 0 <= i < j < |rest| ensures rest[i] != rest[j] {
        assert rest[i] == ms[i + 1] && rest[j] == ms[j + 1];
      }
      GatherDistinct(rest, f);
      forall x | x in f(ms[0]) ensures x !in Gather(rest, f) {
        GatherMembers(rest, f, x);
        forall n | n in rest ensures x !in f(n) {
          var k :| 0 <= k < |rest| && rest[k] == n;
          assert ms[k + 1] == n;
          DisjointMembers(f(ms[0]), f(n), x);
        }
      }
      DistinctAppend(f(ms[0]), Gather(rest, f));
    }
  }

  // ---------------------------------------------------------------------
  // The registry: one slug per permission, modules kept apart
  // ---------------------------------------------------------------------

  lemma ModulesListedOnce()
    ensures forall i, j | 0 <= i < j < |Modules| :: Modules[i] != Modules[j]
    ensures forall m :: Ord(m) < |Modules| && Modules[Ord(m)] == m
  {
    forall i, j | 0 <= i < j < |Modules| ensures Modules[i] != Modules[j] {
      assert Ord(Modules[i]) == i && Ord(Modules[j]) == j;
    }
    forall m ensures Ord(m) < |Modules| && Modules[Ord(m)] == m {
      match m
      case Dashboard =>
      case Users =>
      case Roles =>
      case Catalog =>
      case Services =>
      case Ecommerce =>
      case Reservations =>
      case CrmCustomers =>
      case CrmSales =>
      case Inventory =>
      case Reports =>
      case Settings =>
    }
  }

  lemma FrontModulesDistinct(m: Module)
    requires Ord(m) < 6
    ensures Distinct(ModuleSlugs(m))
  {
  }

  lemma BackModulesDistinct(m: Module)
    requires Ord(m) >= 6
    ensures Distinct(ModuleSlugs(m))
  {
  }

  /** No module repeats a slug. */
  lemma ModuleSlugsDistinct(m: Module)
    ensures Distinct(ModuleSlugs(m))
  {
    if Ord(m) < 6 { FrontModulesDistinct(m); } else { BackModulesDistinct(m); }
  }

  lemma DashboardApart(n: Module) requires Ord(n) > 0 ensures Disjoint(ModuleSlugs(Dashboard), ModuleSlugs(n)) {}
  lemma UsersApart(n: Module) requires Ord(n) > 1 ensures Disjoint(ModuleSlugs(Users), ModuleSlugs(n)) {}
  lemma RolesApartNear(n: Module) requires 2 < Ord(n) <= 6 ensures Disjoint(ModuleSlugs(Roles), ModuleSlugs(n)) {}
  lemma RolesApartFar(n: Module) requires Ord(n) > 6 ensures Disjoint(ModuleSlugs(Roles), ModuleSlugs(n)) {}
  lemma CatalogApartNear(n: Module) requires 3 < Ord(n) <= 7 ensures Disjoint(ModuleSlugs(Catalog), ModuleSlugs(n)) {}
  lemma CatalogApartFar(n: Module) requires Ord(n) > 7 ensures Disjoint(ModuleSlugs(Catalog), ModuleSlugs(n)) {}
  lemma ServicesApart(n: Module) requires Ord(n) > 4 ensures Disjoint(ModuleSlugs(Services), ModuleSlugs(n)) {}
  lemma EcommerceApart(n: Module) requires Ord(n) > 5 ensures Disjoint(ModuleSlugs(Ecommerce), ModuleSlugs(n)) {}
  lemma ReservationsApart(n: Module) requires Ord(n) > 6 ensures Disjoint(ModuleSlugs(Reservations), ModuleSlugs(n)) {}
  lemma CrmCustomersApart(n: Module) requires Ord(n) > 7 ensures Disjoint(ModuleSlugs(CrmCustomers), ModuleSlugs(n)) {}
  lemma CrmSalesApart(n: Module) requires Ord(n) > 8 ensures Disjoint(ModuleSlugs(CrmSales), ModuleSlugs(n)) {}
  lemma InventoryApart(n: Module) requires Ord(n) > 9 ensures Disjoint(ModuleSlugs(Inventory), ModuleSlugs(n)) {}
  lemma ReportsApart(n: Module) requires Ord(n) > 10 ensures Disjoint(ModuleSlugs(Reports), ModuleSlugs(n)) {}

  lemma ApartFromLater(m: Module, n: Module)
    requires Ord(m) < Ord(n)
    ensures Disjoint(ModuleSlugs(m), ModuleSlugs(n))
  {
    match m
    case Dashboard => DashboardApart(n);
    case Users => UsersApart(n);
    case Roles => if Ord(n) <= 6 { RolesApartNear(n); } else { RolesApartFar(n); }
    case Catalog => if Ord(n) <= 7 { CatalogApartNear(n); } else { CatalogApartFar(n); }
    case Services => ServicesApart(n);
    case Ecommerce => EcommerceApart(n);
    case Reservations => ReservationsApart(n);
    case CrmCustomers => CrmCustomersApart(n);
    case CrmSales => CrmSalesApart(n);
    case Inventory => InventoryApart(n);
    case Reports => ReportsApart(n);
  }

  /** Two different modules never share a slug. */
  lemma ModulesApart(m: Module, n: Module)
    requires m != n
    ensures Disjoint(ModuleSlugs(m), ModuleSlugs(n))
  {
    if Ord(m) < Ord(n) {
      ApartFromLater(m, n);
    } else {
      ApartFromLater(n, m);
    }
  }

  /** Each slug is defined once in the whole registry. */
  lemma RegistryDistinct()
    ensures Distinct(Registry())
  {
    ModulesListedOnce();
    forall m | m in Modules ensures Distinct(ModuleSlugs(m)) { ModuleSlugsDistinct(m); }
    forall m, n | m in Modules && n in Modules && m != n
      ensures Disjoint(ModuleSlugs(m), ModuleSlugs(n))
    {
      ModulesApart(m, n);
    }
    GatherDistinct(Modules, ModuleSlugs);
  }

  /** Twelve modules and fifty-nine permissions. */
  lemma RegistrySize()
    ensures |Modules| == 12 && |Registry()| == 59
  {
  }

  /** Every slug of every module is registered. */
  lemma ModuleSlugRegistered(m: Module, s: string)
    requires s in ModuleSlugs(m)
    ensures s in Registry()
  {
    GatherMembers(Modules, ModuleSlugs, s);
    ModulesListedOnce();
    assert Modules[Ord(m)] == m;
  }

  /** Every registered slug belongs to a module. */
  lemma RegisteredSlugHasModule(s: string)
    requires s in Registry()
    ensures exists m :: s in ModuleSlugs(m)
  {
    GatherMembers(Modules, ModuleSlugs, s);
  }

  /** A slug of module `m` belongs to no other module. */
  lemma SlugHasOneModule(m: Module, s: string)
    requires s in ModuleSlugs(m)
    ensures forall n | n != m :: s !in ModuleSlugs(n)
  {
    forall n | n != m ensures s !in ModuleSlugs(n) {
      ModulesApart(m, n);
      DisjointMembers(ModuleSlugs(m), ModuleSlugs(n), s);
    }
  }

  /** The module keys are pairwise different. */
  lemma ModuleKeysDistinct(m: Module, n: Module)
    requires m != n
    ensures ModuleKey(m) != ModuleKey(n)
  {
  }

  // ---------------------------------------------------------------------
  // The role templates
  // ---------------------------------------------------------------------

  /** Each role template has its own slug. */
  lemma RoleSlugsDistinct(r: RoleKey, q: RoleKey)
    requires r != q
    ensures RoleSlug(r) != RoleSlug(q)
  {
  }

  /** The four templates also carry four different display names and four different descriptions. */
  lemma RoleLabelsDistinct(r: RoleKey, q: RoleKey)
    requires r != q
    ensures RoleName(r) != RoleName(q)
    ensures RoleDescription(r) != RoleDescription(q)
  {
  }

  lemma ListedWithinModule(r: RoleKey, m: Module)
    ensures forall s | s in ListedSlugs(r, m) :: s in ModuleSlugs(m)
  {
  }

  lemma ListedWithinModules(r: RoleKey)
    ensures forall n, x | x in ListedSlugs(r, n) :: x in ModuleSlugs(n)
  {
    forall n ensures forall x | x in ListedSlugs(r, n) :: x in ModuleSlugs(n) {
      ListedWithinModule(r, n);
    }
  }

  lemma ManagerPiecesDistinct(m: Module) ensures Distinct(ManagerSlugs(m)) {}
  lemma VendedorPiecesDistinct(m: Module) ensures Distinct(VendedorSlugs(m)) {}
  lemma ClientePiecesDistinct(m: Module) ensures Distinct(ClienteSlugs(m)) {}

  lemma ListedDistinct(r: RoleKey, m: Module)
    ensures Distinct(ListedSlugs(r, m))
  {
    match r
    case Admin => ModuleSlugsDistinct(m);
    case Manager => ManagerPiecesDistinct(m);
    case Vendedor => VendedorPiecesDistinct(m);
    case Cliente => ClientePiecesDistinct(m);
  }

  lemma ListedInModule(r: RoleKey, m: Module, x: string)
    requires x in ListedSlugs(r, m)
    ensures x in ModuleSlugs(m)
  {
    ListedWithinModule(r, m);
  }

  lemma PiecesApart(r: RoleKey, m: Module, n: Module)
    requires m != n
    ensures Disjoint(ListedSlugs(r, m), ListedSlugs(r, n))
  {
    var xs, ys := ListedSlugs(r, m), ListedSlugs(r, n);
    forall i, j | 0 <= i < |xs| && 0 <= j < |ys| ensures xs[i] != ys[j] {
      ListedInModule(r, m, xs[i]);
      ListedInModule(r, n, ys[j]);
      SlugHasOneModule(m, xs[i]);
    }
  }

  /** A listed role's list names each slug once, as the registry does. */
  lemma RoleListDistinct(r: RoleKey)
    requires r != Admin
    ensures RoleGrant(r).Listed? && Distinct(RoleGrant(r).slugs)
  {
    var f := m => ListedSlugs(r, m);
    ModulesListedOnce();
    forall m | m in Modules ensures Distinct(f(m)) { ListedDistinct(r, m); }
    forall m, n | m in Modules && n in Modules && m != n
      ensures Disjoint(f(m), f(n))
    {
      PiecesApart(r, m, n);
    }
    GatherDistinct(Modules, f);
  }

  /** Gathering over all twelve modules collects what some module's piece holds. */
  lemma GatherAll(f: Module -> seq<string>, s: string)
    ensures s in Gather(Modules, f) <==> exists m :: s in f(m)
  {
    GatherMembers(Modules, f, s);
    ModulesListedOnce();
    if exists m :: s in f(m) {
      var m :| s in f(m);
      assert Modules[Ord(m)] == m;
    }
  }

  /** Whether a role holds a slug of module `m` is decided by that module's piece of its template. */
  lemma GrantsWithin(r: RoleKey, m: Module, s: string)
    requires s in ModuleSlugs(m)
    ensures Grants(r, s) <==> s in ListedSlugs(r, m)
  {
    SlugHasOneModule(m, s);
    ListedWithinModules(r);
  }

  lemma RegisteredHeldByAdmin(s: string)
    requires s in Registry()
    ensures Grants(Admin, s)
  {
    RegisteredSlugHasModule(s);
    var m :| s in ModuleSlugs(m);
    assert s in ListedSlugs(Admin, m);
  }

  lemma AdminHoldsRegistered(s: string)
    requires Grants(Admin, s)
    ensures s in Registry()
  {
    var m :| s in ListedSlugs(Admin, m);
    ModuleSlugRegistered(m, s);
  }

  /** Admin holds exactly the registered slugs. */
  lemma AdminHoldsExactlyRegistry(s: string)
    ensures Grants(Admin, s) <==> s in Registry()
  {
    if s in Registry() {
      RegisteredHeldByAdmin(s);
    }
    if Grants(Admin, s) {
      AdminHoldsRegistered(s);
    }
  }

  /** Whatever a role holds, the admin holds too. */
  lemma AdminHoldsEveryGrant(r: RoleKey, s: string)
    requires Grants(r, s)
    ensures Grants(Admin, s)
  {
    var m :| s in ListedSlugs(r, m);
    ListedWithinModule(r, m);
    assert s in ListedSlugs(Admin, m);
  }

  lemma AllEntryMeans(r: RoleKey, s: string)
    requires r == Admin
    ensures s in Granted(r) <==> s in Registry()
  {
  }

  lemma ListedEntryMeans(r: RoleKey, s: string)
    requires r != Admin
    ensures s in Granted(r) <==> s in Gather(Modules, m => ListedSlugs(r, m))
  {
  }

  lemma GatheredPiecesMean(r: RoleKey, s: string)
    ensures s in Gather(Modules, m => ListedSlugs(r, m)) <==> Grants(r, s)
  {
    var f := m => ListedSlugs(r, m);
    GatherAll(f, s);
    if Grants(r, s) {
      var m :| s in ListedSlugs(r, m);
      assert s in f(m);
    }
  }

  /**
   * The entry of a template, read as the file writes it (`'all'` or a flat
   * list), grants exactly what its per-module pieces grant.
   */
  lemma GrantedMeansGrants(r: RoleKey, s: string)
    ensures s in Granted(r) <==> Grants(r, s)
  {
    if r == Admin {
      AllEntryMeans(r, s);
      AdminHoldsExactlyRegistry(s);
    } else {
      ListedEntryMeans(r, s);
      GatheredPiecesMean(r, s);
    }
  }

  /** Every slug a listed template names is a registered permission. */
  lemma RoleListRegistered(r: RoleKey, s: string)
    requires r != Admin && s in RoleGrant(r).slugs
    ensures s in Registry()
  {
    ListedEntryMeans(r, s);
    GatheredPiecesMean(r, s);
    AdminHoldsEveryGrant(r, s);
    AdminHoldsExactlyRegistry(s);
  }

  /** Only the admin may manage roles and permissions. */
  lemma RoleManagementIsAdminOnly(r: RoleKey, s: string)
    requires s in ModuleSlugs(Roles)
    ensures Grants(r, s) <==> r == Admin
  {
    GrantsWithin(r, Roles, s);
  }

  /** Only the admin may delete users; manager, vendedor and cliente may not. */
  lemma DeletingUsersIsAdminOnly(r: RoleKey)
    ensures Grants(r, "delete-users") <==> r == Admin
  {
    GrantsWithin(r, Users, "delete-users");
  }

  /** The manager sees, creates and edits users. */
  lemma ManagerManagesUsers()
    ensures Grants(Manager, "view-users") && Grants(Manager, "create-users")
    ensures Grants(Manager, "edit-users")
  {
    assert "view-users" in ListedSlugs(Manager, Users);
    assert "create-users" in ListedSlugs(Manager, Users);
    assert "edit-users" in ListedSlugs(Manager, Users);
  }

  lemma VendedorPiecesSafe(m: Module, s: string)
    requires s in VendedorSlugs(m)
    ensures !IsDeleteSlug(s)
  {
    assert |s| > 0 && s[0] != 'd';
    NotDeleteByFirstLetter(s);
  }

  /** The vendedor template grants no destructive permission. */
  lemma VendedorDeletesNothing(s: string)
    requires Grants(Vendedor, s)
    ensures !IsDeleteSlug(s)
  {
    var m :| s in VendedorSlugs(m);
    VendedorPiecesSafe(m, s);
  }

  /** The cart and the checkout belong to the cliente (and to the admin's `'all'`) only. */
  lemma CartAndCheckoutAreForClientes(r: RoleKey, s: string)
    requires s == "view-cart" || s == "manage-checkout"
    ensures Grants(r, s) <==> r == Admin || r == Cliente
  {
    assert s in ModuleSlugs(Ecommerce);
    GrantsWithin(r, Ecommerce, s);
  }
}
