# Role and permission authorization, modelled in Dafny

This project models the authorization core of a Laravel application for
managing an academic and commercial back office. It has five parts:

- **The user's role checks** (`user.dfy`, module `UserModel`). A user carries
  one `role` string. `isAdmin`, `isCoordinador` and `isAlumno` compare that
  string with a constant, `hasRole` with its argument. `hasAnyRole` looks it
  up in a list.
- **A role and its permissions** (`role.dfy`, module `RoleModel`). A `Role`
  is a class. Its `permissions` field is the set of `(id, slug)` permissions
  its `role_permission` pivot rows attach.
  - `givePermissionTo` attaches without detaching (`syncWithoutDetaching`).
  - `revokePermissionTo` detaches by id.
  - `hasPermission` asks whether some attached permission has a slug.
- **The `role` middleware** (`check_role.dfy`, module `CheckRoleMiddleware`).
  It is a three-way decision: redirect to login, abort with 403, or hand the
  request to `next`. The authenticated user is an explicit `Option<User>`
  parameter.
- **The static catalog** (`roles_config.dfy`, module `RolesConfig`). This is
  `config/roles.php` as constants:
  - twelve modules holding fifty-nine permission slugs;
  - four role templates: `admin` holds `'all'`; `manager`, `vendedor` and
    `cliente` each hold an explicit list.

  Each role list is kept per module, in file order. The flat list is their
  concatenation, which equals the list the file writes out. A role *grants*
  a slug when one of its per-module pieces names it. The lemmas prove that
  the catalog is well formed and state its main access rules.
- **The permission seeder** (`store.dfy`, module `Store`, and
  `role_permission_seeder.dfy`, module `RolePermissionSeeder`). The database
  is a class with three fields:
  - the `permissions` table and the `roles` table, each a sequence of rows
    with an id, a slug and the other columns, plus the next free id (the
    predicate `Store.WellFormed` states unique slugs and ids where a lemma
    needs them);
  - the `role_permission` pivot, a map from role id to the set of permission
    ids.

  Its methods are `updateOrCreate` (upsert keyed by slug) and `sync`
  (replace one role's set). The constants `PermissionSeeds`,
  `CoordinadorSlugs` and `AlumnoSlugs` are the seeder's literal lists (lines
  18-55, 94-101 and 105-107 of `database/seeders/RolePermissionSeeder.php`).
  `RolePermissionSeeder.Run` is the seeder's
  `run()`:
  - a loop that upserts the 23 listed permissions;
  - three role upserts;
  - three syncs.

  It is proved to leave the store that the function `Seeded` describes. The
  lemmas about `Seeded` give the resulting tables and pivot sets, and show
  that seeding twice equals seeding once.

`config/roles.php` and the seeder use two different permission vocabularies
(`view-users` against `users.view`) and different role names. They are
modelled as two separate catalogs, as the application keeps them.

## Model

| member | source | states |
|---|---|---|
| UserModel.IsAdmin | app/Models/User.php:55-58 | isAdmin: the role column is exactly "admin" |
| UserModel.IsCoordinador | app/Models/User.php:63-66 | isCoordinador: the role column is exactly "coordinador" |
| UserModel.IsAlumno | app/Models/User.php:71-74 | isAlumno: the role column is exactly "alumno" |
| UserModel.HasRole | app/Models/User.php:79-82 | hasRole: the role column is exactly the given role |
| UserModel.NamedChecksAreHasRole | app/Models/User.php:55-82 | isAdmin, isCoordinador and isAlumno are hasRole with "admin", "coordinador" and "alumno"; no user passes two of them |
| UserModel.HasAnyRole | app/Models/User.php:87-90 | hasAnyRole holds exactly when some entry of the list equals the user's role |
| UserModel.HasAnyRoleEmpty | app/Models/User.php:89 | the empty list admits no user (fails closed) |
| UserModel.HasAnyRoleSingleton | app/Models/User.php:79-90 | a one-entry list gives the same answer as hasRole with that entry |
| UserModel.HasAnyRoleAppend | app/Models/User.php:89 | the concatenation of two lists admits exactly the users either list admits |
| UserModel.HasAnyRoleSameMembers | app/Models/User.php:89 | two lists naming the same roles, in any order and with any repeats, give the same answer |
| RoleModel.Attach | app/Models/Role.php:45 | syncWithoutDetaching([id]) on the attached set: p is added unless its id is already attached; nothing is removed |
| RoleModel.Detach | app/Models/Role.php:53 | detach(id) on the attached set: every permission with p's id is removed |
| RoleModel.Role.HasPermission | app/Models/Role.php:35-38 | hasPermission: some attached permission has the given slug |
| RoleModel.Role.constructor | app/Models/Role.php:10-15 | a new role has the given name, slug, description and is_active, and no permissions |
| RoleModel.Role.GivePermissionTo | app/Models/Role.php:43-46 | attaches p's id unless it is already attached; keeps every earlier permission; afterwards p's id is attached and p's slug is granted (hasPermission, lines 35-38) when p is the record stored under its id; name, slug, description and is_active are unchanged |
| RoleModel.Role.RevokePermissionTo | app/Models/Role.php:51-54 | removes exactly the permissions with p's id; afterwards the id is absent and, with unique slugs, hasPermission(p.slug) is false; the other columns are unchanged |
| RoleModel.AttachKeepsEverything | app/Models/Role.php:45 | attaching keeps every earlier permission, adds nothing but p, and leaves p's id attached |
| RoleModel.AttachKeepsOnce | app/Models/Role.php:45 | attaching never puts a second pivot row under an id that is already attached |
| RoleModel.AttachGrants | app/Models/Role.php:35-46 | when p is the record stored under its id, after attaching p hasPermission(p.slug) holds |
| RoleModel.AttachIdempotent | app/Models/Role.php:45 | giving the same permission twice leaves the same set as giving it once |
| RoleModel.DetachRevokes | app/Models/Role.php:51-54 | after detaching, p's id is gone, ids stay attached at most once, and with unique slugs p's slug is no longer granted |
| RoleModel.DetachOnlyThatId | app/Models/Role.php:53 | detaching removes exactly the permissions with p's id; detaching an id that is not attached changes nothing |
| RoleModel.GiveThenRevokeRestores | app/Models/Role.php:43-54 | giving a permission that was absent and then revoking it restores the original set |
| CheckRoleMiddleware.Handle | app/Http/Middleware/CheckRole.php:16-29 | redirect to login exactly when nobody is authenticated; 403 with the fixed message exactly when the user has none of the roles; otherwise the response is exactly next(request) |
| CheckRoleMiddleware.UnauthenticatedIsRedirected | app/Http/Middleware/CheckRole.php:18-27 | authentication is checked first: an unauthenticated request is redirected and never refused with 403 |
| CheckRoleMiddleware.EmptyRoleListRefusesEveryone | app/Http/Middleware/CheckRole.php:16-27 | a gate with no roles refuses every authenticated user with 403 |
| CheckRoleMiddleware.SingleRoleGate | app/Http/Middleware/CheckRole.php:25-29 | a gate with one role forwards exactly the users hasRole admits |
| CheckRoleMiddleware.DecisionDependsOnlyOnRole | app/Http/Middleware/CheckRole.php:16-29 | two users with the same role get the same outcome, whatever their name, email or is_active |
| RolesConfig.ModuleSlugs | config/roles.php:82-186 | the slugs each of the twelve modules defines, in file order |
| RolesConfig.Registry | config/roles.php:80-187 | the whole permission registry: the module lists joined in file order |
| RolesConfig.ManagerSlugs | config/roles.php:22-38 | the manager list, cut into its per-module pieces |
| RolesConfig.VendedorSlugs | config/roles.php:43-56 | the vendedor list, cut into its per-module pieces |
| RolesConfig.ClienteSlugs | config/roles.php:61-67 | the cliente list, cut into its per-module pieces |
| RolesConfig.RoleGrant | config/roles.php:13-68 | each template's permissions entry: 'all' for admin, the joined pieces for the other three |
| RolesConfig.Granted | config/roles.php:13-68 | the slug set a permissions entry denotes: the registry for 'all', the listed slugs otherwise |
| RolesConfig.ModulesListedOnce | config/roles.php:80-187 | the module order names each of the twelve modules once |
| RolesConfig.ModuleSlugsDistinct | config/roles.php:82-186 | no module lists a slug twice |
| RolesConfig.ModulesApart | config/roles.php:82-186 | two different modules share no slug |
| RolesConfig.RegistryDistinct | config/roles.php:80-187 | every slug of the permission registry is defined once |
| RolesConfig.RegistrySize | config/roles.php:80-187 | the registry has 12 modules and 59 slugs |
| RolesConfig.ModuleSlugRegistered | config/roles.php:80-187 | every slug of every module is in the registry |
| RolesConfig.RegisteredSlugHasModule | config/roles.php:80-187 | every registered slug belongs to some module |
| RolesConfig.SlugHasOneModule | config/roles.php:82-186 | a slug of one module belongs to no other module |
| RolesConfig.ModuleKey | config/roles.php:82-182 | the key under which the file lists each of the twelve modules |
| RolesConfig.ModuleKeysDistinct | config/roles.php:82-182 | the twelve module keys are pairwise different |
| RolesConfig.RoleSlug | config/roles.php:14-58 | the key under which the file lists each of the four role templates |
| RolesConfig.RoleName | config/roles.php:15-59 | each template's display name: Administrador, Manager, Vendedor, Cliente |
| RolesConfig.RoleDescription | config/roles.php:16-60 | each template's description text, one per role |
| RolesConfig.ListedSlugs | config/roles.php:17-67 | each template's permissions entry read module by module; admin's pieces are the whole module lists |
| RolesConfig.RoleSlugsDistinct | config/roles.php:13-68 | the four role templates have four different keys |
| RolesConfig.RoleLabelsDistinct | config/roles.php:14-60 | the four templates have four different names and four different descriptions |
| RolesConfig.ListedWithinModule | config/roles.php:22-67 | each per-module piece of a role list names only slugs of that module |
| RolesConfig.ListedDistinct | config/roles.php:22-67 | no per-module piece of a role list names a slug twice |
| RolesConfig.PiecesApart | config/roles.php:22-67 | pieces of one role list for different modules share no slug |
| RolesConfig.RoleListDistinct | config/roles.php:22-67 | the manager, vendedor and cliente lists each name every slug at most once |
| RolesConfig.Grants | config/roles.php:22-67 | a template grants a slug when its entry names it in the piece of some module; admin's pieces are the whole module lists |
| RolesConfig.GrantsWithin | config/roles.php:22-67 | for a slug of module m, a role grants it exactly when its piece for m names it |
| RolesConfig.AdminHoldsExactlyRegistry | config/roles.php:17 | 'all' grants exactly the registered slugs |
| RolesConfig.AdminHoldsEveryGrant | config/roles.php:17-67 | whatever any role grants, admin grants too |
| RolesConfig.GrantedMeansGrants | config/roles.php:13-68 | the slug set a template's permissions entry denotes ('all' as the registry, a list as its entries) is exactly what the role grants |
| RolesConfig.RoleListRegistered | config/roles.php:22-67 | every slug listed for manager, vendedor or cliente is in the registry |
| RolesConfig.RoleManagementIsAdminOnly | config/roles.php:95-101 | a slug of the roles module is granted to admin and to no other role |
| RolesConfig.DeletingUsersIsAdminOnly | config/roles.php:22-67 | delete-users is granted to admin and to no other role; in particular manager lacks it |
| RolesConfig.ManagerManagesUsers | config/roles.php:24 | manager grants view-users, create-users and edit-users |
| RolesConfig.VendedorDeletesNothing | config/roles.php:43-56 | vendedor grants no delete-* slug |
| RolesConfig.CartAndCheckoutAreForClientes | config/roles.php:63 | view-cart and manage-checkout are granted exactly to admin and cliente |
| Store.Upsert | database/seeders/RolePermissionSeeder.php:57-87 | updateOrCreate keyed by slug: the first row with the slug takes the new columns and keeps its id; otherwise a row is appended under the next id |
| Store.AllIds | database/seeders/RolePermissionSeeder.php:91 | Permission::all() as ids: the id of every row |
| Store.IdsWithSlugIn | database/seeders/RolePermissionSeeder.php:94-107 | whereIn('slug', list)->get() as ids: the ids of the rows whose slug is listed |
| Store.FindSlug | database/seeders/RolePermissionSeeder.php:58-59 | the slug lookup finds the first row with the slug, and finds nothing exactly when no row has it |
| Store.Lookup | database/seeders/RolePermissionSeeder.php:58-59 | where('slug', slug)->first(): the row the slug finds, or none |
| Store.Sync | database/seeders/RolePermissionSeeder.php:91 | sync sets the role's pivot set to exactly the given ids and leaves every other role's set as it was |
| Store.UpsertStores | database/seeders/RolePermissionSeeder.php:58-61 | after updateOrCreate the slug finds a row with the new columns; the id is the existing row's id, or the next free id when the slug was new |
| Store.UpsertKeepsOthers | database/seeders/RolePermissionSeeder.php:58-61 | updateOrCreate changes what no other slug finds |
| Store.UpsertWellFormed | database/seeders/RolePermissionSeeder.php:58-61 | updateOrCreate keeps slugs and ids unique and below the next id, and adds only the returned id |
| Store.UpsertKeepsIds | database/seeders/RolePermissionSeeder.php:58-61 | updateOrCreate keeps ids unique and below the next id even where slugs repeat: it keeps a row's id or takes the counter |
| Store.UpsertSettled | database/seeders/RolePermissionSeeder.php:58-61 | updateOrCreate with the columns a row already has changes nothing and returns that row's id |
| Store.LookupHeldOnce | database/seeders/RolePermissionSeeder.php:58-61 | in a table with unique slugs, the row a slug finds is the only row with that slug |
| Store.SlugsOfSelected | database/seeders/RolePermissionSeeder.php:94-101 | when every listed slug is stored, the rows whereIn selects carry exactly the listed slugs |
| Store.SyncIdempotent | database/seeders/RolePermissionSeeder.php:91 | syncing the same ids twice equals syncing once |
| Store.SyncForgetsPrevious | database/seeders/RolePermissionSeeder.php:91-108 | sync replaces: the result does not depend on what the role held before |
| Store.Database.UpdateOrCreatePermission | database/seeders/RolePermissionSeeder.php:58-61 | the permission table becomes its upsert and the upsert's id is returned; roles and pivot are unchanged |
| Store.Database.UpdateOrCreateRole | database/seeders/RolePermissionSeeder.php:65-87 | the roles table becomes its upsert and the upsert's id is returned; permissions and pivot are unchanged |
| Store.Database.SyncPermissions | database/seeders/RolePermissionSeeder.php:91-108 | the pivot becomes its sync; both tables are unchanged |
| RolePermissionSeeder.UpsertAll | database/seeders/RolePermissionSeeder.php:57-62 | the foreach: one slug-keyed upsert per listed permission, in list order |
| RolePermissionSeeder.SeedRoles | database/seeders/RolePermissionSeeder.php:64-87 | the three role upserts, in order, with the ids they return |
| RolePermissionSeeder.SyncAll | database/seeders/RolePermissionSeeder.php:89-108 | the three syncs: admin to every permission, coordinador and alumno to their whereIn selections |
| RolePermissionSeeder.Seeded | database/seeders/RolePermissionSeeder.php:15-109 | the store run() leaves: the loop, then the role upserts, then the syncs |
| RolePermissionSeeder.UpsertAllSettles | database/seeders/RolePermissionSeeder.php:57-62 | when the listed slugs are distinct, the loop leaves every entry stored with its name and module |
| RolePermissionSeeder.UpsertAllSettledNoop | database/seeders/RolePermissionSeeder.php:57-62 | on a table where every entry is already stored, the loop changes nothing |
| RolePermissionSeeder.UpsertAllKeepsIds | database/seeders/RolePermissionSeeder.php:57-62 | the loop keeps permission ids unique and below the counter, with or without unique slugs |
| RolePermissionSeeder.UpsertAllWellFormed | database/seeders/RolePermissionSeeder.php:57-62 | the loop keeps the permission table well formed |
| RolePermissionSeeder.PermissionSeedsDistinct | database/seeders/RolePermissionSeeder.php:18-55 | the seeder lists 23 permissions under 23 different slugs |
| RolePermissionSeeder.SeededPermissions | database/seeders/RolePermissionSeeder.php:18-62 | afterwards each of the 23 listed slugs is held by exactly one row, with its listed name and module |
| RolePermissionSeeder.SeedRolesStores | database/seeders/RolePermissionSeeder.php:65-87 | after the role upserts, admin, coordinador and alumno each find the row their upsert saved |
| RolePermissionSeeder.SeedRolesIdsDistinct | database/seeders/RolePermissionSeeder.php:65-87 | with ids unique and below the counter (no slug uniqueness needed), the three role upserts return three different ids |
| RolePermissionSeeder.SeedRolesWellFormed | database/seeders/RolePermissionSeeder.php:65-87 | the role upserts keep the roles table well formed and give the three roles three different ids |
| RolePermissionSeeder.SeededRolesHeldOnce | database/seeders/RolePermissionSeeder.php:65-87 | afterwards admin, coordinador and alumno each exist exactly once, with their listed name and description |
| RolePermissionSeeder.AssignedTo | app/Models/Role.php:27-30 | the permissions relation read back by role slug: the pivot set of the role row the slug finds, empty when there is none |
| RolePermissionSeeder.AdminHoldsEveryPermission | database/seeders/RolePermissionSeeder.php:91 | afterwards admin's pivot set is the id of every row of the permission table |
| RolePermissionSeeder.CoordinadorSyncedToSelection | database/seeders/RolePermissionSeeder.php:94-102 | afterwards coordinador's pivot set is the ids of the rows whose slug is in its list |
| RolePermissionSeeder.AlumnoSyncedToSelection | database/seeders/RolePermissionSeeder.php:105-108 | afterwards alumno's pivot set is the ids of the rows whose slug is in its list |
| RolePermissionSeeder.SelectionsNameSeeds | database/seeders/RolePermissionSeeder.php:18-107 | every slug of the coordinador and alumno lists is a slug of the permission list |
| RolePermissionSeeder.CoordinadorSlugsDistinct | database/seeders/RolePermissionSeeder.php:94-101 | the coordinador list names fifteen pairwise different slugs |
| RolePermissionSeeder.CoordinadorSlugsStored | database/seeders/RolePermissionSeeder.php:94-101 | afterwards every slug of the coordinador list finds a row |
| RolePermissionSeeder.AlumnoSlugsStored | database/seeders/RolePermissionSeeder.php:105-107 | afterwards every slug of the alumno list finds a row |
| RolePermissionSeeder.CoordinadorListIsAcademic | database/seeders/RolePermissionSeeder.php:94-101 | the coordinador list holds no users.* slug and no *.delete slug |
| RolePermissionSeeder.CoordinadorHoldsAcademicPermissions | database/seeders/RolePermissionSeeder.php:94-102 | afterwards coordinador's permissions carry exactly the fifteen listed slugs, none of them users.* or *.delete |
| RolePermissionSeeder.AlumnoHoldsReadOnlyPermissions | database/seeders/RolePermissionSeeder.php:105-108 | afterwards alumno's permissions carry exactly students.view, grades.view and dashboard.view |
| RolePermissionSeeder.AssignmentsNested | database/seeders/RolePermissionSeeder.php:91-108 | afterwards alumno's set lies within coordinador's, which lies within admin's |
| RolePermissionSeeder.OtherRolesUntouched | database/seeders/RolePermissionSeeder.php:91-108 | the syncs leave the pivot set of every other role as it was |
| RolePermissionSeeder.SeedRolesSettled | database/seeders/RolePermissionSeeder.php:65-87 | the role upserts, run again on their own result, change nothing and return the same ids |
| RolePermissionSeeder.SyncAllIdempotent | database/seeders/RolePermissionSeeder.php:91-108 | repeating the three syncs with the same ids changes nothing |
| RolePermissionSeeder.SeederIdempotent | database/seeders/RolePermissionSeeder.php:57-108 | running the seeder on the store it produced gives that store back: running twice equals running once |
| RolePermissionSeeder.Run | database/seeders/RolePermissionSeeder.php:15-109 | run() (the permission loop, the three role upserts and the three syncs, in place on the database) leaves exactly the store Seeded describes |

## Left out

- Persistence, queries, hashing and sessions are left out. Eloquent tables become in-memory sequences of rows, and the pivot becomes a map. The ambient `auth()` state becomes the explicit `principal` parameter of `Handle`.
- Timestamps and the `password`, `remember_token` and `email_verified_at` columns are left out. They play no part in authorization.
- The null role is not modelled. The role is taken to be a non-null, non-numeric string. `hasRole` compares with `===` and `hasAnyRole` with a loose `in_array`, and under this assumption the two agree. A null role would loosely equal `""`; the model does not capture that.
- `is_active` is carried on users and roles but is never checked. No authorization code reads it: `CheckRole` decides on authentication and the role column only. So the gate has no "inactive users are refused" rule.
- There is no per-user effective-permission resolver. A user holds one `role` string and has no link to `Role` rows, so no union over roles is modelled.
- The `middleware` entry of `config/roles.php` (lines 198-201) is left out. It only names the middleware aliases.
- Store.WellFormed (unique slugs and ids, ids below the next free id) is a precondition of the seeder lemmas that need unique slugs. The lemmas about the role ids, the pivot sets and what coordinador and alumno hold need only unique ids below the counter, which the auto-increment key gives. The migrations that would declare a unique slug index are not part of this model.
- Store.Upsert matches the first row with the slug in insertion order. That assumes `first()` returns the earliest-inserted matching row, which SQL without ORDER BY does not promise. With unique slugs there is only one matching row, so the assumption matters only for tables that repeat a slug.
- RoleModel.Role.RevokePermissionTo: unsaved permissions, whose id is null, are not modelled; `Permission.id` is a `nat`. Laravel's `detach(null)` detaches every permission of the role, so revoking an unsaved permission would empty the role's set rather than change nothing, and `givePermissionTo` would have no id to attach. `DetachOnlyThatId` and `GiveThenRevokeRestores` speak of saved permissions only.
- RoleModel.Role and Store.Database are two separate views of the pivot. A `Role` object holds its permissions as a set, and the seeder works on the whole `role_permission` map. The model does not tie one `Role` object to the rows of a `Database`.
- RoleModel.Role.GivePermissionTo: the slug it grants is promised only when `p` is the record already stored under its id. A pivot row keeps only the id, so an argument whose slug differs from the stored one is granted under the stored slug.
- RolesConfig.RoleListDistinct: the lengths of the manager, vendedor and cliente lists are not stated. Only their distinctness and registry membership are.
- The other seeders, the console command, the routes, the controllers and the React pages are not part of this model.
