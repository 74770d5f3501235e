/**
 * A role and the permissions attached to it (app/Models/Role.php).
 *
 * The role_permission pivot rows of one role are modelled as the set of the
 * permissions they point to. A pivot row holds a permission id; the slug comes
 * with the permission the id names, so the model pairs the two.
 */
module RoleModel {

  /** A permission as the pivot sees it: its primary key and its slug. */
  datatype Permission = Permission(id: nat, slug: string)

  /** The ids of the attached permissions: the role's pivot rows. */
  function Ids(ps: set<Permission>): set<nat> {
    set p | p in ps :: p.id
  }

  /** Some attached permission has slug `s`. */
  predicate HasSlug(ps: set<Permission>, s: string) {
    exists p :: p in ps && p.slug == s
  }

  /** The pivot is unique per (role, permission) pair, so an id is attached at most once. */
  ghost predicate AttachedOnce(ps: set<Permission>) {
    forall p, q :: p in ps && q in ps && p.id == q.id ==> p == q
  }

  /** `p` is the record stored under its id: whatever is attached under p.id is p itself. */
  ghost predicate StoredAs(ps: set<Permission>, p: Permission) {
    forall q :: q in ps && q.id == p.id ==> q == p
  }

  /** The permission table's slugs are unique: nothing attached under another id has p's slug. */
  ghost predicate SlugIsKey(ps: set<Permission>, p: Permission) {
    forall q :: q in ps && q.slug == p.slug ==> q.id == p.id
  }

  /** syncWithoutDetaching([p.id]): attach p's id unless it is already attached; detach nothing. */
  function Attach(ps: set<Permission>, p: Permission): set<Permission> {
    if p.id in Ids(ps) then ps else ps + {p}
  }

  /** detach(p.id): remove the pivot rows holding p's id. */
  function Detach(ps: set<Permission>, p: Permission): set<Permission> {
    set q | q in ps && q.id != p.id
  }

  class Role {
    var name: string
    var slug: string
    var description: string
    var isActive: bool
    var permissions: set<Permission>

    ghost predicate Valid()
      reads this
    {
      AttachedOnce(permissions)
    }

    constructor (name: string, slug: string, description: string, isActive: bool)
      ensures Valid()
      ensures this.name == name && this.slug == slug && this.description == description && this.isActive == isActive
      ensures permissions == {}
    {
      this.name := name;
      this.slug := slug;
      this.description := description;
      this.isActive := isActive;
      permissions := {};
    }

    /** hasPermission: some attached permission has the given slug. */
    predicate HasPermission(s: string)
      reads this
    {
      HasSlug(permissions, s)
    }

    /**
     * givePermissionTo: attaches p without detaching anything. Afterwards p's
     * id is attached, every earlier permission is still attached, and the slug
     * of p is granted whenever p is the record stored under its id.
     */
    method GivePermissionTo(p: Permission)
      requires Valid()
      modifies this
      ensures Valid()
      ensures permissions == Attach(old(permissions), p)
      ensures old(permissions) <= permissions && permissions - {p} == old(permissions) - {p}
      ensures p.id in Ids(permissions)
      ensures StoredAs(old(permissions), p) ==> HasPermission(p.slug)
      ensures name == old(name) && slug == old(slug) && description == old(description) && isActive == old(isActive)
    {
      AttachKeepsEverything(permissions, p);
      AttachKeepsOnce(permissions, p);
      if StoredAs(permissions, p) {
        AttachGrants(permissions, p);
      }
      if p.id !in Ids(permissions) {
        permissions := permissions + {p};
      }
    }

    /**
     * revokePermissionTo: detaches p's id and nothing else. Afterwards the id
     * is gone, and so is the slug when slugs are a key of the attached set.
     */
    method RevokePermissionTo(p: Permission)
      requires Valid()
      modifies this
      ensures Valid()
      ensures permissions == Detach(old(permissions), p)
      ensures p.id !in Ids(permissions)
      ensures SlugIsKey(old(permissions), p) ==> !HasPermission(p.slug)
      ensures name == old(name) && slug == old(slug) && description == old(description) && isActive == old(isActive)
    {
      DetachRevokes(permissions, p);
      permissions := set q | q in permissions && q.id != p.id;
    }
  }

  /** Attaching adds at most p: every earlier permission stays and nothing else changes. */
  lemma AttachKeepsEverything(ps: set<Permission>, p: Permission)
    ensures ps <= Attach(ps, p)
    ensures Attach(ps, p) - {p} == ps - {p}
    ensures p.id in Ids(Attach(ps, p))
  {
    assert p.id in Ids(ps + {p});
  }

  /** Attaching keeps the pivot unique per id. */
  lemma AttachKeepsOnce(ps: set<Permission>, p: Permission)
    requires AttachedOnce(ps)
    ensures AttachedOnce(Attach(ps, p))
  {
  }

  /** After attaching the stored record p, p is attached and its slug is granted. */
  lemma AttachGrants(ps: set<Permission>, p: Permission)
    requires StoredAs(ps, p)
    ensures p in Attach(ps, p)
    ensures HasSlug(Attach(ps, p), p.slug)
  {
    if p.id in Ids(ps) {
      var q :| q in ps && q.id == p.id;
      assert q == p;
    }
  }

  /** Giving the same permission twice leaves the same set as giving it once. */
  lemma AttachIdempotent(ps: set<Permission>, p: Permission)
    ensures Attach(Attach(ps, p), p) == Attach(ps, p)
  {
    AttachKeepsEverything(ps, p);
  }

  /** Detaching removes p's id, keeps the pivot unique and, when slugs are a key, revokes p's slug. */
  lemma DetachRevokes(ps: set<Permission>, p: Permission)
    ensures p.id !in Ids(Detach(ps, p))
    ensures AttachedOnce(ps) ==> AttachedOnce(Detach(ps, p))
    ensures SlugIsKey(ps, p) ==> !HasSlug(Detach(ps, p), p.slug)
  {
  }

  /** Detaching removes only the rows of p's id, so revoking an unattached permission changes nothing. */
  lemma DetachOnlyThatId(ps: set<Permission>, p: Permission)
    ensures forall q :: q in Detach(ps, p) <==> q in ps && q.id != p.id
    ensures p.id !in Ids(ps) ==> Detach(ps, p) == ps
  {
    if p.id !in Ids(ps) {
      forall q | q in ps ensures q.id != p.id {
        assert q.id in Ids(ps);
      }
    }
  }

  /** Giving a permission whose id was not attached and then revoking it restores the original set. */
  lemma GiveThenRevokeRestores(ps: set<Permission>, p: Permission)
    requires p.id !in Ids(ps)
    ensures Detach(Attach(ps, p), p) == ps
  {
    DetachOnlyThatId(ps, p);
  }
}
