/**
 * The role checks of the user model (app/Models/User.php).
 *
 * A user carries exactly one role, stored as a string column. Every check is a
 * comparison of that column with a constant or a list of constants. The model
 * takes the role to be a non-null, non-numeric string: under that assumption
 * PHP's strict `===` (hasRole) and loose `in_array` (hasAnyRole) agree with
 * string equality.
 */
module UserModel {

  /** A user row, reduced to the columns that take part in authorization. */
  datatype User = User(name: string, email: string, role: string, isActive: bool)

  /** isAdmin: the role column is exactly "admin". */
  predicate IsAdmin(u: User) {
    u.role == "admin"
  }

  /** isCoordinador: the role column is exactly "coordinador". */
  predicate IsCoordinador(u: User) {
    u.role == "coordinador"
  }

  /** isAlumno: the role column is exactly "alumno". */
  predicate IsAlumno(u: User) {
    u.role == "alumno"
  }

  /** hasRole: strict comparison of the role column with the given role. */
  predicate HasRole(u: User, role: string) {
    u.role == role
  }

  /**
   * hasAnyRole: `in_array` of the user's role in the list, a front-to-back scan
   * that stops at the first equal entry.
   */
  function HasAnyRole(u: User, roles: seq<string>): (b: bool)
    ensures b <==> exists i :: 0 <= i < |roles| && roles[i] == u.role
  {
    if roles == [] then false
    else if roles[0] == u.role then true
    else
      var rest := HasAnyRole(u, roles[1..]);
      assert forall i :: 1 <= i < |roles| ==> roles[i] == roles[1..][i - 1];
      rest
  }

  /** The three named checks are hasRole with their constant, so at most one of them holds. */
  lemma NamedChecksAreHasRole(u: User)
    ensures IsAdmin(u) == HasRole(u, "admin")
    ensures IsCoordinador(u) == HasRole(u, "coordinador")
    ensures IsAlumno(u) == HasRole(u, "alumno")
    ensures !(IsAdmin(u) && IsCoordinador(u))
    ensures !(IsAdmin(u) && IsAlumno(u))
    ensures !(IsCoordinador(u) && IsAlumno(u))
  {
  }

  /** hasAnyRole fails closed: the empty list admits nobody. */
  lemma HasAnyRoleEmpty(u: User)
    ensures !HasAnyRole(u, [])
  {
  }

  /** A one-element list is the same test as hasRole. */
  lemma HasAnyRoleSingleton(u: User, role: string)
    ensures HasAnyRole(u, [role]) == HasRole(u, role)
  {
  }

  /** Joining two role lists admits exactly the users that either list admits. */
  lemma {:induction false} HasAnyRoleAppend(u: User, a: seq<string>, b: seq<string>)
    ensures HasAnyRole(u, a + b) == (HasAnyRole(u, a) || HasAnyRole(u, b))
  {
    if a == [] {
      assert a + b == b;
    } else {
      assert (a + b)[0] == a[0];
      assert (a + b)[1..] == a[1..] + b;
      HasAnyRoleAppend(u, a[1..], b);
    }
  }

  /**
   * Only which roles a list names matters: reordering the list or repeating
   * entries never changes the answer.
   */
  lemma HasAnyRoleSameMembers(u: User, a: seq<string>, b: seq<string>)
    requires forall r :: r in a <==> r in b
    ensures HasAnyRole(u, a) == HasAnyRole(u, b)
  {
    if HasAnyRole(u, a) {
      var i :| 0 <= i < |a| && a[i] == u.role;
      assert u.role in b;
    }
    if HasAnyRole(u, b) {
      var i :| 0 <= i < |b| && b[i] == u.role;
      assert u.role in a;
    }
  }
}
