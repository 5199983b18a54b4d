/** The role checks the screens make on the signed-in user. The user may be
    absent and may have no role; the login screen stores the profile name
    upper-cased (MASTER, ADMINISTRADOR, VENDEDOR, PROMOTOR). */
module Access {
  import opened Base
  import opened Text

  /** The author written on every audit entry: `user?.role || 'Sistema'`. */
  function ActorRole(role: Option<string>): (r: string)
    ensures r != ""
    ensures role.Some? && role.value != "" ==> r == role.value
    ensures (role.None? || role.value == "") ==> r == "Sistema"
  {
    if role.Some? && role.value != "" then role.value else "Sistema"
  }

  /** `user?.role?.toLowerCase() === 'master'`. */
  predicate IsMaster(role: Option<string>) {
    role.Some? && Lower(role.value) == "master"
  }

  /** The audit screen's gate: the lower-cased role is `master` or `administrador`. */
  predicate IsAuthorized(role: Option<string>) {
    role.Some? && (Lower(role.value) == "master" || Lower(role.value) == "administrador")
  }

  /** Every master is authorized; the profiles the login screen creates get
      the access their names suggest, whatever their letter case. */
  lemma RolesOfProfiles()
    ensures forall role :: IsMaster(role) ==> IsAuthorized(role)
    ensures IsMaster(Some("MASTER")) && IsMaster(Some("Master"))
    ensures !IsMaster(Some("ADMINISTRADOR")) && IsAuthorized(Some("ADMINISTRADOR"))
    ensures !IsAuthorized(Some("VENDEDOR")) && !IsAuthorized(Some("PROMOTOR"))
    ensures !IsAuthorized(None) && !IsMaster(None)
  {
    assert Lower("MASTER") == "master";
    assert Lower("Master") == "master";
    assert Lower("ADMINISTRADOR") == "administrador";
    assert Lower("VENDEDOR")[0] == 'v';
    assert Lower("PROMOTOR")[0] == 'p';
  }
}
