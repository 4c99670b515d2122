/** Family-scoped role checks (src/utils/roles.ts). The checks take the role as the
    string the database stores, so an unknown value is handled the way the source
    handles it: it is simply not in the allowed list. */
module Roles {

  datatype Role = Admin | Editor | Viewer

  /** The string a role is stored and compared as. */
  function Name(r: Role): string
  {
    match r
    case Admin => "admin"
    case Editor => "editor"
    case Viewer => "viewer"
  }

  /** Privilege order admin > editor > viewer, the reference the capabilities follow. */
  function Privilege(r: Role): nat
  {
    match r
    case Viewer => 0
    case Editor => 1
    case Admin => 2
  }

  /** The spelling of each role, used as the witness for the capabilities' contracts. */
  lemma NamesSpelled()
    ensures Name(Admin) == "admin" && Name(Editor) == "editor" && Name(Viewer) == "viewer"
  {
  }

  function CanEditContent(role: string): (b: bool)
    ensures b <==> exists r :: Name(r) == role && Privilege(r) >= Privilege(Editor)
  {
    NamesSpelled();
    role in ["admin", "editor"]
  }

  function CanDeleteContent(role: string): (b: bool)
    ensures b <==> exists r :: Name(r) == role && Privilege(r) >= Privilege(Editor)
  {
    NamesSpelled();
    role in ["admin", "editor"]
  }

  function CanCreateContent(role: string): (b: bool)
    ensures b <==> exists r :: Name(r) == role && Privilege(r) >= Privilege(Editor)
  {
    NamesSpelled();
    role in ["admin", "editor"]
  }

  function CanManageMembers(role: string): (b: bool)
    ensures b <==> exists r :: Name(r) == role && Privilege(r) >= Privilege(Admin)
  {
    NamesSpelled();
    role == "admin"
  }

  lemma ViewerDeniedContent()
    ensures !CanCreateContent(Name(Viewer))
    ensures !CanEditContent(Name(Viewer))
    ensures !CanDeleteContent(Name(Viewer))
  {
  }

  /** Create, edit and delete are granted to exactly the same role strings. */
  lemma ContentCapabilitiesAgree(role: string)
    ensures CanCreateContent(role) == CanEditContent(role) == CanDeleteContent(role)
  {
  }

  lemma ManageMembersIffAdmin(r: Role)
    ensures CanManageMembers(Name(r)) <==> r == Admin
  {
  }

  lemma EditorCapabilities()
    ensures CanCreateContent(Name(Editor)) && CanEditContent(Name(Editor)) && CanDeleteContent(Name(Editor))
    ensures !CanManageMembers(Name(Editor))
  {
  }

  /** Each capability is a threshold on the privilege order. */
  lemma CapabilitiesFollowPrivilege(r: Role)
    ensures CanCreateContent(Name(r)) <==> Privilege(r) >= Privilege(Editor)
    ensures CanEditContent(Name(r)) <==> Privilege(r) >= Privilege(Editor)
    ensures CanDeleteContent(Name(r)) <==> Privilege(r) >= Privilege(Editor)
    ensures CanManageMembers(Name(r)) <==> Privilege(r) >= Privilege(Admin)
  {
  }

  /** Capabilities are monotone in privilege; in particular managing members implies
      every content capability. */
  lemma CapabilitiesMonotone(a: Role, b: Role)
    requires Privilege(a) <= Privilege(b)
    ensures CanCreateContent(Name(a)) ==> CanCreateContent(Name(b))
    ensures CanEditContent(Name(a)) ==> CanEditContent(Name(b))
    ensures CanDeleteContent(Name(a)) ==> CanDeleteContent(Name(b))
    ensures CanManageMembers(Name(a)) ==> CanManageMembers(Name(b))
    ensures CanManageMembers(Name(a)) ==> CanCreateContent(Name(a)) && CanEditContent(Name(a)) && CanDeleteContent(Name(a))
  {
    CapabilitiesFollowPrivilege(a);
    CapabilitiesFollowPrivilege(b);
  }

  /** A stored role string that names no role is denied everything (fail closed). */
  lemma UnknownRoleDenied(role: string)
    requires forall r :: Name(r) != role
    ensures !CanCreateContent(role) && !CanEditContent(role) && !CanDeleteContent(role)
    ensures !CanManageMembers(role)
  {
    assert Name(Admin) == "admin" && Name(Editor) == "editor";
  }
}
