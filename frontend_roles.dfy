/** The web front end's role type and its admin-portal test (types/roles.ts).
    At run time the role is whatever string the stored user record holds, so
    the test is stated over strings and related to the three staff roles. */
module FrontendRoles {
  import UserDomain

  /** `canAccessAdminPortal`: a single comparison against the two admin
      names, which are the names of the staff roles other than Agent. */
  predicate CanAccessAdminPortal(role: string): (b: bool)
    ensures b <==> exists r: UserDomain.Role :: r != UserDomain.Agent && UserDomain.RoleName(r) == role
  {
    assert UserDomain.RoleName(UserDomain.Admin) == "Admin";
    assert UserDomain.RoleName(UserDomain.SuperAdmin) == "SuperAdmin";
    role == "Admin" || role == "SuperAdmin"
  }

  /** Over the three role names the portal is open exactly to the roles that
      outrank an Agent, i.e. to every role except Agent; any other string,
      such as a lower-case "admin", is refused. */
  lemma AdminPortalIffOutranksAgent(r: UserDomain.Role)
    ensures CanAccessAdminPortal(UserDomain.RoleName(r)) <==> UserDomain.Outranks(r, UserDomain.Agent)
    ensures CanAccessAdminPortal(UserDomain.RoleName(r)) <==> r != UserDomain.Agent
  {
  }

  /** Illustrative cases of `CanAccessAdminPortal`: the test is exact and
      case-sensitive. */
  lemma AdminPortalCases()
    ensures CanAccessAdminPortal("Admin") && CanAccessAdminPortal("SuperAdmin")
    ensures !CanAccessAdminPortal("Agent")
    ensures !CanAccessAdminPortal("admin") && !CanAccessAdminPortal("")
  {
  }
}
