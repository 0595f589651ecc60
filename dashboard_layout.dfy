/** The access decision the dashboard layout takes once, when it mounts
    (components/layout/dashboard-layout.tsx): read the stored user record,
    check the page's role requirement, and either show the page or redirect. */
module DashboardLayout {
  import opened Wrappers
  import opened FrontendRoles
  import UserDomain

  /** The role requirement a page passes to the layout; absent means any user. */
  datatype RequiredRole = RequireAdmin | RequireAgent

  /** What `JSON.parse` makes of the stored text: an exception, the literal
      `null`, a falsy value other than `null` (`false`, `0`, `-0` or the JSON
      string `""`), or some truthy value whose `Role` property is a string
      (`Some`) or is missing or not a string (`None`). Reading `Role` off a
      falsy primitive gives `undefined` without throwing. */
  datatype Parsed = ParseError | JsonNull | JsonFalsy | JsonValue(role: Option<string>)

  /** The effect's outcome: `router.replace(path)`, or `setUser` followed by
      rendering; a falsy user value makes the layout render nothing. */
  datatype Decision = Redirect(path: string) | Show(role: Option<string>) | ShowNothing

  const LOGIN := "/login"
  const ADMIN_HOME := "/admin"
  const AGENT_HOME := "/agent"

  /** The requirement of each landing page: "/admin" requires Admin and
      "/agent" requires Agent. */
  function RequirementOf(home: string): Option<RequiredRole> {
    if home == ADMIN_HOME then Some(RequireAdmin)
    else if home == AGENT_HOME then Some(RequireAgent)
    else None
  }

  /** `meetsRequirement`: Admin pages admit portal roles, Agent pages admit
      the exact string "Agent". A role that is not a string meets neither. */
  predicate Meets(required: RequiredRole, role: Option<string>) {
    match required
    case RequireAdmin => role.Some? && CanAccessAdminPortal(role.value)
    case RequireAgent => role == Some("Agent")
  }

  /** The home page a refused user is sent to. */
  function HomeOf(role: Option<string>): (home: string)
    ensures home == ADMIN_HOME <==> role.Some? && CanAccessAdminPortal(role.value)
    ensures home == AGENT_HOME <==> !(role.Some? && CanAccessAdminPortal(role.value))
  {
    if role.Some? && CanAccessAdminPortal(role.value) then ADMIN_HOME else AGENT_HOME
  }

  /** The mount effect. `stored` is `localStorage.getItem("user")` and `parse`
      stands for `JSON.parse`. Reading `Role` off a parsed `null` throws, which
      the surrounding `catch` turns into a redirect to the login page; reading
      it off a falsy primitive gives `undefined`, which meets no requirement,
      and `setUser` of a falsy value renders nothing. */
  function Decide(stored: Option<string>, parse: string -> Parsed, required: Option<RequiredRole>): (d: Decision)
    ensures (stored == None || stored == Some("")) ==> d == Redirect(LOGIN)
    ensures stored.Some? && stored.value != "" && parse(stored.value) == ParseError ==> d == Redirect(LOGIN)
    ensures d.Show? ==> stored.Some? && parse(stored.value) == JsonValue(d.role)
    ensures d.Show? && required.Some? ==> Meets(required.value, d.role)
    ensures d.ShowNothing? ==> required == None
    ensures stored.Some? && stored.value != "" && parse(stored.value) == JsonNull ==>
      (required.Some? ==> d == Redirect(LOGIN)) && (required.None? ==> d == ShowNothing)
    ensures stored.Some? && stored.value != "" && parse(stored.value) == JsonFalsy ==>
      (required.Some? ==> d == Redirect(AGENT_HOME)) && (required.None? ==> d == ShowNothing)
    ensures d.Redirect? ==> d.path in {LOGIN, ADMIN_HOME, AGENT_HOME}
    ensures stored.Some? && stored.value != "" && parse(stored.value).JsonValue? ==>
      var role := parse(stored.value).role;
      if required.Some? && !Meets(required.value, role) then d == Redirect(HomeOf(role)) else d == Show(role)
  {
    match stored
    case None => Redirect(LOGIN)
    case Some(text) =>
      if text == "" then Redirect(LOGIN)
      else
        match parse(text)
        case ParseError => Redirect(LOGIN)
        case JsonNull =>
          if required.Some? then Redirect(LOGIN) else ShowNothing
        case JsonFalsy =>
          if required.Some? then Redirect(HomeOf(None)) else ShowNothing
        case JsonValue(role) =>
          if required.Some? && !Meets(required.value, role) then Redirect(HomeOf(role))
          else Show(role)
  }

  /** Without a requirement every truthy parsed user record is shown, and
      only those: `null` and the other falsy values render nothing, and
      unparsable text goes to the login page. */
  lemma NoRequirementShowsAnyUser(text: string, parse: string -> Parsed)
    requires text != ""
    ensures parse(text).JsonValue? <==> Decide(Some(text), parse, None).Show?
    ensures parse(text).JsonValue? ==> Decide(Some(text), parse, None) == Show(parse(text).role)
    ensures parse(text) in {JsonNull, JsonFalsy} <==> Decide(Some(text), parse, None) == ShowNothing
    ensures parse(text) == ParseError <==> Decide(Some(text), parse, None) == Redirect(LOGIN)
  {
  }

  /** For the three real staff roles the redirect settles: the page a refused
      user is sent to admits that same user. */
  lemma {:induction false} RedirectSettles(text: string, parse: string -> Parsed, required: RequiredRole, r: UserDomain.Role)
    requires text != "" && parse(text) == JsonValue(Some(UserDomain.RoleName(r)))
    requires Decide(Some(text), parse, Some(required)).Redirect?
    ensures var home := Decide(Some(text), parse, Some(required)).path;
      RequirementOf(home).Some? &&
      Decide(Some(text), parse, RequirementOf(home)) == Show(Some(UserDomain.RoleName(r)))
  {
    AdminPortalIffOutranksAgent(r);
  }

  /** A record whose role is no staff role name (here "Manager") is refused
      on "/agent" and redirected to "/agent" itself, so it never settles. */
  lemma UnknownRoleRedirectsToItself(text: string, parse: string -> Parsed)
    requires text != "" && parse(text) == JsonValue(Some("Manager"))
    ensures Decide(Some(text), parse, RequirementOf(AGENT_HOME)) == Redirect(AGENT_HOME)
  {
  }
}
