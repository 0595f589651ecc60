/** The staff identity of the user-management service: the `User` entity with
    its `Role` and `Status` enums (domain/User.java). */
module UserDomain {
  import opened Wrappers
  import Ascii

  /** Staff roles in declaration order; the order is the security level. */
  datatype Role = Agent | Admin | SuperAdmin

  /** `Role.ordinal()`: the position of the constant in the enum declaration. */
  function Ordinal(r: Role): (n: nat)
    ensures n < 3
    ensures n == 0 <==> r == Agent
    ensures n == 2 <==> r == SuperAdmin
  {
    match r
    case Agent => 0
    case Admin => 1
    case SuperAdmin => 2
  }

  /** `a.compareTo(b)` on a Java enum: the difference of the ordinals. */
  function CompareTo(a: Role, b: Role): (c: int)
    ensures c == 0 <==> a == b
    ensures c > 0 <==> Ordinal(a) > Ordinal(b)
    ensures -2 <= c <= 2
  {
    Ordinal(a) - Ordinal(b)
  }

  /** The rank test every staff operation applies: the repository refuses
      when `actor.compareTo(target) <= 0`, so the actor must be strictly above. */
  predicate Outranks(actor: Role, target: Role) {
    CompareTo(actor, target) > 0
  }

  /** Roles form a strict total order Agent < Admin < SuperAdmin. */
  lemma OutranksIsStrictTotalOrder()
    ensures forall r :: !Outranks(r, r)
    ensures forall a, b :: Outranks(a, b) ==> !Outranks(b, a)
    ensures forall a, b, c :: Outranks(a, b) && Outranks(b, c) ==> Outranks(a, c)
    ensures forall a, b :: a != b ==> Outranks(a, b) || Outranks(b, a)
    ensures Outranks(Admin, Agent) && Outranks(SuperAdmin, Admin)
  {
  }

  /** An Agent outranks nobody and nobody outranks a SuperAdmin. */
  lemma RankExtremes(r: Role)
    ensures !Outranks(Agent, r)
    ensures !Outranks(r, SuperAdmin)
    ensures Outranks(SuperAdmin, r) <==> r != SuperAdmin
  {
  }

  /** `Role.fromAuthority`: a switch with two named cases and a default. */
  function FromAuthority(authority: string): (r: Role)
    ensures r == Agent <==> authority == "ROLE_AGENT"
    ensures r == SuperAdmin <==> authority == "ROLE_SUPERADMIN"
    ensures r == Admin <==> authority != "ROLE_AGENT" && authority != "ROLE_SUPERADMIN"
  {
    match authority
    case "ROLE_AGENT" => Agent
    case "ROLE_SUPERADMIN" => SuperAdmin
    case _ => Admin
  }

  /** Illustrative cases of `FromAuthority`: "ROLE_ADMIN" and every
      unrecognised authority, such as a lower-case "role_agent", fall into
      the default branch and mean Admin. */
  lemma FromAuthorityDefaultsToAdmin()
    ensures FromAuthority("ROLE_ADMIN") == Admin
    ensures FromAuthority("role_agent") == Admin
    ensures FromAuthority("") == Admin
  {
  }

  /** `Role.name()`, used as the identity-provider group name. */
  function RoleName(r: Role): (name: string)
    ensures |name| > 0
  {
    match r
    case Agent => "Agent"
    case Admin => "Admin"
    case SuperAdmin => "SuperAdmin"
  }

  /** The authority a token carries for membership of group `g`: the group
      name upper-cased behind "ROLE_" (the services' group converters). */
  function GroupAuthority(g: string): (a: string)
    ensures Ascii.StartsWith(a, "ROLE_") && |a| == 5 + |g|
    ensures forall i :: 5 <= i < |a| ==> !Ascii.IsLower(a[i])
    ensures Ascii.EqualsIgnoreCase(a[5..], g)
  {
    "ROLE_" + Ascii.ToUpper(g)
  }

  /** Group names are matched without regard to case: "agent" and "Agent"
      give the same authority. */
  lemma GroupAuthorityIgnoresCase(g1: string, g2: string)
    requires Ascii.EqualsIgnoreCase(g1, g2)
    ensures GroupAuthority(g1) == GroupAuthority(g2)
  {
    Ascii.UpperIgnoresCase(g1, g2);
  }

  datatype Status = Active | Disabled

  /** A row of the `User` table. `userId` is null until the identity
      provider's subject id is assigned. */
  datatype User = User(
    userId: Option<string>,
    firstName: string,
    lastName: string,
    email: string,
    role: Role,
    userStatus: Status)

  /** `new User()` followed by the four setters the controller calls: no id yet,
      and the builder default makes the status Active. */
  function NewUser(firstName: string, lastName: string, email: string, role: Role): (u: User)
    ensures u.userId.None? && u.userStatus == Active
    ensures u.firstName == firstName && u.lastName == lastName && u.email == email && u.role == role
  {
    User(None, firstName, lastName, email, role, Active)
  }

  /** A user placed in group `RoleName(r)` at creation is read back as role
      `r` by `fromAuthority` on every later request: group naming, the
      authority converter and `fromAuthority` agree for all three roles. */
  lemma {:induction false} GroupRoundTrip(r: Role)
    ensures FromAuthority(GroupAuthority(RoleName(r))) == r
  {
    var name := RoleName(r);
    var up := Ascii.ToUpper(name);
    match r
    case Agent =>
      assert up == "AGENT";
    case Admin =>
      assert up == "ADMIN";
    case SuperAdmin =>
      assert up == "SUPERADMIN";
  }
}
