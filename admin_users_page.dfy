/** The pure logic of the staff administration page (app/admin/users/page.tsx):
    mapping loaded users, the search filter, the local create guard, the
    update payload, the validation-message routing and the list updates that
    follow a successful update or delete. React state updates are modelled as
    the functions passed to the state setters. */
module AdminUsersPage {
  import opened Wrappers
  import Ascii
  import UserApi
  import UserDomain
  import UserController

  /** A user as the page lists it. */
  datatype PageUser = PageUser(userId: string, firstName: string, lastName: string, email: string,
                               role: string, status: string, createdAt: Option<string>)

  /** A user as the staff endpoint returns it; every property may be absent. */
  datatype ApiUser = ApiUser(userId: Option<string>, id: Option<string>, firstName: Option<string>,
                             lastName: Option<string>, email: Option<string>, role: Option<string>,
                             status: Option<string>, createdAt: Option<string>)

  /** The role of the signed-in user read from the stored record: its `Role`
      property, or "Agent" when the property is absent. */
  function CurrentUserRole(storedRole: Option<string>): (r: string)
    ensures storedRole.None? ==> r == "Agent"
    ensures storedRole.Some? ==> r == storedRole.value
  {
    storedRole.GetOr("Agent")
  }

  /** The mapping applied to each loaded user: `userId`, then `id`, then the
      random fallback (a parameter here); missing names and email become "",
      a missing role "Agent" and a missing status "Active". Only absent
      values are replaced: `??` keeps an empty string. */
  function MapApiUser(u: ApiUser, fallbackId: string): (p: PageUser)
    ensures p.userId == (if u.userId.Some? then u.userId.value else u.id.GetOr(fallbackId))
    ensures p.firstName == u.firstName.GetOr("") && p.lastName == u.lastName.GetOr("") && p.email == u.email.GetOr("")
    ensures u.role.None? ==> p.role == "Agent"
    ensures u.role.Some? ==> p.role == u.role.value
    ensures u.status.None? ==> p.status == "Active"
    ensures u.status.Some? ==> p.status == u.status.value
    ensures p.createdAt == u.createdAt
  {
    PageUser(u.userId.GetOr(u.id.GetOr(fallbackId)), u.firstName.GetOr(""), u.lastName.GetOr(""),
             u.email.GetOr(""), u.role.GetOr("Agent"), u.status.GetOr("Active"), u.createdAt)
  }

  /** The search test: the lower-cased term occurs in the lower-cased first
      name, last name, email or id. */
  predicate Matches(u: PageUser, term: string) {
    var t := Ascii.ToLower(term);
    Ascii.Contains(Ascii.ToLower(u.firstName), t) || Ascii.Contains(Ascii.ToLower(u.lastName), t)
    || Ascii.Contains(Ascii.ToLower(u.email), t) || Ascii.Contains(Ascii.ToLower(u.userId), t)
  }

  /** `filteredUsers`: the users that match, in list order. */
  function FilterUsers(users: seq<PageUser>, term: string): (r: seq<PageUser>)
    ensures |r| <= |users|
    ensures forall u :: u in r <==> u in users && Matches(u, term)
  {
    if users == [] then []
    else
      var rest := FilterUsers(users[1..], term);
      if Matches(users[0], term) then [users[0]] + rest else rest
  }

  /** Filtering keeps the list's order and its repeats: it distributes over
      concatenation, so the result is the matching users in their own order. */
  lemma {:induction false} FilterUsersAppend(a: seq<PageUser>, b: seq<PageUser>, term: string)
    ensures FilterUsers(a + b, term) == FilterUsers(a, term) + FilterUsers(b, term)
  {
    if a == [] {
      assert a + b == b;
    } else {
      assert (a + b)[1..] == a[1..] + b;
      FilterUsersAppend(a[1..], b, term);
    }
  }

  /** An empty search term lists every user. */
  lemma {:induction false} EmptyTermListsEveryone(users: seq<PageUser>)
    ensures FilterUsers(users, "") == users
  {
    if users != [] {
      Ascii.EmptyIsContained(Ascii.ToLower(users[0].firstName));
      EmptyTermListsEveryone(users[1..]);
    }
  }

  /** Searching is case-insensitive: terms that differ only in case list the
      same users. */
  lemma {:induction false} SearchIgnoresCase(users: seq<PageUser>, a: string, b: string)
    requires Ascii.EqualsIgnoreCase(a, b)
    ensures FilterUsers(users, a) == FilterUsers(users, b)
  {
    if users != [] {
      SearchIgnoresCase(users[1..], a, b);
    }
  }

  /** The local create guard: an Admin choosing the Admin role is refused
      before any request is sent; nothing else is checked here. */
  predicate CreateRefusedLocally(currentUserRole: string, requestedRole: string): (b: bool)
    ensures b <==> currentUserRole == UserDomain.RoleName(UserDomain.Admin)
                   && requestedRole == UserDomain.RoleName(UserDomain.Admin)
  {
    currentUserRole == "Admin" && requestedRole == "Admin"
  }

  /** The local guard and the staff service's creation gate refuse opposite
      cases: the page alone stops an Admin from creating an Admin, which the
      service would accept, and the page lets a SuperAdmin ask for an Admin,
      which the service refuses. */
  lemma LocalGuardOpposesServiceGate()
    ensures CreateRefusedLocally("Admin", "Admin")
    ensures UserController.CreateGate(UserDomain.GroupAuthority("Admin"), UserDomain.Admin).None?
    ensures !CreateRefusedLocally("SuperAdmin", "Admin")
    ensures UserController.CreateGate(UserDomain.GroupAuthority("SuperAdmin"), UserDomain.Admin).Some?
  {
    assert UserDomain.GroupAuthority("Admin") == "ROLE_ADMIN";
    assert UserDomain.GroupAuthority("SuperAdmin") == "ROLE_SUPERADMIN";
  }

  /** The guard lets through every pair except Admin creating Admin; in
      particular a page that could not read the stored role acts as "Agent"
      and may send a request for an Admin. */
  lemma CreateGuardCases()
    ensures CreateRefusedLocally("Admin", "Admin")
    ensures !CreateRefusedLocally("SuperAdmin", "Admin")
    ensures !CreateRefusedLocally(CurrentUserRole(None), "Admin")
    ensures !CreateRefusedLocally("Admin", "Agent")
  {
  }

  /** The edit form. */
  datatype EditForm = EditForm(firstName: string, lastName: string, email: string, role: string, password: string)

  /** The update payload the page hands to the client: role always, password
      only when it is non-empty. */
  function UpdatePayloadOf(f: EditForm): (p: UserApi.UpdatePayload)
    ensures p.firstName == f.firstName && p.lastName == f.lastName && p.email == f.email
    ensures p.role == Some(f.role)
    ensures p.password.Some? <==> f.password != ""
    ensures p.password.Some? ==> p.password.value == f.password
  {
    UserApi.UpdatePayload(f.firstName, f.lastName, f.email,
                          if f.password != "" then Some(f.password) else None, Some(f.role))
  }

  /** End to end, the request body carries a password exactly when the form's
      password is non-empty, and a role exactly when the form's role is. */
  lemma UpdateRequestFields(f: EditForm)
    ensures var body := UserApi.UpdateBody(UpdatePayloadOf(f));
      ("password" in body <==> f.password != "") && ("role" in body <==> f.role != "")
      && ("password" in body ==> body["password"] == f.password)
  {
  }

  /** The list after a successful update: the users with the edited id take
      the form's names, email and role; every other user is kept. */
  function ApplyLocalUpdate(users: seq<PageUser>, id: string, p: UserApi.UpdatePayload): (r: seq<PageUser>)
    ensures |r| == |users|
    ensures forall i :: 0 <= i < |users| ==>
      if users[i].userId == id then
        r[i] == users[i].(firstName := p.firstName, lastName := p.lastName, email := p.email,
                          role := p.role.GetOr(users[i].role))
      else r[i] == users[i]
  {
    if users == [] then []
    else
      var u := users[0];
      var head := if u.userId == id then u.(firstName := p.firstName, lastName := p.lastName, email := p.email,
                                            role := p.role.GetOr(u.role))
                  else u;
      [head] + ApplyLocalUpdate(users[1..], id, p)
  }

  /** The list after a successful delete: exactly the users with that id
      are removed, and the others keep their order. */
  function RemoveUser(users: seq<PageUser>, id: string): (r: seq<PageUser>)
    ensures forall u :: u in r <==> u in users && u.userId != id
    ensures |r| <= |users|
    ensures (forall u :: u in users ==> u.userId != id) ==> r == users
  {
    if users == [] then []
    else
      var rest := RemoveUser(users[1..], id);
      if users[0].userId != id then [users[0]] + rest else rest
  }

  /** Removing keeps the others' order and their repeats: it distributes over
      concatenation. */
  lemma {:induction false} RemoveUserAppend(a: seq<PageUser>, b: seq<PageUser>, id: string)
    ensures RemoveUser(a + b, id) == RemoveUser(a, id) + RemoveUser(b, id)
  {
    if a == [] {
      assert a + b == b;
    } else {
      assert (a + b)[1..] == a[1..] + b;
      RemoveUserAppend(a[1..], b, id);
    }
  }

  /** Removing twice is removing once. */
  lemma {:induction false} RemoveUserIdempotent(users: seq<PageUser>, id: string)
    ensures RemoveUser(RemoveUser(users, id), id) == RemoveUser(users, id)
  {
    var r := RemoveUser(users, id);
    assert forall u :: u in r ==> u.userId != id;
  }

  /** The form a failed update message belongs to. */
  datatype ErrorKey = FirstName | LastName | Email | Password | General

  /** `deriveValidationErrors`: the message goes to exactly one key, the first
      of "first", "last", "email" and "password" found in the lower-cased
      message, or to the general key. */
  function DeriveValidationErrors(message: string): (errors: map<ErrorKey, string>)
    ensures |errors| == 1 && errors.Values == {message}
    ensures var m := Ascii.ToLower(message);
      (FirstName in errors <==> Ascii.Contains(m, "first"))
      && (LastName in errors <==> !Ascii.Contains(m, "first") && Ascii.Contains(m, "last"))
      && (Email in errors <==> !Ascii.Contains(m, "first") && !Ascii.Contains(m, "last") && Ascii.Contains(m, "email"))
      && (Password in errors <==> !Ascii.Contains(m, "first") && !Ascii.Contains(m, "last")
                                  && !Ascii.Contains(m, "email") && Ascii.Contains(m, "password"))
      && (General in errors <==> !Ascii.Contains(m, "first") && !Ascii.Contains(m, "last")
                                 && !Ascii.Contains(m, "email") && !Ascii.Contains(m, "password"))
  {
    var m := Ascii.ToLower(message);
    var key := if Ascii.Contains(m, "first") then FirstName
               else if Ascii.Contains(m, "last") then LastName
               else if Ascii.Contains(m, "email") then Email
               else if Ascii.Contains(m, "password") then Password
               else General;
    map[key := message]
  }

  /** The fields of the create form. */
  datatype CreateForm = CreateForm(firstName: string, lastName: string, email: string, role: string)

  /** The user a successful create adds locally: each field from the reply
      when it is non-empty, otherwise from the form; the id falls back to
      `id` and then to a random value, the date to today. */
  function NormalizeCreated(created: ApiUser, form: CreateForm, fallbackId: string, today: string): (u: PageUser)
    ensures u.userId == (if Truthy(created.userId) then created.userId.value
                         else if Truthy(created.id) then created.id.value else fallbackId)
    ensures u.firstName == (if Truthy(created.firstName) then created.firstName.value else form.firstName)
    ensures u.lastName == (if Truthy(created.lastName) then created.lastName.value else form.lastName)
    ensures u.email == (if Truthy(created.email) then created.email.value else form.email)
    ensures u.role == (if Truthy(created.role) then created.role.value else form.role)
    ensures u.status == created.status.GetOr("Active")
    ensures u.createdAt == Some(if Truthy(created.createdAt) then created.createdAt.value else today)
  {
    PageUser(if Truthy(created.userId) then created.userId.value
             else if Truthy(created.id) then created.id.value else fallbackId,
             if Truthy(created.firstName) then created.firstName.value else form.firstName,
             if Truthy(created.lastName) then created.lastName.value else form.lastName,
             if Truthy(created.email) then created.email.value else form.email,
             if Truthy(created.role) then created.role.value else form.role,
             created.status.GetOr("Active"),
             Some(if Truthy(created.createdAt) then created.createdAt.value else today))
  }
}
