/** The staff table and its two guarded write operations
    (repo/UserRepository.java). Each write checks, in order: the row exists,
    it is not Disabled, the caller strictly outranks its current role; only
    then is the row written. A failed database write reports FORBIDDEN. */
module UserRepository {
  import opened Wrappers
  import opened UserDomain

  const NOT_FOUND: int := 404
  const FORBIDDEN: int := 403

  /** The `Map.Entry<HttpStatus, String>` a guarded write returns on refusal. */
  datatype RepoError = RepoError(status: int, message: string)

  function NotFound(id: string): RepoError {
    RepoError(NOT_FOUND, "User " + id + " not found")
  }

  /** A partial update: a `User` whose null fields mean "keep". */
  datatype UserPatch = UserPatch(
    userId: string,
    firstName: Option<string>,
    lastName: Option<string>,
    email: Option<string>,
    role: Option<Role>)

  /** The result of a guarded write: the error it returns and the table after it. */
  datatype Outcome = Outcome(error: Option<RepoError>, rows: map<string, User>)

  /** Every row is stored under its own id. */
  ghost predicate KeyedById(rows: map<string, User>) {
    forall k :: k in rows ==> rows[k].userId == Some(k)
  }

  predicate IsLive(rows: map<string, User>, id: string) {
    id in rows && rows[id].userStatus == Active
  }

  /** `deleteById`: a soft delete that only flips the status to Disabled. */
  function DeleteOutcome(rows: map<string, User>, deleter: Role, id: string, dbAccepts: bool): (o: Outcome)
    ensures o.error == Some(NotFound(id)) <==> !IsLive(rows, id)
    ensures o.error == Some(RepoError(FORBIDDEN, "Not allowed to delete " + id)) <==>
              IsLive(rows, id) && (!Outranks(deleter, rows[id].role) || !dbAccepts)
    ensures o.error.None? <==> IsLive(rows, id) && Outranks(deleter, rows[id].role) && dbAccepts
    ensures o.error.None? ==> o.rows == rows[id := rows[id].(userStatus := Disabled)]
    ensures o.error.Some? ==> o.rows == rows
  {
    if id !in rows || rows[id].userStatus == Disabled then
      Outcome(Some(NotFound(id)), rows)
    else if CompareTo(deleter, rows[id].role) <= 0 then
      Outcome(Some(RepoError(FORBIDDEN, "Not allowed to delete " + id)), rows)
    else if !dbAccepts then
      Outcome(Some(RepoError(FORBIDDEN, "Not allowed to delete " + id)), rows)
    else
      Outcome(None, rows[id := rows[id].(userStatus := Disabled)])
  }

  /** The "no changes" short cut: every patch field is present and equal
      (Java's `equals` is false against a null patch field). */
  predicate NoChange(u: User, p: UserPatch) {
    p.firstName == Some(u.firstName) && p.lastName == Some(u.lastName)
    && p.email == Some(u.email) && p.role == Some(u.role)
  }

  /** The four conditional setters of `update`. */
  function ApplyPatch(u: User, p: UserPatch): (v: User)
    ensures v.userId == u.userId && v.userStatus == u.userStatus
  {
    u.(firstName := p.firstName.GetOr(u.firstName),
       lastName := p.lastName.GetOr(u.lastName),
       email := p.email.GetOr(u.email),
       role := p.role.GetOr(u.role))
  }

  /** `update`: the same gates as delete, then the no-change short cut, then
      the setters and the save. */
  function UpdateOutcome(rows: map<string, User>, updater: Role, p: UserPatch, dbAccepts: bool): (o: Outcome)
    ensures o.error == Some(NotFound(p.userId)) <==> !IsLive(rows, p.userId)
    ensures o.error == Some(RepoError(FORBIDDEN, "Not allowed to update " + p.userId)) <==>
              IsLive(rows, p.userId)
              && (!Outranks(updater, rows[p.userId].role) || (!NoChange(rows[p.userId], p) && !dbAccepts))
    ensures o.error.None? <==>
              IsLive(rows, p.userId) && Outranks(updater, rows[p.userId].role) && (NoChange(rows[p.userId], p) || dbAccepts)
    ensures o.error.None? ==> o.rows == (if NoChange(rows[p.userId], p) then rows
                                          else rows[p.userId := ApplyPatch(rows[p.userId], p)])
    ensures o.rows != rows ==> o.error.None? && o.rows == rows[p.userId := ApplyPatch(rows[p.userId], p)]
    ensures o.rows.Keys == rows.Keys
  {
    var id := p.userId;
    if id !in rows || rows[id].userStatus == Disabled then
      Outcome(Some(NotFound(id)), rows)
    else if CompareTo(updater, rows[id].role) <= 0 then
      Outcome(Some(RepoError(FORBIDDEN, "Not allowed to update " + id)), rows)
    else if NoChange(rows[id], p) then
      Outcome(None, rows)
    else if !dbAccepts then
      Outcome(Some(RepoError(FORBIDDEN, "Not allowed to update " + id)), rows)
    else
      Outcome(None, rows[id := ApplyPatch(rows[id], p)])
  }

  /** A patch that repeats the stored values takes the short cut and writes
      nothing; applying it would not change the row either. */
  lemma NoChangeIsIdentity(u: User, p: UserPatch)
    requires NoChange(u, p)
    ensures ApplyPatch(u, p) == u
  {
  }

  /** Applying a patch twice is the same as applying it once. */
  lemma ApplyPatchIdempotent(u: User, p: UserPatch)
    ensures ApplyPatch(ApplyPatch(u, p), p) == ApplyPatch(u, p)
  {
  }

  /** A null patch field keeps the stored value; a present one replaces it. */
  lemma ApplyPatchFieldwise(u: User, p: UserPatch)
    ensures var v := ApplyPatch(u, p);
      (p.firstName.None? ==> v.firstName == u.firstName)
      && (p.firstName.Some? ==> v.firstName == p.firstName.value)
      && (p.lastName.None? ==> v.lastName == u.lastName)
      && (p.lastName.Some? ==> v.lastName == p.lastName.value)
      && (p.email.None? ==> v.email == u.email)
      && (p.email.Some? ==> v.email == p.email.value)
      && (p.role.None? ==> v.role == u.role)
      && (p.role.Some? ==> v.role == p.role.value)
  {
  }

  /** A patch with a null field never takes the short cut, even when nothing
      would change: the row is saved again. */
  lemma NullFieldDefeatsShortCut(u: User, p: UserPatch)
    requires p.role.None?
    ensures !NoChange(u, p)
  {
  }

  /** Writes keep every row stored under its own id. */
  lemma {:induction false} OutcomesKeepKeys(rows: map<string, User>, r: Role, id: string, p: UserPatch, b: bool)
    requires KeyedById(rows)
    ensures KeyedById(DeleteOutcome(rows, r, id, b).rows)
    ensures KeyedById(UpdateOutcome(rows, r, p, b).rows)
  {
    var d := DeleteOutcome(rows, r, id, b).rows;
    forall k | k in d ensures d[k].userId == Some(k) {
      assert k in rows;
    }
    var u := UpdateOutcome(rows, r, p, b).rows;
    forall k | k in u ensures u[k].userId == Some(k) {
      assert k in rows;
    }
  }

  /** Disabled is final: once deleted, a row can be neither deleted again
      nor updated, and both report NOT_FOUND. */
  lemma {:induction false} DisabledIsFinal(rows: map<string, User>, r: Role, r2: Role, id: string, p: UserPatch, b: bool, b2: bool)
    requires DeleteOutcome(rows, r, id, b).error.None?
    requires p.userId == id
    ensures var after := DeleteOutcome(rows, r, id, b).rows;
      DeleteOutcome(after, r2, id, b2) == Outcome(Some(NotFound(id)), after)
      && UpdateOutcome(after, r2, p, b2) == Outcome(Some(NotFound(id)), after)
  {
  }

  /** Neither write ever succeeds for an Agent, nor against a SuperAdmin. */
  lemma RankGuardsWrites(rows: map<string, User>, r: Role, id: string, p: UserPatch, b: bool)
    ensures DeleteOutcome(rows, Agent, id, b).rows == rows
    ensures UpdateOutcome(rows, Agent, p, b).rows == rows
    ensures IsLive(rows, id) && rows[id].role == SuperAdmin ==> DeleteOutcome(rows, r, id, b).error.Some?
  {
  }

  /** The rank check looks at the stored role only: an Admin may set an
      Agent's role to SuperAdmin through `update`. */
  lemma UpdateDoesNotBoundNewRole(rows: map<string, User>, id: string, u: User)
    requires u.role == Agent && u.userStatus == Active && rows == map[id := u]
    ensures UpdateOutcome(rows, Admin, UserPatch(id, None, None, None, Some(SuperAdmin)), true).rows[id].role == SuperAdmin
  {
  }

  /** The `User` table, keyed by `userId`. */
  class UserStore {
    var rows: map<string, User>

    ghost predicate Valid()
      reads this
    {
      KeyedById(rows)
    }

    constructor ()
      ensures Valid() && rows == map[]
    {
      rows := map[];
    }

    /** `findById`: the row with that key, whatever its status. */
    method FindById(id: string) returns (r: Option<User>)
      ensures r.Some? <==> id in rows
      ensures r.Some? ==> r.value == rows[id]
    {
      if id in rows {
        r := Some(rows[id]);
      } else {
        r := None;
      }
    }

    /** `findByUserId`: the row with that id, only while it is Active. */
    method FindByUserId(userId: string) returns (r: Option<User>)
      requires Valid()
      ensures r.Some? <==> IsLive(rows, userId)
      ensures r.Some? ==> r.value.userId == Some(userId) && r.value.userStatus == Active && r.value in rows.Values
    {
      if IsLive(rows, userId) {
        r := Some(rows[userId]);
      } else {
        r := None;
      }
    }

    /** `findByEmail`: an Active row with that email, if there is one. */
    method FindByEmail(email: string) returns (r: Option<User>)
      ensures r.Some? <==> exists k :: k in rows && rows[k].email == email && rows[k].userStatus == Active
      ensures r.Some? ==> r.value in rows.Values && r.value.email == email && r.value.userStatus == Active
    {
      if exists k :: k in rows && rows[k].email == email && rows[k].userStatus == Active {
        var k :| k in rows && rows[k].email == email && rows[k].userStatus == Active;
        r := Some(rows[k]);
      } else {
        r := None;
      }
    }

    /** JPA `save`: insert or replace the row under the user's id. */
    method Save(u: User)
      requires Valid() && u.userId.Some?
      modifies this
      ensures Valid()
      ensures rows == old(rows)[u.userId.value := u]
    {
      rows := rows[u.userId.value := u];
    }

    method DeleteById(deleter: Role, id: string, dbAccepts: bool) returns (err: Option<RepoError>)
      requires Valid()
      modifies this
      ensures Valid()
      ensures Outcome(err, rows) == DeleteOutcome(old(rows), deleter, id, dbAccepts)
    {
      if id !in rows {
        return Some(NotFound(id));
      }
      var user := rows[id];
      if user.userStatus == Disabled {
        return Some(NotFound(id));
      }
      if CompareTo(deleter, user.role) <= 0 {
        return Some(RepoError(FORBIDDEN, "Not allowed to delete " + id));
      }
      user := user.(userStatus := Disabled);
      if !dbAccepts {
        return Some(RepoError(FORBIDDEN, "Not allowed to delete " + id));
      }
      rows := rows[id := user];
      OutcomesKeepKeys(old(rows), deleter, id, UserPatch(id, None, None, None, None), dbAccepts);
      err := None;
    }

    method Update(updater: Role, newUser: UserPatch, dbAccepts: bool) returns (err: Option<RepoError>)
      requires Valid()
      modifies this
      ensures Valid()
      ensures Outcome(err, rows) == UpdateOutcome(old(rows), updater, newUser, dbAccepts)
    {
      var id := newUser.userId;
      if id !in rows {
        return Some(NotFound(id));
      }
      var user := rows[id];
      if user.userStatus == Disabled {
        return Some(NotFound(id));
      }
      if CompareTo(updater, user.role) <= 0 {
        return Some(RepoError(FORBIDDEN, "Not allowed to update " + id));
      }
      if NoChange(user, newUser) {
        return None;
      }
      if newUser.firstName.Some? {
        user := user.(firstName := newUser.firstName.value);
      }
      if newUser.lastName.Some? {
        user := user.(lastName := newUser.lastName.value);
      }
      if newUser.email.Some? {
        user := user.(email := newUser.email.value);
      }
      if newUser.role.Some? {
        user := user.(role := newUser.role.value);
      }
      if !dbAccepts {
        return Some(RepoError(FORBIDDEN, "Not allowed to update " + id));
      }
      rows := rows[id := user];
      OutcomesKeepKeys(old(rows), updater, id, newUser, dbAccepts);
      err := None;
    }
  }
}
