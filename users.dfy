/** The user routes: the `ensureUserExists` helper (shared, with different
    error messages, by the payment routes), `POST /sync`,
    `POST /complete-profile` and the profile reads.

    Each route is a specification function from the user table (and the
    request and the inputs from outside) to the new table and the reply,
    and a method on the shared database that performs it. Row ids the
    database would generate are inputs with a freshness precondition. */
module UserRoutes {
  import opened Wrappers
  import opened Strings
  import opened Store

  type Users = map<RowId, User>

  /** What the identity provider returns for a user id: its email addresses
      in order, and its optional name and image fields. The `id` it carries
      is the one that was asked for. */
  datatype ClerkProfile = ClerkProfile(
    emails: seq<string>,
    firstName: Option<string>,
    lastName: Option<string>,
    imageUrl: Option<string>)

  /** `emailAddresses?.[0]?.emailAddress`. */
  function PrimaryEmail(p: ClerkProfile): (r: Option<string>)
    ensures r.Some? <==> p.emails != []
  {
    if p.emails == [] then None else Some(p.emails[0])
  }

  /** `${firstName || ''} ${lastName || ''}`.trim() */
  function DisplayName(first: Option<string>, last: Option<string>): string {
    Trim(OrEmpty(first) + " " + OrEmpty(last))
  }

  /** The row a stored user becomes when it is linked to the identity
      provider's account found by its email. */
  function Relinked(u: User, clerkUserId: string, p: ClerkProfile): User {
    u.(clerkUserId := Some(clerkUserId),
       fullName := Some(DisplayName(p.firstName, p.lastName)),
       firstName := Or(p.firstName, u.firstName),
       lastName := Or(p.lastName, u.lastName),
       imageUrl := Or(p.imageUrl, u.imageUrl))
  }

  /** The row created from the identity provider's profile. */
  function FromProfile(clerkUserId: string, email: string, p: ClerkProfile): User {
    User(Some(clerkUserId), email, Some(DisplayName(p.firstName, p.lastName)),
         Or(p.firstName, None), Or(p.lastName, None), Or(p.imageUrl, None),
         None, None, None, None, None)
  }

  /** `ensureUserExists(clerkUserId)`: the user table afterwards and the id of
      the user returned, or `None` when the helper throws. `profile` is the
      identity provider's answer (`None` when the lookup throws); `newId` is
      the id a created row gets. */
  ghost function EnsureUser(users: Users, clerkUserId: string, profile: Option<ClerkProfile>, newId: RowId)
    : (r: (Users, Option<RowId>))
    requires UniqueUsers(users) && newId !in users
    ensures UniqueUsers(r.0)
    ensures r.1.None? ==> r.0 == users
    ensures r.1.Some? ==> r.1.value in r.0
    ensures r.1.Some? ==>
      forall id :: id in r.0 ==> (r.0[id].clerkUserId == Some(clerkUserId) <==> id == r.1.value)
    ensures r.0.Keys == users.Keys || r.0.Keys == users.Keys + {newId}
  {
    match UserByClerkId(users, clerkUserId)
    case Some(id) => (users, Some(id))
    case None =>
      match profile
      case None => (users, None)
      case Some(p) =>
        var email := PrimaryEmail(p);
        if !Truthy(email) then (users, None)
        else
          match UserByEmail(users, email.value)
          case Some(id) => (users[id := Relinked(users[id], clerkUserId, p)], Some(id))
          case None => (users[newId := FromProfile(clerkUserId, email.value, p)], Some(newId))
  }

  /** A user already linked to the account is returned and nothing changes. */
  lemma EnsureUserExisting(users: Users, clerkUserId: string, profile: Option<ClerkProfile>, newId: RowId, id: RowId)
    requires UniqueUsers(users) && newId !in users
    requires id in users && users[id].clerkUserId == Some(clerkUserId)
    ensures EnsureUser(users, clerkUserId, profile, newId) == (users, Some(id))
  {
    UserByClerkIdUnique(users, clerkUserId, id);
  }

  /** With no linked user, a failed profile lookup or a profile without an
      email address makes the helper throw, and nothing changes. */
  lemma EnsureUserNoEmail(users: Users, clerkUserId: string, profile: Option<ClerkProfile>, newId: RowId)
    requires UniqueUsers(users) && newId !in users
    requires forall id :: id in users ==> users[id].clerkUserId != Some(clerkUserId)
    requires profile.None? || !Truthy(PrimaryEmail(profile.value))
    ensures EnsureUser(users, clerkUserId, profile, newId) == (users, None)
  {
  }

  /** With no linked user, a stored user holding the profile's email is
      relinked to the account: no row is added or removed, the row keeps its
      email, and every other row is unchanged. */
  lemma EnsureUserRelinks(users: Users, clerkUserId: string, p: ClerkProfile, newId: RowId, id: RowId)
    requires UniqueUsers(users) && newId !in users
    requires forall other :: other in users ==> users[other].clerkUserId != Some(clerkUserId)
    requires Truthy(PrimaryEmail(p))
    requires id in users && users[id].email == PrimaryEmail(p).value
    ensures var r := EnsureUser(users, clerkUserId, Some(p), newId);
      && r.1 == Some(id)
      && r.0.Keys == users.Keys && |r.0| == |users|
      && r.0[id].clerkUserId == Some(clerkUserId)
      && r.0[id].email == users[id].email
      && (forall other :: other in users && other != id ==> r.0[other] == users[other])
  {
    UserByEmailUnique(users, PrimaryEmail(p).value, id);
  }

  /** With neither a linked user nor one holding the profile's email, exactly
      one user is created, with that account id and email. */
  lemma EnsureUserCreates(users: Users, clerkUserId: string, p: ClerkProfile, newId: RowId)
    requires UniqueUsers(users) && newId !in users
    requires forall id :: id in users ==> users[id].clerkUserId != Some(clerkUserId)
    requires Truthy(PrimaryEmail(p))
    requires forall id :: id in users ==> users[id].email != PrimaryEmail(p).value
    ensures var r := EnsureUser(users, clerkUserId, Some(p), newId);
      && r.1 == Some(newId)
      && r.0.Keys == users.Keys + {newId} && |r.0| == |users| + 1
      && r.0[newId].clerkUserId == Some(clerkUserId)
      && r.0[newId].email == PrimaryEmail(p).value
      && (forall id :: id in users ==> r.0[id] == users[id])
  {
    var email := PrimaryEmail(p).value;
    assert UserByClerkId(users, clerkUserId).None?;
    assert UserByEmail(users, email).None?;
    assert EnsureUser(users, clerkUserId, Some(p), newId) == (users[newId := FromProfile(clerkUserId, email, p)], Some(newId));
  }

  /** Running the helper again after it succeeded returns the same user and
      changes nothing. */
  lemma EnsureUserIdempotent(users: Users, clerkUserId: string, profile: Option<ClerkProfile>, newId: RowId,
                             profile2: Option<ClerkProfile>, newId2: RowId)
    requires UniqueUsers(users) && newId !in users
    requires EnsureUser(users, clerkUserId, profile, newId).1.Some?
    requires newId2 !in EnsureUser(users, clerkUserId, profile, newId).0
    ensures var r := EnsureUser(users, clerkUserId, profile, newId);
      EnsureUser(r.0, clerkUserId, profile2, newId2) == r
  {
    var r := EnsureUser(users, clerkUserId, profile, newId);
    EnsureUserExisting(r.0, clerkUserId, profile2, newId2, r.1.value);
  }

  /** The helper on the shared database. */
  method EnsureUserExists(db: Database, clerkUserId: string, profile: Option<ClerkProfile>, newId: RowId)
    returns (r: Option<RowId>)
    requires db.Valid() && newId !in db.users
    modifies db`users
    ensures db.Valid()
    ensures (db.users, r) == EnsureUser(old(db.users), clerkUserId, profile, newId)
  {
    r := db.FindUserByClerkId(clerkUserId);
    if r.Some? {
      return;
    }
    if profile.None? {
      return;
    }
    var p := profile.value;
    var email := PrimaryEmail(p);
    if !Truthy(email) {
      return;
    }
    var byEmail := db.FindUserByEmail(email.value);
    ghost var users := db.users;
    assert EnsureUser(users, clerkUserId, profile, newId) ==
      match byEmail
      case Some(id) => (users[id := Relinked(users[id], clerkUserId, p)], Some(id))
      case None => (users[newId := FromProfile(clerkUserId, email.value, p)], Some(newId));
    if byEmail.Some? {
      var id := byEmail.value;
      db.users := db.users[id := Relinked(db.users[id], clerkUserId, p)];
      r := Some(id);
    } else {
      db.users := db.users[newId := FromProfile(clerkUserId, email.value, p)];
      r := Some(newId);
    }
  }

  // ---------------------------------------------------------------------
  // POST /sync

  /** The body of `POST /sync`; absent fields are `None`. */
  datatype SyncRequest = SyncRequest(
    clerkUserId: Option<string>,
    email: Option<string>,
    fullName: Option<string>,
    firstName: Option<string>,
    lastName: Option<string>,
    imageUrl: Option<string>)

  /** Two rows that cannot both be stored under the unique constraints. */
  predicate Clashes(a: User, b: User) {
    a.email == b.email || (a.clerkUserId.Some? && a.clerkUserId == b.clerkUserId)
  }

  /** A row another request inserted between this request's lookups and its
      insert: a fresh id, distinct from `newId`, that the table can hold. */
  ghost predicate RaceOk(users: Users, newId: RowId, raced: Option<(RowId, User)>) {
    raced.Some? ==>
      raced.value.0 !in users && raced.value.0 != newId &&
      UniqueUsers(users[raced.value.0 := raced.value.1])
  }

  /** The row `/sync` relinks by email. */
  function SyncRelinked(u: User, clerkUserId: string, req: SyncRequest): User {
    u.(clerkUserId := Some(clerkUserId),
       fullName := Or(req.fullName, u.fullName),
       firstName := Or(req.firstName, u.firstName),
       lastName := Or(req.lastName, u.lastName),
       imageUrl := Or(req.imageUrl, u.imageUrl))
  }

  /** The row `/sync` creates. */
  function SyncCreated(clerkUserId: string, email: string, req: SyncRequest): User {
    User(Some(clerkUserId), email, Or(req.fullName, None), Or(req.firstName, None),
         Or(req.lastName, None), Or(req.imageUrl, None), None, None, None, None, None)
  }

  /** `POST /sync`: the new user table, the reply and the id of the user in
      the reply. `raced` is a row inserted concurrently just before this
      request's insert (`None` when there is none). */
  ghost function Sync(users: Users, req: SyncRequest, newId: RowId, raced: Option<(RowId, User)>)
    : (r: (Users, Reply, Option<RowId>))
    requires UniqueUsers(users) && newId !in users && RaceOk(users, newId, raced)
    ensures UniqueUsers(r.0)
    ensures r.2.Some? <==> r.1.code in {200, 201}
    ensures r.2.Some? ==> r.2.value in r.0
    ensures r.1.code == 400 <==> !Truthy(req.clerkUserId) || !Truthy(req.email)
    ensures r.1.code == 400 ==> r.0 == users
    ensures r.1.code == 500 ==> r.0 == (if raced.Some? then users[raced.value.0 := raced.value.1] else users)
  {
    if !Truthy(req.clerkUserId) || !Truthy(req.email) then
      (users, Reply(400, "clerkUserId and email are required"), None)
    else
      var clerkUserId, email := req.clerkUserId.value, req.email.value;
      match UserByClerkId(users, clerkUserId)
      case Some(id) => (users, Reply(200, "User already exists"), Some(id))
      case None =>
        match UserByEmail(users, email)
        case Some(id) =>
          (users[id := SyncRelinked(users[id], clerkUserId, req)], Reply(200, "User updated successfully"), Some(id))
        case None => SyncInsert(users, clerkUserId, email, req, newId, raced)
  }

  /** The insert of `POST /sync`, once neither lookup found a user: a row
      that raced in and clashes makes the insert fail with a unique
      violation, answered by reading the row by email once more. */
  ghost function SyncInsert(users: Users, clerkUserId: string, email: string, req: SyncRequest, newId: RowId,
                            raced: Option<(RowId, User)>) : (r: (Users, Reply, Option<RowId>))
    requires UniqueUsers(users) && newId !in users && RaceOk(users, newId, raced)
    requires forall id :: id in users ==> users[id].clerkUserId != Some(clerkUserId) && users[id].email != email
    ensures UniqueUsers(r.0)
    ensures r.2.Some? <==> r.1.code in {200, 201}
    ensures r.2.Some? ==> r.2.value in r.0
    ensures r.1.code != 400
    ensures r.1.code == 500 ==> r.0 == (if raced.Some? then users[raced.value.0 := raced.value.1] else users)
  {
    var created := SyncCreated(clerkUserId, email, req);
    var before := if raced.Some? then users[raced.value.0 := raced.value.1] else users;
    if raced.Some? && Clashes(raced.value.1, created) then
      match UserByEmail(before, email)
      case Some(id) => (before, Reply(200, "User already exists"), Some(id))
      case None => (before, Reply(500, DbErrorMessage), None)
    else
      (before[newId := created], Reply(201, "User created successfully"), Some(newId))
  }

  /** `POST /sync` on the shared database. */
  method SyncUser(db: Database, req: SyncRequest, newId: RowId, raced: Option<(RowId, User)>)
    returns (reply: Reply, user: Option<RowId>)
    requires db.Valid() && newId !in db.users && RaceOk(db.users, newId, raced)
    modifies db`users
    ensures db.Valid()
    ensures (db.users, reply, user) == Sync(old(db.users), req, newId, raced)
  {
    if !Truthy(req.clerkUserId) || !Truthy(req.email) {
      return Reply(400, "clerkUserId and email are required"), None;
    }
    var clerkUserId, email := req.clerkUserId.value, req.email.value;
    user := db.FindUserByClerkId(clerkUserId);
    if user.Some? {
      return Reply(200, "User already exists"), user;
    }
    user := db.FindUserByEmail(email);
    if user.Some? {
      var id := user.value;
      db.users := db.users[id := SyncRelinked(db.users[id], clerkUserId, req)];
      return Reply(200, "User updated successfully"), user;
    }
    reply, user := InsertSynced(db, clerkUserId, email, req, newId, raced);
  }

  /** The insert of `POST /sync` on the shared database. */
  method InsertSynced(db: Database, clerkUserId: string, email: string, req: SyncRequest, newId: RowId,
                      raced: Option<(RowId, User)>) returns (reply: Reply, user: Option<RowId>)
    requires db.Valid() && newId !in db.users && RaceOk(db.users, newId, raced)
    requires forall id :: id in db.users ==> db.users[id].clerkUserId != Some(clerkUserId) && db.users[id].email != email
    modifies db`users
    ensures db.Valid()
    ensures (db.users, reply, user) == SyncInsert(old(db.users), clerkUserId, email, req, newId, raced)
  {
    var created := SyncCreated(clerkUserId, email, req);
    if raced.Some? {
      db.users := db.users[raced.value.0 := raced.value.1];
    }
    if raced.Some? && Clashes(raced.value.1, created) {
      // P2002: read the row by email once more.
      user := db.FindUserByEmail(email);
      if user.Some? {
        reply := Reply(200, "User already exists");
      } else {
        reply := Reply(500, DbErrorMessage);
      }
    } else {
      db.users := db.users[newId := created];
      reply, user := Reply(201, "User created successfully"), Some(newId);
    }
  }

  /** A request without an account id or an email is refused with 400 and
      changes nothing. */
  lemma SyncRequiresIds(users: Users, req: SyncRequest, newId: RowId, raced: Option<(RowId, User)>)
    requires UniqueUsers(users) && newId !in users && RaceOk(users, newId, raced)
    requires !Truthy(req.clerkUserId) || !Truthy(req.email)
    ensures Sync(users, req, newId, raced) == (users, Reply(400, "clerkUserId and email are required"), None)
  {
  }

  /** A user already linked to the account is returned unchanged. */
  lemma SyncExisting(users: Users, req: SyncRequest, newId: RowId, raced: Option<(RowId, User)>, id: RowId)
    requires UniqueUsers(users) && newId !in users && RaceOk(users, newId, raced)
    requires Truthy(req.clerkUserId) && Truthy(req.email)
    requires id in users && users[id].clerkUserId == req.clerkUserId
    ensures Sync(users, req, newId, raced) == (users, Reply(200, "User already exists"), Some(id))
  {
    UserByClerkIdUnique(users, req.clerkUserId.value, id);
  }

  /** A user found by email is relinked to the account; each name and image
      field takes the request's value when that is non-empty and keeps its
      stored value otherwise, and no other row changes. */
  lemma SyncRelinks(users: Users, req: SyncRequest, newId: RowId, raced: Option<(RowId, User)>, id: RowId)
    requires UniqueUsers(users) && newId !in users && RaceOk(users, newId, raced)
    requires Truthy(req.clerkUserId) && Truthy(req.email)
    requires forall other :: other in users ==> users[other].clerkUserId != req.clerkUserId
    requires id in users && users[id].email == req.email.value
    ensures var (users', reply, user) := Sync(users, req, newId, raced);
      && reply == Reply(200, "User updated successfully") && user == Some(id)
      && users'.Keys == users.Keys
      && users'[id].clerkUserId == req.clerkUserId
      && users'[id].email == users[id].email
      && (!Truthy(req.fullName) ==> users'[id].fullName == users[id].fullName)
      && (!Truthy(req.firstName) ==> users'[id].firstName == users[id].firstName)
      && (!Truthy(req.lastName) ==> users'[id].lastName == users[id].lastName)
      && (!Truthy(req.imageUrl) ==> users'[id].imageUrl == users[id].imageUrl)
      && (Truthy(req.fullName) ==> users'[id].fullName == req.fullName)
      && (Truthy(req.firstName) ==> users'[id].firstName == req.firstName)
      && (Truthy(req.lastName) ==> users'[id].lastName == req.lastName)
      && (Truthy(req.imageUrl) ==> users'[id].imageUrl == req.imageUrl)
      && (forall other :: other in users && other != id ==> users'[other] == users[other])
  {
    UserByEmailUnique(users, req.email.value, id);
  }

  /** A new account and email with no concurrent insert create exactly one
      user (201). */
  lemma SyncCreates(users: Users, req: SyncRequest, newId: RowId)
    requires UniqueUsers(users) && newId !in users
    requires Truthy(req.clerkUserId) && Truthy(req.email)
    requires forall id :: id in users ==> users[id].clerkUserId != req.clerkUserId
    requires forall id :: id in users ==> users[id].email != req.email.value
    ensures var (users', reply, user) := Sync(users, req, newId, None);
      && reply == Reply(201, "User created successfully") && user == Some(newId)
      && users'.Keys == users.Keys + {newId} && |users'| == |users| + 1
      && users'[newId].clerkUserId == req.clerkUserId
      && users'[newId].email == req.email.value
      && (forall id :: id in users ==> users'[id] == users[id])
  {
    var clerkUserId, email := req.clerkUserId.value, req.email.value;
    assert UserByClerkId(users, clerkUserId).None?;
    assert UserByEmail(users, email).None?;
    var created := SyncCreated(clerkUserId, email, req);
    assert SyncInsert(users, clerkUserId, email, req, newId, None) == (users[newId := created], Reply(201, "User created successfully"), Some(newId));
  }

  /** When a concurrent request inserted the same email first, the insert's
      unique violation is answered with 200 and that row, and this request
      adds no row of its own. */
  lemma SyncRaceFallback(users: Users, req: SyncRequest, newId: RowId, rid: RowId, ru: User)
    requires UniqueUsers(users) && newId !in users && RaceOk(users, newId, Some((rid, ru)))
    requires Truthy(req.clerkUserId) && Truthy(req.email)
    requires forall id :: id in users ==> users[id].clerkUserId != req.clerkUserId
    requires forall id :: id in users ==> users[id].email != req.email.value
    requires ru.email == req.email.value
    ensures Sync(users, req, newId, Some((rid, ru))) ==
      (users[rid := ru], Reply(200, "User already exists"), Some(rid))
  {
    UserByEmailUnique(users[rid := ru], req.email.value, rid);
  }

  /** When the concurrent insert took only the account id, the re-read by
      email finds nothing and the request fails with 500. */
  lemma SyncRaceOnAccountId(users: Users, req: SyncRequest, newId: RowId, rid: RowId, ru: User)
    requires UniqueUsers(users) && newId !in users && RaceOk(users, newId, Some((rid, ru)))
    requires Truthy(req.clerkUserId) && Truthy(req.email)
    requires forall id :: id in users ==> users[id].clerkUserId != req.clerkUserId
    requires forall id :: id in users ==> users[id].email != req.email.value
    requires ru.email != req.email.value && ru.clerkUserId == req.clerkUserId
    ensures Sync(users, req, newId, Some((rid, ru))) ==
      (users[rid := ru], Reply(500, DbErrorMessage), None)
  {
  }

  // ---------------------------------------------------------------------
  // POST /complete-profile and the profile check

  /** The body of `POST /complete-profile`; absent fields are `None`. */
  datatype ProfileRequest = ProfileRequest(
    clerkUserId: Option<string>,
    email: Option<string>,
    fullName: Option<string>,
    firstName: Option<string>,
    lastName: Option<string>,
    imageUrl: Option<string>,
    phone: Option<string>,
    college: Option<string>,
    yearOfStudy: Option<string>,
    rollNumber: Option<string>,
    branch: Option<string>)

  /** The college whose students must also give a branch and a roll number. */
  const Tcet: string := "Thakur College of Engineering and Technology"

  /** The check of `GET /check-profile`: phone, college and year of study
      are filled in, and branch and roll number too for the college above. */
  predicate IsComplete(u: User) {
    && Truthy(u.phone) && Truthy(u.college) && Truthy(u.yearOfStudy)
    && (u.college == Some(Tcet) ==> Truthy(u.branch) && Truthy(u.rollNumber))
  }

  /** The validation of `POST /complete-profile`: `None` when the request
      passes, the 400 reply otherwise. */
  function ValidateProfile(req: ProfileRequest): (r: Option<Reply>)
    ensures r.Some? ==> r.value.code == 400
    ensures r.None? <==>
      && Truthy(req.clerkUserId) && Truthy(req.email)
      && Truthy(req.phone) && Truthy(req.college) && Truthy(req.yearOfStudy)
      && (req.college == Some(Tcet) ==> Truthy(req.branch) && Truthy(req.rollNumber))
  {
    if !Truthy(req.clerkUserId) || !Truthy(req.email) then
      Some(Reply(400, "clerkUserId and email are required"))
    else if !Truthy(req.phone) || !Truthy(req.college) || !Truthy(req.yearOfStudy) then
      Some(Reply(400, "phone, college, and yearOfStudy are required"))
    else if req.college == Some(Tcet) && (!Truthy(req.branch) || !Truthy(req.rollNumber)) then
      Some(Reply(400, "branch and rollNumber are required for TCET students"))
    else None
  }

  /** The stored row after the update of an existing user; every profile
      field is taken from the request (`|| null` for the optional ones). */
  function ProfileUpdated(u: User, req: ProfileRequest): User
    requires req.email.Some?
  {
    u.(phone := req.phone, college := req.college, yearOfStudy := req.yearOfStudy,
       rollNumber := Or(req.rollNumber, None), branch := Or(req.branch, None),
       email := req.email.value,
       fullName := Or(req.fullName, None), firstName := Or(req.firstName, None),
       lastName := Or(req.lastName, None), imageUrl := Or(req.imageUrl, None))
  }

  /** Some row other than `id` holds `email`. */
  ghost predicate EmailTaken(users: Users, email: string, id: Option<RowId>) {
    exists other :: other in users && Some(other) != id && users[other].email == email
  }

  /** `POST /complete-profile`: the new table, the reply and the id of the
      user it completed. A change that would give two rows the same email is
      refused by the unique constraint (500, nothing changes). */
  ghost function CompleteProfile(users: Users, req: ProfileRequest, newId: RowId)
    : (r: (Users, Reply, Option<RowId>))
    requires UniqueUsers(users) && newId !in users
    ensures UniqueUsers(r.0)
    ensures r.2.Some? <==> r.1.code == 200
    ensures r.2.None? ==> r.0 == users
    ensures r.2.Some? ==> r.2.value in r.0 && r.0[r.2.value].clerkUserId == req.clerkUserId
  {
    match ValidateProfile(req)
    case Some(bad) => (users, bad, None)
    case None =>
      var clerkUserId, email := req.clerkUserId.value, req.email.value;
      match UserByClerkId(users, clerkUserId)
      case Some(id) =>
        if EmailTaken(users, email, Some(id)) then (users, Reply(500, DbErrorMessage), None)
        else (users[id := ProfileUpdated(users[id], req)], Reply(200, "Profile completed successfully"), Some(id))
      case None =>
        if EmailTaken(users, email, None) then (users, Reply(500, DbErrorMessage), None)
        else
          var created := User(Some(clerkUserId), email, None, None, None, None, None, None, None, None, None);
          (users[newId := ProfileUpdated(created, req)], Reply(200, "Profile completed successfully"), Some(newId))
  }

  /** Every profile `/complete-profile` accepts passes the check of
      `/check-profile`. */
  lemma CompletedProfileIsComplete(users: Users, req: ProfileRequest, newId: RowId)
    requires UniqueUsers(users) && newId !in users
    ensures var (users', reply, user) := CompleteProfile(users, req, newId);
      user.Some? ==> IsComplete(users'[user.value])
  {
  }

  /** A request missing a required field is refused with 400 and changes
      nothing. */
  lemma CompleteProfileRejects(users: Users, req: ProfileRequest, newId: RowId)
    requires UniqueUsers(users) && newId !in users
    requires ValidateProfile(req).Some?
    ensures var (users', reply, user) := CompleteProfile(users, req, newId);
      users' == users && reply.code == 400 && user.None?
  {
  }

  /** `POST /complete-profile` on the shared database. */
  method CompleteUserProfile(db: Database, req: ProfileRequest, newId: RowId)
    returns (reply: Reply, user: Option<RowId>)
    requires db.Valid() && newId !in db.users
    modifies db`users
    ensures db.Valid()
    ensures (db.users, reply, user) == CompleteProfile(old(db.users), req, newId)
  {
    var bad := ValidateProfile(req);
    if bad.Some? {
      return bad.value, None;
    }
    var clerkUserId, email := req.clerkUserId.value, req.email.value;
    user := db.FindUserByClerkId(clerkUserId);
    var taken := db.FindUserByEmail(email);
    if taken.Some? && taken != user {
      return Reply(500, DbErrorMessage), None;
    }
    if user.Some? {
      db.users := db.users[user.value := ProfileUpdated(db.users[user.value], req)];
    } else {
      var created := User(Some(clerkUserId), email, None, None, None, None, None, None, None, None, None);
      db.users := db.users[newId := ProfileUpdated(created, req)];
      user := Some(newId);
    }
    reply := Reply(200, "Profile completed successfully");
  }

  /** The answer of `GET /check-profile`: the reply, `isComplete` and
      `exists`. */
  datatype ProfileCheck = ProfileCheck(reply: Reply, isComplete: bool, userExists: bool)

  /** `GET /check-profile/:clerkUserId`: the helper's table and the answer.
      The helper throws instead of returning nothing, so the "User not found"
      branch is never taken. */
  ghost function CheckProfile(users: Users, clerkUserId: string, profile: Option<ClerkProfile>, newId: RowId)
    : (r: (Users, ProfileCheck))
    requires UniqueUsers(users) && newId !in users
    ensures r.1.reply.code in {200, 500}
    ensures r.1.userExists <==> r.1.reply.code == 200
    ensures r.1.isComplete ==> r.1.userExists
    ensures var (u, found) := EnsureUser(users, clerkUserId, profile, newId);
      && r.0 == u
      && (r.1.userExists <==> found.Some?)
      && (found.Some? ==> r.1.isComplete == IsComplete(u[found.value]))
  {
    var (users', found) := EnsureUser(users, clerkUserId, profile, newId);
    match found
    case None => (users', ProfileCheck(Reply(500, "User not found and could not be created"), false, false))
    case Some(id) => (users', ProfileCheck(Reply(200, "Profile check completed"), IsComplete(users'[id]), true))
  }

  /** After `/complete-profile` succeeded, checking the same account reports
      a complete profile and changes nothing. */
  lemma CompleteThenCheck(users: Users, req: ProfileRequest, newId: RowId, profile: Option<ClerkProfile>, newId2: RowId)
    requires UniqueUsers(users) && newId !in users
    requires CompleteProfile(users, req, newId).2.Some?
    requires newId2 !in CompleteProfile(users, req, newId).0
    ensures var users' := CompleteProfile(users, req, newId).0;
      CheckProfile(users', req.clerkUserId.value, profile, newId2) ==
        (users', ProfileCheck(Reply(200, "Profile check completed"), true, true))
  {
    var (users', reply, user) := CompleteProfile(users, req, newId);
    CompletedProfileIsComplete(users, req, newId);
    EnsureUserExisting(users', req.clerkUserId.value, profile, newId2, user.value);
  }

  /** `GET /check-profile/:clerkUserId` on the shared database. */
  method CheckUserProfile(db: Database, clerkUserId: string, profile: Option<ClerkProfile>, newId: RowId)
    returns (check: ProfileCheck)
    requires db.Valid() && newId !in db.users
    modifies db`users
    ensures db.Valid()
    ensures (db.users, check) == CheckProfile(old(db.users), clerkUserId, profile, newId)
  {
    var found := EnsureUserExists(db, clerkUserId, profile, newId);
    if found.None? {
      return ProfileCheck(Reply(500, "User not found and could not be created"), false, false);
    }
    check := ProfileCheck(Reply(200, "Profile check completed"), IsComplete(db.users[found.value]), true);
  }
}
