/** The identity provider's lifecycle webhook (`POST /webhooks/clerk`):
    two gates (a configured secret and the three svix headers), a signature
    verification whose outcome is an input, and then `user.created`,
    `user.updated` or `user.deleted` on the user table. */
module ClerkWebhook {
  import opened Wrappers
  import opened Strings
  import opened Store
  import opened UserRoutes

  /** The three svix headers of the request; absent ones are `None`. */
  datatype SvixHeaders = SvixHeaders(id: Option<string>, timestamp: Option<string>, signature: Option<string>)

  /** The verified event: its type and the fields of `data` the handler
      reads. */
  datatype ClerkEvent = ClerkEvent(
    kind: string,
    id: string,
    emails: seq<string>,
    firstName: Option<string>,
    lastName: Option<string>,
    imageUrl: Option<string>)

  /** `email_addresses?.[0]?.email_address || ''`. */
  function EventEmail(ev: ClerkEvent): (r: string)
    ensures ev.emails != [] ==> r == ev.emails[0]
    ensures ev.emails == [] ==> r == ""
  {
    if ev.emails == [] then "" else ev.emails[0]
  }

  /** `...(x && { field: x })`: a value only when it is non-empty. */
  function IfNonEmpty(s: Option<string>): (r: Option<string>)
    ensures Truthy(s) ==> r == s
    ensures !Truthy(s) ==> r.None?
  {
    if Truthy(s) then s else None
  }

  /** The row `user.created` inserts; fields left out of the data are
      `null`. */
  function CreatedRow(ev: ClerkEvent): User {
    var fullName := DisplayName(ev.firstName, ev.lastName);
    User(Some(ev.id), EventEmail(ev), IfNonEmpty(Some(fullName)),
         IfNonEmpty(ev.firstName), IfNonEmpty(ev.lastName), IfNonEmpty(ev.imageUrl),
         None, None, None, None, None)
  }

  /** A row after `user.updated`: the email is always written, the name and
      image fields only when the event's value is non-empty. */
  function UpdatedRow(u: User, ev: ClerkEvent): User {
    var fullName := DisplayName(ev.firstName, ev.lastName);
    u.(email := EventEmail(ev),
       fullName := Or(Some(fullName), u.fullName),
       firstName := Or(ev.firstName, u.firstName),
       lastName := Or(ev.lastName, u.lastName),
       imageUrl := Or(ev.imageUrl, u.imageUrl))
  }

  /** The row is linked to the event's account. */
  predicate Linked(u: User, ev: ClerkEvent) {
    u.clerkUserId == Some(ev.id)
  }

  /** `updateMany` over the rows linked to the account. */
  function UpdateLinked(users: Users, ev: ClerkEvent): (r: Users)
    ensures r.Keys == users.Keys
  {
    map k | k in users :: if Linked(users[k], ev) then UpdatedRow(users[k], ev) else users[k]
  }

  /** `deleteMany` over the rows linked to the account. */
  function DeleteLinked(users: Users, ev: ClerkEvent): (r: Users)
    ensures forall k :: k in r <==> k in users && !Linked(users[k], ev)
  {
    map k | k in users && !Linked(users[k], ev) :: users[k]
  }

  /** Inserting the created row would break a unique constraint. */
  ghost predicate CreateClashes(users: Users, ev: ClerkEvent) {
    exists k :: k in users && Clashes(users[k], CreatedRow(ev))
  }

  /** Writing the event's email into the linked row would give two rows the
      same email. */
  ghost predicate UpdateClashes(users: Users, ev: ClerkEvent) {
    exists k, o :: k in users && o in users && k != o && Linked(users[k], ev) &&
      users[o].email == EventEmail(ev)
  }

  lemma UpdateLinkedUnique(users: Users, ev: ClerkEvent)
    requires UniqueUsers(users) && !UpdateClashes(users, ev)
    ensures UniqueUsers(UpdateLinked(users, ev))
  {
    var r := UpdateLinked(users, ev);
    forall a, b | a in r && b in r && a != b
      ensures r[a].email != r[b].email
      ensures r[a].clerkUserId.Some? ==> r[a].clerkUserId != r[b].clerkUserId
    {
      if Linked(users[a], ev) {
        assert !(Linked(users[b], ev));
      } else if Linked(users[b], ev) {
      }
    }
  }

  /** The handler: the user table afterwards and the reply. `secret` is the
      configured secret (`""` when unset), `verified` the event the
      signature verification returned (`None` when it threw), `newId` the id
      an inserted row gets. A unique violation is answered with 500 and
      changes nothing. */
  ghost function Handle(users: Users, secret: string, headers: SvixHeaders, verified: Option<ClerkEvent>, newId: RowId)
    : (r: (Users, Reply))
    requires UniqueUsers(users) && newId !in users
    ensures UniqueUsers(r.0)
    ensures r.1.code != 200 ==> r.0 == users
    ensures r.1.code in {200, 400, 500}
  {
    if secret == "" then (users, Reply(500, "CLERK_WEBHOOK_SECRET is not set"))
    else if !Truthy(headers.id) || !Truthy(headers.timestamp) || !Truthy(headers.signature) then
      (users, Reply(400, "Missing svix headers"))
    else
      match verified
      case None => (users, Reply(400, "Webhook verification failed"))
      case Some(ev) =>
        if ev.kind == "user.created" then
          if CreateClashes(users, ev) then (users, Reply(500, "Internal server error"))
          else (users[newId := CreatedRow(ev)], Reply(200, "success"))
        else if ev.kind == "user.updated" then
          if UpdateClashes(users, ev) then (users, Reply(500, "Internal server error"))
          else
            UpdateLinkedUnique(users, ev);
            (UpdateLinked(users, ev), Reply(200, "success"))
        else if ev.kind == "user.deleted" then
          (DeleteLinked(users, ev), Reply(200, "success"))
        else (users, Reply(200, "success"))
  }

  /** The handler on the shared database. */
  method HandleClerkEvent(db: Database, secret: string, headers: SvixHeaders, verified: Option<ClerkEvent>, newId: RowId)
    returns (reply: Reply)
    requires db.Valid() && newId !in db.users
    modifies db`users
    ensures db.Valid()
    ensures (db.users, reply) == Handle(old(db.users), secret, headers, verified, newId)
  {
    if secret == "" {
      return Reply(500, "CLERK_WEBHOOK_SECRET is not set");
    }
    if !Truthy(headers.id) || !Truthy(headers.timestamp) || !Truthy(headers.signature) {
      return Reply(400, "Missing svix headers");
    }
    if verified.None? {
      return Reply(400, "Webhook verification failed");
    }
    var ev := verified.value;
    if ev.kind == "user.created" {
      var row := CreatedRow(ev);
      if exists k :: k in db.users && Clashes(db.users[k], row) {
        return Reply(500, "Internal server error");
      }
      db.users := db.users[newId := row];
    } else if ev.kind == "user.updated" {
      if exists k, o :: k in db.users && o in db.users && k != o && Linked(db.users[k], ev) &&
                        db.users[o].email == EventEmail(ev) {
        return Reply(500, "Internal server error");
      }
      UpdateLinkedUnique(db.users, ev);
      db.users := UpdateLinked(db.users, ev);
    } else if ev.kind == "user.deleted" {
      db.users := DeleteLinked(db.users, ev);
    }
    reply := Reply(200, "success");
  }

  /** Without a configured secret the handler answers 500 and changes
      nothing. */
  lemma NoSecretRejects(users: Users, headers: SvixHeaders, verified: Option<ClerkEvent>, newId: RowId)
    requires UniqueUsers(users) && newId !in users
    ensures Handle(users, "", headers, verified, newId) == (users, Reply(500, "CLERK_WEBHOOK_SECRET is not set"))
  {
  }

  /** A missing svix header gives 400 and changes nothing. */
  lemma MissingHeaderRejects(users: Users, secret: string, headers: SvixHeaders, verified: Option<ClerkEvent>, newId: RowId)
    requires UniqueUsers(users) && newId !in users
    requires secret != ""
    requires !Truthy(headers.id) || !Truthy(headers.timestamp) || !Truthy(headers.signature)
    ensures Handle(users, secret, headers, verified, newId) == (users, Reply(400, "Missing svix headers"))
  {
  }

  /** A failed verification gives 400 and changes nothing. */
  lemma UnverifiedRejects(users: Users, secret: string, headers: SvixHeaders, newId: RowId)
    requires UniqueUsers(users) && newId !in users
    requires secret != ""
    requires Truthy(headers.id) && Truthy(headers.timestamp) && Truthy(headers.signature)
    ensures Handle(users, secret, headers, None, newId) == (users, Reply(400, "Webhook verification failed"))
  {
  }

  /** Both gates pass and the event verified. */
  predicate Admitted(secret: string, headers: SvixHeaders, verified: Option<ClerkEvent>) {
    secret != "" && Truthy(headers.id) && Truthy(headers.timestamp) && Truthy(headers.signature) &&
    verified.Some?
  }

  /** `user.created` inserts exactly one row, linked to the event's account,
      holding its first email (or `""`), with the name and image fields set
      only when non-empty and the profile fields empty. */
  lemma CreatedInsertsOne(users: Users, secret: string, headers: SvixHeaders, ev: ClerkEvent, newId: RowId)
    requires UniqueUsers(users) && newId !in users
    requires Admitted(secret, headers, Some(ev)) && ev.kind == "user.created"
    requires !CreateClashes(users, ev)
    ensures var (users', reply) := Handle(users, secret, headers, Some(ev), newId);
      && reply.code == 200
      && users'.Keys == users.Keys + {newId} && |users'| == |users| + 1
      && (forall k :: k in users ==> users'[k] == users[k])
      && users'[newId].clerkUserId == Some(ev.id)
      && users'[newId].email == EventEmail(ev)
      && (users'[newId].firstName.Some? <==> Truthy(ev.firstName))
      && (users'[newId].lastName.Some? <==> Truthy(ev.lastName))
      && (users'[newId].imageUrl.Some? <==> Truthy(ev.imageUrl))
      && users'[newId] == CreatedRow(ev)
      && users'[newId].fullName == IfNonEmpty(Some(DisplayName(ev.firstName, ev.lastName)))
      && users'[newId].firstName == IfNonEmpty(ev.firstName)
      && users'[newId].lastName == IfNonEmpty(ev.lastName)
      && users'[newId].imageUrl == IfNonEmpty(ev.imageUrl)
      && users'[newId].phone.None? && users'[newId].college.None? && users'[newId].yearOfStudy.None?
      && users'[newId].rollNumber.None? && users'[newId].branch.None?
  {
  }

  /** `user.updated` touches only the rows linked to the event's account;
      on those the email is always overwritten, each name and image field
      is written exactly when the event's value is non-empty, and the
      profile fields are kept. */
  lemma UpdatedTouchesLinkedOnly(users: Users, secret: string, headers: SvixHeaders, ev: ClerkEvent, newId: RowId)
    requires UniqueUsers(users) && newId !in users
    requires Admitted(secret, headers, Some(ev)) && ev.kind == "user.updated"
    requires !UpdateClashes(users, ev)
    ensures var (users', reply) := Handle(users, secret, headers, Some(ev), newId);
      && reply.code == 200
      && users'.Keys == users.Keys
      && (forall k :: k in users && !Linked(users[k], ev) ==> users'[k] == users[k])
      && (forall k :: k in users && Linked(users[k], ev) ==>
            && users'[k].email == EventEmail(ev)
            && users'[k].clerkUserId == users[k].clerkUserId
            && (Truthy(ev.firstName) ==> users'[k].firstName == ev.firstName)
            && (!Truthy(ev.firstName) ==> users'[k].firstName == users[k].firstName)
            && (Truthy(ev.lastName) ==> users'[k].lastName == ev.lastName)
            && (!Truthy(ev.lastName) ==> users'[k].lastName == users[k].lastName)
            && (Truthy(ev.imageUrl) ==> users'[k].imageUrl == ev.imageUrl)
            && (!Truthy(ev.imageUrl) ==> users'[k].imageUrl == users[k].imageUrl)
            && (DisplayName(ev.firstName, ev.lastName) != "" ==>
                  users'[k].fullName == Some(DisplayName(ev.firstName, ev.lastName)))
            && (DisplayName(ev.firstName, ev.lastName) == "" ==> users'[k].fullName == users[k].fullName)
            && users'[k].phone == users[k].phone && users'[k].college == users[k].college
            && users'[k].yearOfStudy == users[k].yearOfStudy && users'[k].rollNumber == users[k].rollNumber
            && users'[k].branch == users[k].branch)
  {
  }

  /** `user.deleted` removes exactly the rows linked to the event's account
      and leaves every other row as it was. */
  lemma DeletedRemovesLinked(users: Users, secret: string, headers: SvixHeaders, ev: ClerkEvent, newId: RowId)
    requires UniqueUsers(users) && newId !in users
    requires Admitted(secret, headers, Some(ev)) && ev.kind == "user.deleted"
    ensures var (users', reply) := Handle(users, secret, headers, Some(ev), newId);
      && reply.code == 200
      && (forall k :: k in users' <==> k in users && !Linked(users[k], ev))
      && (forall k :: k in users' ==> users'[k] == users[k])
  {
  }

  /** Any other event type is acknowledged and changes nothing. */
  lemma OtherEventIgnored(users: Users, secret: string, headers: SvixHeaders, ev: ClerkEvent, newId: RowId)
    requires UniqueUsers(users) && newId !in users
    requires Admitted(secret, headers, Some(ev))
    requires ev.kind !in {"user.created", "user.updated", "user.deleted"}
    ensures Handle(users, secret, headers, Some(ev), newId) == (users, Reply(200, "success"))
  {
  }

  /** Deleting an account right after it was created gives back the table
      as it was before the creation. */
  lemma CreateThenDelete(users: Users, secret: string, headers: SvixHeaders, created: ClerkEvent, deleted: ClerkEvent,
                         newId: RowId, newId2: RowId)
    requires UniqueUsers(users) && newId !in users
    requires Admitted(secret, headers, Some(created)) && created.kind == "user.created"
    requires !CreateClashes(users, created)
    requires deleted.kind == "user.deleted" && deleted.id == created.id
    requires newId2 !in Handle(users, secret, headers, Some(created), newId).0
    ensures var users' := Handle(users, secret, headers, Some(created), newId).0;
      Handle(users', secret, headers, Some(deleted), newId2).0 == users
  {
    var users' := Handle(users, secret, headers, Some(created), newId).0;
    var users'' := Handle(users', secret, headers, Some(deleted), newId2).0;
    forall k | k in users
      ensures !Linked(users[k], deleted)
    {
      assert !Clashes(users[k], CreatedRow(created));
    }
    assert users''.Keys == users.Keys;
  }
}
