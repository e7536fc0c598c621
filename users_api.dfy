/**
 * The users handler: show the signed-in user, register a user (with a
 * payment-provider customer), change a user's fields (moving the record
 * when the e-mail changes) and delete an account.
 */
module UsersApi {
  import opened Wrappers
  import opened Text
  import opened JsValues
  import opened Records
  import opened Http
  import opened Store
  import opened Helpers
  import opened ApiCommon

  const EmailTaken := Json(400, Message("Validation", "A user with that email already exists."))
  const HashFailed := Json(500, Message("Internal", "Could not hash the user's password."))
  const CreateFailed := Json(500, Message("Internal", "Could not create the user."))
  const UpdateFailed := Json(500, Message("Internal", "Could not update the user."))
  const MissingEmail := Json(400, Message("Validation", "Missing /:email"))
  const NotYours := Json(401, Message("Bad request", "You cannot delete others' account."))
  const DeleteFailed := Json(500, Message("Internal", "Could not delete the user."))

  /** The registration report; unlike the other handlers' it ends without a full stop. */
  function MissingUserFields(invalid: seq<string>): Reply {
    Json(400, Message("Validation", "Missing or invalid required fields: " + Join(invalid, ", ")))
  }

  function NothingToUpdate(invalid: seq<string>): Reply {
    Json(400, Message("Validation", "At leat one of them must be updated: " + Join(invalid, ", ")))
  }

  /** The four user fields of a request body, validated. */
  datatype UserFields = UserFields(name: Input, email: Input, streetAddress: Input, password: Input) {
    predicate Any() { Truthy(name) || Truthy(email) || Truthy(streetAddress) || Truthy(password) }
    predicate All() { Truthy(name) && Truthy(email) && Truthy(streetAddress) && Truthy(password) }
  }

  function FieldsOf(req: Request): UserFields {
    UserFields(Validate(Field(req, "name"), StringType, Defaults), Validate(Field(req, "email"), EmailType, Defaults),
               Validate(Field(req, "street_address"), StringType, Defaults), Validate(Field(req, "password"), StringType, Defaults))
  }

  /** `{name, email, street_address, password}` as `invalidFields` walks it. */
  function Entries(f: UserFields): seq<(string, Input)> {
    [("name", f.name), ("email", f.email), ("street_address", f.streetAddress), ("password", f.password)]
  }

  /** `get`: the signed-in user's record without its password hash. */
  method Get(db: Db, req: Request) returns (o: Outcome)
    ensures req.token.None? ==> o == Threw(RuntimeError("TypeError"))
    ensures req.token.Some? && Owner(req) !in db.users.records ==> o == Threw(NoEntry)
    ensures req.token.Some? && Owner(req) in db.users.records ==>
      o == Returned(Json(200, UserBody(Public(db.users.records[Owner(req)]))))
  {
    if req.token.None? {
      return Threw(RuntimeError("TypeError"));
    }
    var read := db.users.Read(Owner(req), None);
    match read
    case Ok(user) => o := Returned(Json(200, UserBody(Public(user))));
    case Err(e) => o := Threw(e);
  }

  /** The record `post` stores: the validated fields, the password's hash and the new customer's id. */
  function Registered(req: Request, hash: string -> string, customer: StripeReply): User
    requires FieldsOf(req).All()
  {
    var f := FieldsOf(req);
    User(f.name.s, f.email.s, hash(f.password.s), f.streetAddress.s, ReplyId(customer), None)
  }

  /**
   * `post`: registers a user under its e-mail. `hash` stands for the keyed
   * SHA-256 digest; `customer` is what the payment provider's customer
   * creation resolves to.
   */
  method Post(db: Db, req: Request, hash: string -> string, customer: StripeReply) returns (o: Outcome)
    modifies db.users
    ensures !FieldsOf(req).All() ==>
      o == Returned(MissingUserFields(FalsyKeys(Entries(FieldsOf(req))))) && db.users.records == old(db.users.records)
    ensures FieldsOf(req).All() && FieldsOf(req).email.s in old(db.users.records) ==>
      o == Returned(EmailTaken) && db.users.records == old(db.users.records)
    ensures FieldsOf(req).All() && FieldsOf(req).email.s !in old(db.users.records) ==>
      if hash(FieldsOf(req).password.s) == "" then
        o == Returned(HashFailed) && db.users.records == old(db.users.records)
      else if customer.Transport? then
        o == Returned(CreateFailed) && db.users.records == old(db.users.records)
      else
        var user := Registered(req, hash, customer);
        o == Returned(Json(201, UserBody(Public(user))))
        && db.users.records == old(db.users.records)[FieldsOf(req).email.s := user]
  {
    var f := FieldsOf(req);
    if !f.All() {
      var invalid := InvalidFields(Entries(f));
      return Returned(MissingUserFields(invalid));
    }
    var existing := db.users.Read(f.email.s, None);
    if existing.Ok? {
      return Returned(EmailTaken);
    }
    var hashedPassword := hash(f.password.s);
    if hashedPassword == "" {
      return Returned(HashFailed);
    }
    if customer.Transport? {
      return Returned(CreateFailed);
    }
    var user := User(f.name.s, f.email.s, hashedPassword, f.streetAddress.s, ReplyId(customer), None);
    var created := db.users.Create(f.email.s, user, None);
    match created
    case Ok(_) => o := Returned(Json(201, UserBody(Public(user))));
    case Err(e) => o := Threw(e);
  }

  /** Whether `put` moves the record: a valid e-mail other than the session's. */
  predicate Rekeys(f: UserFields, owner: string) {
    Truthy(f.email) && f.email.Str? && f.email.s != owner
  }

  /** The record after `put`'s changes: each valid field replaces the stored one, the password by its hash. */
  function Changed(user: User, f: UserFields, owner: string, hash: string -> string): User {
    user.(name := if Truthy(f.name) && f.name.Str? then f.name.s else user.name,
          streetAddress := if Truthy(f.streetAddress) && f.streetAddress.Str? then f.streetAddress.s else user.streetAddress,
          email := if Rekeys(f, owner) then f.email.s else user.email,
          hashedPassword := if Truthy(f.password) && f.password.Str? then hash(f.password.s) else user.hashedPassword)
  }

  /**
   * Only the given fields change; the customer and card ids never do; the
   * stored password is the hash of the given one; changing twice is
   * changing once.
   */
  lemma ChangedEffect(user: User, req: Request, owner: string, hash: string -> string)
    ensures var f := FieldsOf(req);
      var u := Changed(user, f, owner, hash);
      && u.stripeCustomerId == user.stripeCustomerId && u.stripeCardId == user.stripeCardId
      && (Truthy(f.name) ==> u.name == f.name.s) && (!Truthy(f.name) ==> u.name == user.name)
      && (Truthy(f.streetAddress) ==> u.streetAddress == f.streetAddress.s)
      && (!Truthy(f.streetAddress) ==> u.streetAddress == user.streetAddress)
      && (Truthy(f.password) ==> u.hashedPassword == hash(f.password.s))
      && (!Truthy(f.password) ==> u.hashedPassword == user.hashedPassword)
      && (Rekeys(f, owner) ==> u.email == f.email.s) && (!Rekeys(f, owner) ==> u.email == user.email)
      && Changed(u, f, owner, hash) == u
  {
  }

  /** `put`'s report when no field is valid: `invalidFields` then names all four. */
  method ReportNone(f: UserFields) returns (invalid: seq<string>)
    requires !f.Any()
    ensures invalid == ["name", "email", "street_address", "password"]
  {
    invalid := InvalidFields(Entries(f));
    FalsyKeysFour("name", f.name, "email", f.email, "street_address", f.streetAddress, "password", f.password);
  }

  /** `put`'s field-by-field changes to the record it read. */
  method Edit(read: User, f: UserFields, owner: string, hash: string -> string) returns (user: User)
    requires Truthy(f.name) ==> f.name.Str?
    requires Truthy(f.streetAddress) ==> f.streetAddress.Str?
    requires Truthy(f.password) ==> f.password.Str?
    ensures user == Changed(read, f, owner, hash)
  {
    user := read;
    if Truthy(f.name) {
      user := user.(name := f.name.s);
    }
    if Truthy(f.streetAddress) {
      user := user.(streetAddress := f.streetAddress.s);
    }
    if Rekeys(f, owner) {
      user := user.(email := f.email.s);
    }
    if Truthy(f.password) {
      user := user.(hashedPassword := hash(f.password.s));
    }
  }

  /**
   * The answer and the stores after a `put` with at least one valid field:
   * without a session it throws; without a stored record it rejects with
   * `ENOENT`; with the same e-mail the record is replaced in place; with a
   * new one it is moved.
   */
  ghost predicate Changes(o: Outcome, users: map<string, User>, tokens: map<string, Token>,
                          users': map<string, User>, tokens': map<string, Token>,
                          req: Request, hash: string -> string, update: StripeReply) {
    if req.token.None? then
      o == Threw(RuntimeError("TypeError")) && users' == users && tokens' == tokens
    else if Owner(req) !in users then
      o == Threw(NoEntry) && users' == users && tokens' == tokens
    else
      var user := Changed(users[Owner(req)], FieldsOf(req), Owner(req), hash);
      if !Rekeys(FieldsOf(req), Owner(req)) then
        o == Returned(Json(200, UserBody(Public(user)))) && users' == users[Owner(req) := user] && tokens' == tokens
      else
        Moved(o, users, tokens, users', tokens', Owner(req), FieldsOf(req).email.s, user, req.token.value, update)
  }

  /**
   * `put`: changes the signed-in user's fields. With a new e-mail the
   * record is created under it first; after the provider accepts the
   * change the session's token is re-pointed and the old record removed.
   */
  method Put(db: Db, req: Request, hash: string -> string, update: StripeReply) returns (o: Outcome)
    modifies db.users, db.tokens
    ensures !FieldsOf(req).Any() ==>
      o == Returned(NothingToUpdate(["name", "email", "street_address", "password"]))
      && db.users.records == old(db.users.records) && db.tokens.records == old(db.tokens.records)
    ensures FieldsOf(req).Any() ==>
      Changes(o, old(db.users.records), old(db.tokens.records), db.users.records, db.tokens.records, req, hash, update)
  {
    var f := FieldsOf(req);
    if !f.Any() {
      var invalid := ReportNone(f);
      return Returned(NothingToUpdate(invalid));
    }
    o := Change(db, req, hash, update);
  }

  /** The part of `put` after the check that some field is valid. */
  method Change(db: Db, req: Request, hash: string -> string, update: StripeReply) returns (o: Outcome)
    modifies db.users, db.tokens
    ensures Changes(o, old(db.users.records), old(db.tokens.records), db.users.records, db.tokens.records, req, hash, update)
  {
    var f := FieldsOf(req);
    if req.token.None? {
      return Threw(RuntimeError("TypeError"));
    }
    var owner := Owner(req);
    var read := db.users.Read(owner, None);
    if read.Err? {
      return Threw(read.error);
    }
    var user := Edit(read.value, f, owner, hash);
    if Rekeys(f, owner) {
      o := Move(db, owner, f.email.s, user, req.token.value, update);
      return;
    }
    var saved := db.users.Update(owner, user, None);
    match saved
    case Ok(_) => o := Returned(Json(200, UserBody(Public(user))));
    case Err(e) => o := Threw(e);
  }

  /**
   * The answer and the stores after `put`'s move of a user from `owner` to
   * `email`: refused if the new key is taken; left half-done (both records
   * stored) if the provider fails or the session's token is gone; otherwise
   * the token is re-pointed and the old record removed.
   */
  ghost predicate Moved(o: Outcome, users: map<string, User>, tokens: map<string, Token>,
                        users': map<string, User>, tokens': map<string, Token>,
                        owner: string, email: string, user: User, session: Session, update: StripeReply) {
    if email in users then
      o == Threw(AlreadyExists) && users' == users && tokens' == tokens
    else if update.Transport? then
      o == Returned(UpdateFailed) && users' == users[email := user] && tokens' == tokens
    else if session.tokenId !in tokens then
      o == Threw(NoEntry) && users' == users[email := user] && tokens' == tokens
    else
      o == Returned(Json(200, UserBody(Public(user))))
      && users' == users[email := user] - {owner}
      && tokens' == tokens[session.tokenId := session.token.(email := email)]
  }

  /**
   * The move of `put`: creates the record under the new e-mail, then, once
   * the provider has accepted the change, re-points the session's token and
   * removes the record under the old e-mail.
   */
  method Move(db: Db, owner: string, email: string, user: User, session: Session, update: StripeReply) returns (o: Outcome)
    requires owner in db.users.records && owner != email
    modifies db.users, db.tokens
    ensures Moved(o, old(db.users.records), old(db.tokens.records), db.users.records, db.tokens.records,
                  owner, email, user, session, update)
  {
    var created := db.users.Create(email, user, None);
    if created.Err? {
      return Threw(created.error);
    }
    if update.Transport? {
      return Returned(UpdateFailed);
    }
    var repointed := db.tokens.Update(session.tokenId, session.token.(email := email), None);
    if repointed.Err? {
      return Threw(repointed.error);
    }
    var removed := db.users.Delete(owner, None);
    match removed
    case Ok(_) => o := Returned(Json(200, UserBody(Public(user))));
    case Err(e) => o := Threw(e);
  }

  /**
   * A completed move keeps the number of users: the record leaves the old
   * key and appears under the new one, and every other user stays put.
   */
  lemma RekeyKeepsOthers(before: map<string, User>, owner: string, email: string, user: User)
    requires owner in before && email !in before
    ensures var after := before[email := user] - {owner};
      && after.Keys == before.Keys - {owner} + {email}
      && |after| == |before|
      && after[email] == user
      && forall k :: k in before && k != owner ==> after[k] == before[k]
  {
    var mid := before[email := user];
    assert mid.Keys == before.Keys + {email};
    assert |mid| == |before| + 1;
    var after := mid - {owner};
    assert after.Keys == mid.Keys - {owner};
    assert |after| == |mid| - 1;
  }

  /** What `delete`'s three store deletions leave, in order carts, tokens, users; the first failure stops the rest. */
  function Removal(carts: map<string, Cart>, tokens: map<string, Token>, users: map<string, User>,
                   owner: string, tokenId: string): (Result<(), Reply>, map<string, Cart>, map<string, Token>, map<string, User>)
  {
    if owner !in carts then (Err(DeleteFailed), carts, tokens, users)
    else if tokenId !in tokens then (Err(DeleteFailed), carts - {owner}, tokens, users)
    else if owner !in users then (Err(DeleteFailed), carts - {owner}, tokens - {tokenId}, users)
    else (Ok(()), carts - {owner}, tokens - {tokenId}, users - {owner})
  }

  /**
   * The removal succeeds exactly when all three records exist, and then
   * removes those three and nothing else; an account without a cart keeps
   * its token and its user record.
   */
  lemma RemovalEffect(carts: map<string, Cart>, tokens: map<string, Token>, users: map<string, User>,
                      owner: string, tokenId: string)
    ensures var (r, c, t, u) := Removal(carts, tokens, users, owner, tokenId);
      && (r.Ok? <==> owner in carts && tokenId in tokens && owner in users)
      && (r.Ok? ==> |c| == |carts| - 1 && |t| == |tokens| - 1 && |u| == |users| - 1)
      && c.Keys <= carts.Keys && t.Keys <= tokens.Keys && u.Keys <= users.Keys
      && (owner !in carts ==> t == tokens && u == users)
      && (r.Err? ==> u == users)
  {
  }

  /** `delete`'s three store deletions, each with the 500 error object. */
  method RemoveAccount(db: Db, owner: string, tokenId: string) returns (r: Result<(), Reply>)
    modifies db.users, db.tokens, db.carts
    ensures (r, db.carts.records, db.tokens.records, db.users.records)
         == Removal(old(db.carts.records), old(db.tokens.records), old(db.users.records), owner, tokenId)
  {
    r := db.carts.Delete(owner, Some(DeleteFailed));
    if r.Err? {
      return;
    }
    r := db.tokens.Delete(tokenId, Some(DeleteFailed));
    if r.Err? {
      return;
    }
    r := db.users.Delete(owner, Some(DeleteFailed));
  }

  /** The answer to a `delete` whose checks passed, once the removal has run. */
  function Closed(r: Result<(), Reply>, production: bool): Outcome {
    match r
    case Ok(_) => Returned(Json(204, Empty).(headers := Some(DeleteCookieHeader(production))))
    case Err(e) => Threw(e)
  }

  /** `delete /:email`: deletes the provider's customer, then the session owner's cart, token and user records. */
  method Delete(db: Db, req: Request, deletion: StripeReply, production: bool) returns (o: Outcome)
    modifies db.users, db.tokens, db.carts
    ensures var email := Validate(Slug(req, 1), EmailType, Defaults);
      var stored := old(db.users.records);
      if !Truthy(email) || email.s !in stored || stored[email.s].email != email.s
         || !(deletion.Delivered? && deletion.deleted) || req.token.None? then
        && db.users.records == old(db.users.records) && db.tokens.records == old(db.tokens.records)
        && db.carts.records == old(db.carts.records)
        && o == (if !Truthy(email) then Returned(MissingEmail)
                 else if email.s !in stored then Threw(NoEntry)
                 else if stored[email.s].email != email.s then Returned(NotYours)
                 else if !(deletion.Delivered? && deletion.deleted) then Returned(DeleteFailed)
                 else Threw(RuntimeError("TypeError")))
      else
        var removal := Removal(old(db.carts.records), old(db.tokens.records), stored, Owner(req), req.token.value.tokenId);
        && (db.carts.records, db.tokens.records, db.users.records) == (removal.1, removal.2, removal.3)
        && o == Closed(removal.0, production)
  {
    var email := Validate(Slug(req, 1), EmailType, Defaults);
    if !Truthy(email) {
      return Returned(MissingEmail);
    }
    var read := db.users.Read(email.s, None);
    if read.Err? {
      return Threw(read.error);
    }
    if read.value.email != email.s {
      return Returned(NotYours);
    }
    if !(deletion.Delivered? && deletion.deleted) {
      return Returned(DeleteFailed);
    }
    if req.token.None? {
      return Threw(RuntimeError("TypeError"));
    }
    var r := RemoveAccount(db, Owner(req), req.token.value.tokenId);
    o := Closed(r, production);
  }
}
