/**
 * The login handler: checks an e-mail and password against the stored user,
 * then issues an access and a refresh token and sets both as cookies.
 */
module LoginApi {
  import opened Wrappers
  import opened JsValues
  import opened Records
  import opened Http
  import opened Store
  import opened Helpers
  import opened ApiCommon
  import Config

  const UserMissing := Json(404, Message("Bad Request", "User doesn't exist."))
  const WrongPassword := Json(400, Message("Bad Request", "Wrong password."))

  function EmailOf(req: Request): Input { Validate(Field(req, "email"), EmailType, Defaults) }
  function PasswordOf(req: Request): Input { Validate(Field(req, "password"), StringType, Defaults) }

  /** `{email, password}` as `invalidFields` walks it. */
  function Credentials(req: Request): seq<(string, Input)> {
    [("email", EmailOf(req)), ("password", PasswordOf(req))]
  }

  /** The success answer: `{auth: true}` with both session cookies. */
  function Authorised(access: Token, refresh: Token, production: bool): Reply {
    Json(200, AuthBody(true)).(headers := Some(GenerateCookieHeader(access, refresh, production)))
  }

  /**
   * The answer and the token store after the credentials matched `user`:
   * some pair of fresh-looking tokens issued for the user was saved, access
   * first, and the answer carries their cookies (or the save's error).
   */
  ghost predicate SignedIn(o: Outcome, user: User, before: map<string, Token>, after: map<string, Token>, production: bool) {
    exists access: Token, refresh: Token ::
      && IssuedFor(access, user, Config.AccessTokenMaxAge) && IssuedFor(refresh, user, Config.RefreshTokenMaxAge)
      && IdShape(access.id, Num(Config.TokenIdLength as real)) && IdShape(refresh.id, Num(Config.TokenIdLength as real))
      && after == AfterTokenSaves(before, access, refresh).1
      && o == Settled(AfterTokenSaves(before, access, refresh).0, access, refresh, production)
  }

  /** What the handler settles to once the tokens are saved, or the save has failed. */
  function Settled(saved: Result<(), Reply>, access: Token, refresh: Token, production: bool): Outcome {
    match saved
    case Ok(_) => Returned(Authorised(access, refresh, production))
    case Err(e) => Threw(e)
  }

  /**
   * `post`: signs a user in. `hash` stands for the keyed SHA-256 digest of a
   * password; `production` selects the `Secure` cookie attribute.
   */
  method Post(db: Db, req: Request, hash: string -> string, production: bool) returns (o: Outcome)
    modifies db.tokens
    ensures !Truthy(EmailOf(req)) || !Truthy(PasswordOf(req)) ==>
      o == Returned(MissingFields(FalsyKeys(Credentials(req)))) && db.tokens.records == old(db.tokens.records)
    ensures Truthy(EmailOf(req)) && Truthy(PasswordOf(req)) && EmailOf(req).s !in db.users.records ==>
      o == Threw(UserMissing) && db.tokens.records == old(db.tokens.records)
    ensures Truthy(EmailOf(req)) && Truthy(PasswordOf(req)) && EmailOf(req).s in db.users.records ==>
      var user := db.users.records[EmailOf(req).s];
      if user.hashedPassword != hash(PasswordOf(req).s) then
        o == Returned(WrongPassword) && db.tokens.records == old(db.tokens.records)
      else
        SignedIn(o, user, old(db.tokens.records), db.tokens.records, production)
  {
    var email := EmailOf(req);
    var password := PasswordOf(req);
    if !Truthy(email) || !Truthy(password) {
      var invalid := InvalidFields(Credentials(req));
      return Returned(MissingFields(invalid));
    }
    o := Authenticate(db, email.s, hash(password.s), production);
  }

  /** The store part of `post`: the user must exist and its stored digest must equal `digest`. */
  method Authenticate(db: Db, email: string, digest: string, production: bool) returns (o: Outcome)
    modifies db.tokens
    ensures email !in db.users.records ==> o == Threw(UserMissing) && db.tokens.records == old(db.tokens.records)
    ensures email in db.users.records ==>
      var user := db.users.records[email];
      if user.hashedPassword != digest then
        o == Returned(WrongPassword) && db.tokens.records == old(db.tokens.records)
      else
        SignedIn(o, user, old(db.tokens.records), db.tokens.records, production)
  {
    var read := db.users.Read(email, Some(UserMissing));
    if read.Err? {
      return Threw(read.error);
    }
    var user := read.value;
    if user.hashedPassword != digest {
      return Returned(WrongPassword);
    }
    o := SignIn(db, user, production);
  }

  /** The success path of `post`: issues and saves the token pair for `user` and sets the cookies. */
  method SignIn(db: Db, user: User, production: bool) returns (o: Outcome)
    modifies db.tokens
    ensures SignedIn(o, user, old(db.tokens.records), db.tokens.records, production)
  {
    ghost var before := db.tokens.records;
    var access, refresh, saved := CreateTokens(db.tokens, user, Num(Config.TokenIdLength as real),
                                               Config.AccessTokenMaxAge, Config.RefreshTokenMaxAge);
    o := Settled(saved, access, refresh, production);
    assert db.tokens.records == AfterTokenSaves(before, access, refresh).1;
    assert o == Settled(AfterTokenSaves(before, access, refresh).0, access, refresh, production);
  }

  /**
   * A successful sign-in stores exactly two new tokens, both issued for the
   * user with the configured max-ages, and the answer's two cookies name
   * them: the first the access token, the second the refresh token.
   */
  lemma SignedInEffect(o: Outcome, user: User, before: map<string, Token>, after: map<string, Token>, production: bool)
    requires SignedIn(o, user, before, after, production)
    requires o.Returned?
    ensures before.Keys <= after.Keys && |after| == |before| + 2
    ensures forall k :: k in before ==> after[k] == before[k]
    ensures o.reply.status == Some(200) && o.reply.payload == Some(AuthBody(true))
    ensures o.reply.headers.Some? && "Set-Cookie" in o.reply.headers.value && |o.reply.headers.value["Set-Cookie"]| == 2
    ensures var cookies := o.reply.headers.value["Set-Cookie"];
      && ReadCookie(cookies[0]).Some? && ReadCookie(cookies[1]).Some?
      && var a := ReadCookie(cookies[0]).value;
         var r := ReadCookie(cookies[1]).value;
      && a.name == "access_token" && a.value in after && a.value !in before
      && IssuedFor(after[a.value], user, Config.AccessTokenMaxAge) && a.maxAge == Config.AccessTokenMaxAge
      && r.name == "refresh_token" && r.value in after && r.value !in before
      && IssuedFor(after[r.value], user, Config.RefreshTokenMaxAge) && r.maxAge == Config.RefreshTokenMaxAge
  {
    var access: Token, refresh: Token :|
      && IssuedFor(access, user, Config.AccessTokenMaxAge) && IssuedFor(refresh, user, Config.RefreshTokenMaxAge)
      && IdShape(access.id, Num(Config.TokenIdLength as real)) && IdShape(refresh.id, Num(Config.TokenIdLength as real))
      && after == AfterTokenSaves(before, access, refresh).1
      && o == Settled(AfterTokenSaves(before, access, refresh).0, access, refresh, production);
    assert AfterTokenSaves(before, access, refresh).0.Ok?;
    TokenSavesAddTwo(before, access, refresh);
    IdIsCookieSafe(access.id, Num(Config.TokenIdLength as real));
    IdIsCookieSafe(refresh.id, Num(Config.TokenIdLength as real));
    GeneratedCookiesRead(access, refresh, production);
  }
}
