/**
 * The card handler: the signed-in user's one payment card, kept at the
 * payment provider and referenced by the user record's card id.
 */
module CardApi {
  import opened Wrappers
  import opened Text
  import opened JsValues
  import opened Records
  import opened Http
  import opened Store
  import opened Helpers
  import opened ApiCommon

  /** `_stripe_tokens`: the provider's test card tokens `post` accepts. */
  const StripeTokens: seq<string> := [
    "tok_visa", "tok_visa_debit", "tok_mastercard", "tok_mastercard_debit", "tok_mastercard_prepaid",
    "tok_amex", "tok_discover", "tok_diners", "tok_jcb", "tok_unionpay"]

  /** The 500 answer of `get` and `post` when the provider call fails (its message says "user"). */
  const ProviderFailed := Json(500, Message("Internal", "Could not create the user."))
  const NoCard := Json(400, Message("Bad request", "You do not have any registered card."))
  const OneCardOnly := Json(400, Message("Bad request", "Only one card can be registered."))
  const NoCardToUpdate := Json(400, Message("Bad request", "You do not have any registered cards to update."))
  const UpdateFailed := Json(500, Message("Internal", "Could not update the card."))
  const MissingCardId := Json(400, Message("Validation", "Missing /:stripe_card_id"))
  const NotYourCard := Json(400, Message("Bad request", "You cannot delete others' card."))
  const DeleteFailed := Json(500, Message("Internal", "Could not delete the card."))

  /** The 400 answer for an unknown `stripe_token`, listing the accepted ones. */
  const InvalidToken := Json(400, Message("Validation",
    "Missing or invalid value for stripe_token. Valid values are: " + Join(StripeTokens, ", ") + "."))

  /** `put`'s 400 answer naming the fields of which at least one must be valid. */
  function NothingToUpdate(invalid: seq<string>): Reply {
    Json(400, Message("Validation", "At leat one of them must be updated: " + Join(invalid, ", ") + "."))
  }

  /** `{err: 'Bad request', ...res.error}`. */
  function Refused(e: StripeError): Payload { StripeErrorBody("Bad request", e) }

  /**
   * `get`: the first card the provider lists for the session's customer.
   * `listed` is what the provider's listing resolves to; an answer without
   * `data` makes `data.length` throw.
   */
  method Get(req: Request, listed: StripeReply) returns (o: Outcome)
    ensures req.token.None? ==> o == Threw(RuntimeError("TypeError"))
    ensures req.token.Some? && listed.Transport? ==> o == Returned(ProviderFailed)
    ensures req.token.Some? && !listed.Transport? ==>
      if !listed.Delivered? || listed.data.None? then o == Threw(RuntimeError("TypeError"))
      else if |listed.data.value| > 0 then o == Returned(Json(200, CardBody(listed.data.value[0])))
      else o == Returned(NoCard)
  {
    if req.token.None? {
      return Threw(RuntimeError("TypeError"));
    }
    if listed.Transport? {
      return Returned(ProviderFailed);
    }
    if !listed.Delivered? || listed.data.None? {
      return Threw(RuntimeError("TypeError"));
    }
    var data := listed.data.value;
    if |data| > 0 {
      o := Returned(Json(200, CardBody(data[0])));
    } else {
      o := Returned(NoCard);
    }
  }

  function TokenOf(req: Request): Input {
    Validate(Field(req, "stripe_token"), EnumType, Defaults.(enumArr := StripeTokens))
  }

  /**
   * `post`: registers a card from a test token when the user has none yet,
   * and stores the provider's card id in the user record. `created` is what
   * the provider's card creation resolves to.
   */
  method Post(db: Db, req: Request, created: StripeReply) returns (o: Outcome)
    modifies db.users
    ensures req.token.None? ==> o == Threw(RuntimeError("TypeError")) && db.users.records == old(db.users.records)
    ensures req.token.Some? && Owner(req) !in old(db.users.records) ==>
      o == Threw(NoEntry) && db.users.records == old(db.users.records)
    ensures req.token.Some? && Owner(req) in old(db.users.records) ==>
      var user := old(db.users.records)[Owner(req)];
      if HasCard(user) then o == Returned(OneCardOnly) && db.users.records == old(db.users.records)
      else if !Truthy(TokenOf(req)) then o == Returned(InvalidToken) && db.users.records == old(db.users.records)
      else if created.Transport? then o == Returned(ProviderFailed) && db.users.records == old(db.users.records)
      else if created.ApiError? then
        o == Returned(Bare(400, Refused(created.error))) && db.users.records == old(db.users.records)
      else
        var carded := user.(stripeCardId := created.id);
        o == Returned(Bare(201, UserBody(Public(carded))))
        && db.users.records == old(db.users.records)[Owner(req) := carded]
  {
    if req.token.None? {
      return Threw(RuntimeError("TypeError"));
    }
    var read := db.users.Read(Owner(req), None);
    if read.Err? {
      return Threw(read.error);
    }
    var user := read.value;
    if HasCard(user) {
      return Returned(OneCardOnly);
    }
    var token := TokenOf(req);
    if !Truthy(token) {
      return Returned(InvalidToken);
    }
    if created.Transport? {
      return Returned(ProviderFailed);
    }
    match created
    case ApiError(e) =>
      o := Returned(Bare(400, Refused(e)));
    case Delivered(id, _, _) =>
      user := user.(stripeCardId := id);
      var saved := db.users.Update(Owner(req), user, None);
      match saved
      case Ok(_) => o := Returned(Bare(201, UserBody(Public(user))));
      case Err(e) => o := Threw(e);
  }


  /** An accepted token is one of the ten test tokens, trimmed. */
  lemma TokenAccepted(req: Request)
    requires Truthy(TokenOf(req))
    ensures TokenOf(req).Str? && TokenOf(req).s in StripeTokens
    ensures Field(req, "stripe_token").Str? && Trim(Field(req, "stripe_token").s) == TokenOf(req).s
  {
  }

  /** The three card fields `put` may change, validated. */
  datatype CardFields = CardFields(name: Input, expMonth: Input, expYear: Input) {
    predicate Any() { Truthy(name) || Truthy(expMonth) || Truthy(expYear) }
  }

  function CardFieldsOf(req: Request): CardFields {
    CardFields(Validate(Field(req, "name"), StringType, Defaults),
               Validate(Field(req, "exp_month"), StringType, Defaults.(min := 2.0, max := 2.0)),
               Validate(Field(req, "exp_year"), StringType, Defaults.(min := 2.0, max := 4.0)))
  }

  /** `postData`: the valid fields, in the order name, exp_month, exp_year. */
  function Changes(f: CardFields): (r: seq<(string, string)>)
    requires Truthy(f.name) ==> f.name.Str?
    requires Truthy(f.expMonth) ==> f.expMonth.Str?
    requires Truthy(f.expYear) ==> f.expYear.Str?
  {
    (if Truthy(f.name) then [("name", f.name.s)] else [])
    + (if Truthy(f.expMonth) then [("exp_month", f.expMonth.s)] else [])
    + (if Truthy(f.expYear) then [("exp_year", f.expYear.s)] else [])
  }

  /** The body holds one pair per valid field, with that field's value. */
  lemma ChangesMembers(f: CardFields, key: string, value: string)
    requires Truthy(f.name) ==> f.name.Str?
    requires Truthy(f.expMonth) ==> f.expMonth.Str?
    requires Truthy(f.expYear) ==> f.expYear.Str?
    ensures (key, value) in Changes(f) <==>
      || (key == "name" && Truthy(f.name) && value == f.name.s)
      || (key == "exp_month" && Truthy(f.expMonth) && value == f.expMonth.s)
      || (key == "exp_year" && Truthy(f.expYear) && value == f.expYear.s)
    ensures Changes(f) == [] <==> !f.Any()
  {
    var a := if Truthy(f.name) then [("name", f.name.s)] else [];
    var b := if Truthy(f.expMonth) then [("exp_month", f.expMonth.s)] else [];
    var c := if Truthy(f.expYear) then [("exp_year", f.expYear.s)] else [];
    assert Changes(f) == a + b + c;
    assert (key, value) in a + b + c <==> (key, value) in a || (key, value) in b || (key, value) in c;
  }

  /** A `'string'` check with `[lo, hi]` bounds, lo positive: passes the trimmed string iff its length is in range. */
  lemma BoundedText(v: Input, lo: real, hi: real)
    requires lo > 0.0
    ensures var r := Validate(v, StringType, Defaults.(min := lo, max := hi));
      && (Truthy(r) <==> v.Str? && lo <= |Trim(v.s)| as real <= hi)
      && (Truthy(r) ==> r == Str(Trim(v.s)))
  {
  }

  /** A `'string'` check with the default options: passes the trimmed string iff it is not blank. */
  lemma PlainText(v: Input)
    ensures var r := Validate(v, StringType, Defaults);
      && (Truthy(r) <==> v.Str? && Trim(v.s) != "")
      && (Truthy(r) ==> r == Str(Trim(v.s)))
  {
  }

  /** The validated card fields, read off the request body. */
  lemma CardFieldsValid(req: Request)
    ensures var f := CardFieldsOf(req);
      && (Truthy(f.name) <==> Field(req, "name").Str? && Trim(Field(req, "name").s) != "")
      && (Truthy(f.expMonth) <==> Field(req, "exp_month").Str? && |Trim(Field(req, "exp_month").s)| == 2)
      && (Truthy(f.expYear) <==> Field(req, "exp_year").Str? && 2 <= |Trim(Field(req, "exp_year").s)| <= 4)
      && (Truthy(f.name) ==> f.name == Str(Trim(Field(req, "name").s)))
      && (Truthy(f.expMonth) ==> f.expMonth == Str(Trim(Field(req, "exp_month").s)))
      && (Truthy(f.expYear) ==> f.expYear == Str(Trim(Field(req, "exp_year").s)))
  {
    PlainText(Field(req, "name"));
    BoundedText(Field(req, "exp_month"), 2.0, 2.0);
    BoundedText(Field(req, "exp_year"), 2.0, 4.0);
  }

  /** A body field that is a string, trimmed. */
  function TrimmedField(req: Request, key: string): Option<string> {
    if Field(req, key).Str? then Some(Trim(Field(req, key).s)) else None
  }

  /**
   * What `put` sends holds exactly the valid fields of the request body,
   * trimmed: a name that is not blank, a two-character month and a year of
   * two to four characters. It is empty exactly when none is valid.
   */
  lemma ChangesExact(req: Request, key: string, value: string)
    ensures (key, value) in Changes(CardFieldsOf(req)) <==>
      || (key == "name" && TrimmedField(req, "name") == Some(value) && value != "")
      || (key == "exp_month" && TrimmedField(req, "exp_month") == Some(value) && |value| == 2)
      || (key == "exp_year" && TrimmedField(req, "exp_year") == Some(value) && 2 <= |value| <= 4)
    ensures Changes(CardFieldsOf(req)) == [] <==> !CardFieldsOf(req).Any()
  {
    CardFieldsValid(req);
    ChangesMembers(CardFieldsOf(req), key, value);
  }

  /**
   * `put`: sends the valid card fields to the provider and answers with
   * the user record, which it never writes. `sent` is the body sent (empty
   * when nothing is sent); `updated` is what the provider's update resolves to.
   */
  method Put(db: Db, req: Request, updated: StripeReply) returns (o: Outcome, sent: seq<(string, string)>)
    ensures req.token.None? ==> o == Threw(RuntimeError("TypeError")) && sent == []
    ensures req.token.Some? && Owner(req) !in db.users.records ==> o == Threw(NoEntry) && sent == []
    ensures req.token.Some? && Owner(req) in db.users.records ==>
      var user := db.users.records[Owner(req)];
      if !HasCard(user) then o == Returned(NoCardToUpdate) && sent == []
      else if !CardFieldsOf(req).Any() then
        o == Returned(NothingToUpdate(["name", "exp_month", "exp_year"]))
        && sent == []
      else
        && sent == Changes(CardFieldsOf(req))
        && o == (match updated
                 case Transport => Returned(UpdateFailed)
                 case ApiError(e) => Returned(Json(400, Refused(e)))
                 case Delivered(_, _, _) => Returned(Json(200, UserBody(Public(user)))))
  {
    sent := [];
    if req.token.None? {
      return Threw(RuntimeError("TypeError")), sent;
    }
    var read := db.users.Read(Owner(req), None);
    if read.Err? {
      return Threw(read.error), sent;
    }
    var user := read.value;
    if !HasCard(user) {
      return Returned(NoCardToUpdate), sent;
    }
    var f := CardFieldsOf(req);
    if !f.Any() {
      var invalid := ReportNone(f);
      return Returned(NothingToUpdate(invalid)), sent;
    }
    sent := Body(f);
    match updated
    case Transport => o := Returned(UpdateFailed);
    case ApiError(e) => o := Returned(Json(400, Refused(e)));
    case Delivered(_, _, _) => o := Returned(Json(200, UserBody(Public(user))));
  }

  /** Builds `postData` field by field. */
  method Body(f: CardFields) returns (sent: seq<(string, string)>)
    requires Truthy(f.name) ==> f.name.Str?
    requires Truthy(f.expMonth) ==> f.expMonth.Str?
    requires Truthy(f.expYear) ==> f.expYear.Str?
    ensures sent == Changes(f)
  {
    sent := [];
    if Truthy(f.name) {
      sent := sent + [("name", f.name.s)];
    }
    if Truthy(f.expMonth) {
      sent := sent + [("exp_month", f.expMonth.s)];
    }
    if Truthy(f.expYear) {
      sent := sent + [("exp_year", f.expYear.s)];
    }
  }

  /** `put`'s report when no field is valid: `invalidFields` then names all three. */
  method ReportNone(f: CardFields) returns (invalid: seq<string>)
    requires !f.Any()
    ensures invalid == ["name", "exp_month", "exp_year"]
  {
    invalid := InvalidFields([("name", f.name), ("exp_month", f.expMonth), ("exp_year", f.expYear)]);
    FalsyKeysTwo("name", f.name, "exp_month", f.expMonth);
    FalsyKeysAppend([("name", f.name), ("exp_month", f.expMonth)], [("exp_year", f.expYear)]);
    FalsyKeysOne("exp_year", f.expYear);
    assert [("name", f.name), ("exp_month", f.expMonth), ("exp_year", f.expYear)]
        == [("name", f.name), ("exp_month", f.expMonth)] + [("exp_year", f.expYear)];
  }

  function CardIdOf(req: Request): Input { Validate(Slug(req, 1), StringType, Defaults) }

  /**
   * `delete /:stripe_card_id`: deletes the user's own card at the provider
   * and drops its id from the user record. An answer carrying `error` falls
   * through every branch, so the handler returns nothing.
   */
  method Delete(db: Db, req: Request, deleted: StripeReply) returns (o: Outcome)
    modifies db.users
    ensures !Truthy(CardIdOf(req)) ==> o == Returned(MissingCardId) && db.users.records == old(db.users.records)
    ensures Truthy(CardIdOf(req)) && req.token.None? ==>
      o == Threw(RuntimeError("TypeError")) && db.users.records == old(db.users.records)
    ensures Truthy(CardIdOf(req)) && req.token.Some? && Owner(req) !in old(db.users.records) ==>
      o == Threw(NoEntry) && db.users.records == old(db.users.records)
    ensures Truthy(CardIdOf(req)) && req.token.Some? && Owner(req) in old(db.users.records) ==>
      var user := old(db.users.records)[Owner(req)];
      if !HasCard(user) then o == Returned(NoCardToUpdate) && db.users.records == old(db.users.records)
      else if user.stripeCardId.value != CardIdOf(req).s then
        o == Returned(NotYourCard) && db.users.records == old(db.users.records)
      else if deleted.Transport? then o == Returned(DeleteFailed) && db.users.records == old(db.users.records)
      else if deleted.ApiError? then o == ReturnedUndefined && db.users.records == old(db.users.records)
      else
        o == Returned(Json(204, Empty))
        && db.users.records == old(db.users.records)[Owner(req) := user.(stripeCardId := None)]
  {
    var cardId := CardIdOf(req);
    if !Truthy(cardId) {
      return Returned(MissingCardId);
    }
    if req.token.None? {
      return Threw(RuntimeError("TypeError"));
    }
    var read := db.users.Read(Owner(req), None);
    if read.Err? {
      return Threw(read.error);
    }
    var user := read.value;
    if !HasCard(user) {
      return Returned(NoCardToUpdate);
    } else if user.stripeCardId.value != cardId.s {
      return Returned(NotYourCard);
    }
    match deleted
    case Transport =>
      o := Returned(DeleteFailed);
    case ApiError(_) =>
      o := ReturnedUndefined;
    case Delivered(_, _, _) =>
      user := user.(stripeCardId := None);
      var saved := db.users.Update(Owner(req), user, Some(DeleteFailed));
      match saved
      case Ok(_) => o := Returned(Json(204, Empty));
      case Err(e) => o := Threw(e);
  }

}
