/**
 * The records the handlers keep in the store (users, tokens, carts, menu
 * items) and the values exchanged with the payment provider.
 */
module Records {
  import opened Wrappers
  import opened JsValues

  /** A `users` record, keyed by email. */
  datatype User = User(
    name: string,
    email: string,
    hashedPassword: string,
    streetAddress: string,
    stripeCustomerId: Option<string>,
    stripeCardId: Option<string>)

  /** A user record with `hashedPassword` deleted, as the handlers send it back. */
  datatype UserView = UserView(
    name: string,
    email: string,
    streetAddress: string,
    stripeCustomerId: Option<string>,
    stripeCardId: Option<string>)

  function Public(u: User): UserView {
    UserView(u.name, u.email, u.streetAddress, u.stripeCustomerId, u.stripeCardId)
  }

  /** JavaScript truthiness of `user.stripe_card_id`. */
  predicate HasCard(u: User) {
    u.stripeCardId.Some? && u.stripeCardId.value != ""
  }

  /** A `tokens` record, keyed by its id. */
  datatype Token = Token(id: IdValue, name: string, email: string, stripeCustomerId: Option<string>, maxAge: int)

  /** What the token middleware attaches to a request as `request.token`: the token record and its id. */
  datatype Session = Session(tokenId: string, token: Token) {
    function Email(): string { token.email }
  }

  datatype CartItem = CartItem(itemId: string, quantity: real)

  /** A `carts` record, keyed by the owner's email. */
  datatype Cart = Cart(items: seq<CartItem>)

  /** A `menu` record, keyed by its id. */
  datatype MenuItem = MenuItem(id: IdValue, name: string, price: real, description: string, category: string)

  /** A card object returned by the payment provider. */
  datatype StripeCard = StripeCard(id: string)

  /** The `error` body of a payment-provider answer. */
  datatype StripeError = StripeError(kind: string, message: string)

  /**
   * What one call to the payment provider resolves to: a failed call (an
   * object with a truthy `status` and `payload`), an answer carrying `error`,
   * or any other object, whose `id`, `deleted` and `data` properties the
   * handlers read (each possibly absent).
   */
  datatype StripeReply =
    | Transport
    | ApiError(error: StripeError)
    | Delivered(id: Option<string>, deleted: bool, data: Option<seq<StripeCard>>)

  /** `res.id`: absent unless the answer carries one. */
  function ReplyId(r: StripeReply): Option<string> {
    if r.Delivered? then r.id else None
  }
}
