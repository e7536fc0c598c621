/**
 * Pieces the API handlers share: the `/:item_id` check, the session owner
 * and the validation error bodies.
 */
module ApiCommon {
  import opened Text
  import opened JsValues
  import opened Http
  import opened Helpers
  import Config

  /** `{equal: tokenIdLength}`. */
  const ItemIdOptions: Options := Defaults.(equal := Config.TokenIdLength as real)

  const MissingItemId := Json(400, Message("Validation", "Missing /:item_id"))

  /** The error object of a read of a menu item that is not there. */
  const ItemMissing := Json(400, Message("Bad Request", "Item doesn't exist."))

  /** `Missing or invalid required fields: ${invalid}.`. */
  function MissingFields(invalid: seq<string>): Reply {
    Json(400, Message("Validation", "Missing or invalid required fields: " + Join(invalid, ", ") + "."))
  }

  /** `request.slugs[1]` validated as an id; slug 0 is the route. */
  function SlugItemId(req: Request): Input { Validate(Slug(req, 1), TokenType, ItemIdOptions) }

  /** The owner's key: `request.token.email`. */
  function Owner(req: Request): string
    requires req.token.Some?
  {
    req.token.value.Email()
  }
}
