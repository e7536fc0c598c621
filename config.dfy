/** The configuration values the core reads (both environments agree on them). */
module Config {
  const TokenIdLength: nat := 20
  const AccessTokenMaxAge: int := 15 * 60
  const RefreshTokenMaxAge: int := 30 * 60
  const MenuCategories: seq<string> := ["pizza", "drink"]
}
