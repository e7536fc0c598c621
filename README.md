# pizza-ecommerce backend, modelled in Dafny

This project models the request-handling core of the pizza-ecommerce Node
backend:

- the helpers every handler relies on: input validation, the invalid-field
  report, error normalisation, MIME types, session cookies, random ids,
  token creation, filtered listing and form encoding;
- the route dispatcher: method gates, the order of token verification and
  method checks, header renewal, and normalisation of thrown errors;
- the five entity handlers:
  - `cart`: get, post, put, delete on the user's item list;
  - `menu`: show, list, create, update, delete;
  - `login`;
  - `users`: get, create, update with e-mail re-keying, delete;
  - `card`: the user's one payment card.

Each request runs to completion before the next one starts. So every handler
is a method over an abstract record store (`Store.Db`). The store holds one
`Collection` per directory (`users`, `tokens`, `carts`, `menu`); each maps a
key to a record. `lib/data.js` is not part of this model. Its behaviour is
inferred from how the handlers use it:

- `create` fails when the key exists.
- `read`, `update` and `delete` fail when the key is absent. The error is the
  caller's `errObj` when one is passed, otherwise an error whose `code` is
  `ENOENT`.
- `list` returns each key once.

What a handler settles to is an `Http.Outcome`:

- `Returned(reply)`: it returned a response object;
- `ReturnedUndefined`: it returned nothing;
- `Threw(error)`: it threw. A thrown store error or runtime error
  (`TypeError`, `ReferenceError`) has no `status`, and the dispatcher turns it
  into the default 500.

Calls outside the program are parameters of the handler that makes them:

- Each payment-provider call is one `Records.StripeReply`:
  - `Transport`: a response carrying `status` and `payload`;
  - `ApiError`: an answer carrying `error`;
  - `Delivered`: a success carrying `id`, `deleted` or `data`.
- `hash` stands for the keyed password digest.
- `toNumber` stands for `Number()` on a query value.
- `matches` stands for the case-insensitive regular-expression test of `filterList`.
- `escape` stands for percent-encoding as in section 2.1 of RFC 3986.
- `production` stands for the environment switch that adds `Secure` to cookies.
- The two middlewares (`verifyToken`, `loadToken`) are each seen through one
  run (`Handlers.Middleware`): what the run threw, the error it reported,
  and the session and renewed cookies it left on the request.

Several quirks of the code are modelled as written:

- `cart.post` appends a new entry instead of merging, and on invalid input
  it throws a `ReferenceError` because `helpers` is not imported.
- The splice loop of `cart.delete` skips the entry right after a removed one.
- `menu.post` computes its id from an undefined `this._idLength`, so every item is stored under the key `"false"`.
- `menu.put` with no valid field reaches an undefined variable.
- `card.delete` returns nothing when the provider answers with an error.
- `users` and `menu` verify the token before checking the method.

## Model

| member | source | states |
|---|---|---|
| Helpers.Validate | lib/helpers.js:104-137 | a text check (`'string'`, `'email'`, `'enum'`, `'token'`) is decided by `TextCheck` on the trimmed input string alone, and a non-string gives `false`. A number passes iff it is in [min,max] and, with `integer`, whole, and is returned unchanged. An unknown type gives `false` |
| Helpers.TextCheck | lib/helpers.js:107-132 | on a trimmed string the result is `false` or that string. A `'string'` check passes iff the length is in [min,max] when either bound is given, else equals `equal` when it is non-zero, else is positive. An e-mail passes iff it is non-empty and has an `@` inside it. An enum value passes iff it is non-empty and in `enumArr`. A token passes iff its length equals `equal` |
| Helpers.ValidateIdempotent | lib/helpers.js:104-137 | validating an already validated value changes nothing |
| Helpers.ValidateTextTrimmed | lib/helpers.js:108-131 | a text check gives the same answer on a string and on its trimmed form |
| Helpers.ValidatedTextTruthy | lib/helpers.js:104-137 | a text value that passed is truthy whenever the bounds exclude the empty string |
| Helpers.InvalidFields | lib/helpers.js:62-72 | the loop collects the falsy-valued keys in key order (`FalsyKeys`) |
| Helpers.FalsyKeysExact | lib/helpers.js:62-72 | a key is reported iff some entry with that key has a falsy value |
| Helpers.FalsyKeysAppend | lib/helpers.js:62-72 | the report of two objects joined is the two reports joined |
| Helpers.CreateRandomString | lib/helpers.js:40-58 | for a positive number n, a string of ceil(n) characters from `[a-z0-9]`; otherwise `false` |
| Helpers.IdIsCookieSafe | lib/helpers.js:40-58 | such an id contains no `;` and no `=`, so it can be a cookie value and a store key |
| Helpers.AppendNested | lib/helpers.js:202-204 | the inner loop appends `key[k]=escape(v)&` for each field of a nested object, in order |
| Helpers.Stringify | lib/helpers.js:196-211 | the loop yields each property's `key=escape(value)&` or nested pairs, in property order (`Stringified`) |
| Helpers.StringifiedAppend | lib/helpers.js:196-211 | encoding two objects joined is the two encodings joined |
| Helpers.StringifiedPairCount | lib/helpers.js:196-211 | with `&`-free keys and escaped values, the output holds one `&` per encoded pair |
| Helpers.ErrorHandler | lib/helpers.js:216-227 | the error itself when it has status and payload; `{status, {}}` when it has only a status; otherwise the fixed 500 `Internal` answer. The result always has a status and a payload |
| Helpers.ErrorHandlerIdempotent | lib/helpers.js:216-227 | normalising twice is normalising once |
| Helpers.GetContentType | lib/helpers.js:318-346 | `jpg` and `jpeg` map to `image/jpeg`; an extension maps to `application/octet-stream` iff it is not in the table |
| Helpers.CookieRoundTrip | lib/helpers.js:351-360 | a directive `name=value; Max-Age=n; HttpOnly; SameSite=Lax; <Secure or blank>;` reads back as its name, value, max-age and `Secure` flag |
| Helpers.GeneratedCookiesRead | lib/helpers.js:351-360 | exactly two `Set-Cookie` values, the access token's then the refresh token's, each reading back as its id and max-age |
| Helpers.DeletedCookiesRead | lib/helpers.js:363-370 | two `Set-Cookie` values naming `access_token` and `refresh_token` with value `no_id` and max-age -1 |
| Helpers.CreateTokens | lib/helpers.js:375-396 | both tokens copy name, e-mail and customer id from the user and carry the access and refresh max-ages. Their ids have the random-id shape. The access token is created under its id first, then the refresh token |
| Helpers.TokenSavesAddTwo | lib/helpers.js:375-396 | a successful pair of saves adds exactly the two token keys and keeps every other token |
| Helpers.FilterList | lib/helpers.js:76-99 | the read-and-scan loop yields `Filtered`: the listed records some search entry matches, or `false` once a read fails or a filter value that is no pattern is reached before a match |
| Helpers.ScanKeeps | lib/helpers.js:84-91 | a scan of one record that does not throw keeps it iff some search entry matches it |
| Helpers.ScanThrowsIff | lib/helpers.js:84-91 | a scan of one record throws iff it reaches an entry that does not compile as a pattern while every earlier entry compiles and does not match |
| Helpers.FilteredFailsIff | lib/helpers.js:76-99 | the listing fails iff some listed key has no record or its record's scan throws on a filter value that is no pattern |
| Helpers.FilteredIsSelect | lib/helpers.js:76-99 | when every read and every scan succeeds, the loop's result equals a reference selection walking the list from its head |
| Helpers.SelectContents | lib/helpers.js:76-99 | the selection is no longer than the list, and holds a record iff it is listed and matched (at most once per listing, by the `break`) |
| Handlers.UseMiddleware | lib/handlers/index.js:340-360 | nothing iff the step neither threw nor reported an error; otherwise the normalised thrown error, or else the reported one |
| Handlers.Renewed | lib/handlers/index.js:307-312 | the headers (`{}` when absent) gain every renewal header; on a shared name the renewal wins; the others and the rest of the response are kept |
| Handlers.CallSubApi | lib/handlers/index.js:299-322 | a method outside `accepted` gets 405 whatever the handlers are. A thrown error is normalised, never rethrown. A missing handler, or an undefined result while renewing, gives the 500 answer. Otherwise the response comes back with the renewal merged in |
| Handlers.CallSubGui | lib/handlers/index.js:324-338 | a missing first segment, or one outside `accepted`, gets 405; an accepted segment without a handler gets the normalised `TypeError` (500); otherwise that segment's handler's response, its error normalised |
| Handlers.GuiPage | lib/handlers/index.js:31-100 | a non-`get` gets 405; a `get` gets the rendered page as `text/html` with 200, or the normalised rendering error |
| Handlers.Dispatch | lib/handlers/index.js:112-226 | where a route needs a token (users except `post`, menu except `get`, CRUD on cart and card, `post` on order) a failed verification is the answer. Otherwise a method the route does not allow gets 405, and an allowed one reaches the sub-api with the request as the middleware left it. `logout` ignores what `loadToken` reports |
| Handlers.HandlersGuarded | lib/handlers/index.js:112-226 | a refused request's answer does not depend on the handlers and always has a status and a payload |
| Handlers.VerificationBeforeMethodGate | lib/handlers/index.js:112-207 | for a non-CRUD method with a bad token, users and menu answer with the verification error while cart and card answer 405 |
| CartApi.Get | lib/handlers/api/cart.js:17-39 | the stored cart, or `{items: []}` when there is none; without a session the 500 answer |
| CartApi.SumMatching | lib/handlers/api/cart.js:73-78 | the loop's total is the requested quantity plus the quantities of the entries already there for the item |
| CartApi.AppendSummedTotals | lib/handlers/api/cart.js:70-84 | `post` keeps the existing entries as a prefix and appends one. The item's total becomes twice the old total plus the request; other items' totals are unchanged |
| CartApi.Post | lib/handlers/api/cart.js:44-98 | invalid input throws `ReferenceError`. An unknown item throws the 400 "Item doesn't exist." and leaves carts untouched. Otherwise an existing cart gets the summed entry appended; with no cart yet, a one-entry cart is created |
| CartApi.AddToCart | lib/handlers/api/cart.js:62-97 | an existing cart is stored with the summed entry appended and returned with 201; with no cart yet, a one-entry cart is created and returned with 201 |
| CartApi.SetQuantity | lib/handlers/api/cart.js:124-140 | the in-place loop over the item array sets the quantity of every matching entry (`SetAll`) and reports whether one matched |
| CartApi.SetAllEffect | lib/handlers/api/cart.js:124-140 | same length and item ids; matching entries get the new quantity and the others are unchanged; idempotent |
| CartApi.Put | lib/handlers/api/cart.js:102-143 | a bad slug gets 400 "Missing /:item_id" before any read, and an invalid quantity gets 400. A missing cart throws. No matching entry gets 400 with no write; otherwise the cart is stored with the quantities set |
| CartApi.SetInCart | lib/handlers/api/cart.js:119-142 | a missing cart throws the 400 error. No matching entry gets 400 with no write; otherwise the cart with every matching quantity set is stored and returned with 200 |
| CartApi.SpliceMatches | lib/handlers/api/cart.js:164-172 | the splice loop yields `SpliceWalk` and reports whether any entry matched |
| CartApi.KeepStep | lib/handlers/api/cart.js:167-172 | a turn at a non-matching entry moves it into the kept prefix without changing the walk's result, and leaves the question whether a match is ahead unchanged |
| CartApi.DropStep | lib/handlers/api/cart.js:167-172 | a turn at a matching entry splices it out; the walk, stepping past the entry that moved into its place, still ends with the same result |
| CartApi.SpliceWalkKeepsOthers | lib/handlers/api/cart.js:164-172 | the non-matching entries survive, in their relative order |
| CartApi.SpliceWalkComplete | lib/handlers/api/cart.js:164-172 | when no two matching entries are adjacent, every match is removed |
| CartApi.SpliceWalkSkipsSecond | lib/handlers/api/cart.js:164-172 | of two adjacent matching entries, the second survives |
| CartApi.Delete | lib/handlers/api/cart.js:148-182 | a bad slug gets 400 before any read, and a missing cart throws. No match gets 400 with no write; otherwise the walked list is stored and the answer is 204 |
| MenuApi.Show | lib/handlers/api/menu.js:26-42 | a slug of the wrong length gets 400; a missing record throws the 400 "Item doesn't exist."; otherwise the record |
| MenuApi.ReadEach | lib/handlers/api/menu.js:60-65 | the read loop yields the records under the listed keys in order, or the 500 error once one is missing |
| MenuApi.SearchEntries | lib/handlers/api/menu.js:69-78 | the search object holds only truthy filters, and is empty iff no filter is valid |
| MenuApi.ListMenu | lib/handlers/api/menu.js:44-90 | 200 with every stored record once, in `list` order, when no filter is valid; otherwise 500 "Could not filter the list." iff the scan of some stored record throws on a filter value that is no pattern, else 200 with the `filterList` selection of the records some filter matches |
| MenuApi.ListsAllContents | lib/handlers/api/menu.js:56-66 | an unfiltered listing holds each stored record once and nothing else |
| MenuApi.ListsMatchingContents | lib/handlers/api/menu.js:69-87 | a filtered listing holds exactly the stored records some filter matches |
| MenuApi.Get | lib/handlers/api/menu.js:22-92 | a path with an id shows that record; otherwise the list, with `ListMenu`'s 200 and 500 answers |
| MenuApi.EntriesReport | lib/handlers/api/menu.js:100-108 | the 400 report names exactly the fields that failed validation, and is empty iff all four passed |
| MenuApi.Post | lib/handlers/api/menu.js:96-126 | all four fields must validate, else 400 naming the invalid ones. The item is stored under the key `"false"` with id `false`, and creation fails once that key exists. Success returns the item with 201 |
| MenuApi.AddItem | lib/handlers/api/menu.js:111-125 | the item gets id `false` and is stored under `"false"`; the creation fails with the 500 error once that key exists, with no write |
| MenuApi.PatchedEffect | lib/handlers/api/menu.js:159-171 | the id is kept, exactly the fields that validated are replaced, the others kept; patching twice is patching once |
| MenuApi.PatchedCategory | lib/handlers/api/menu.js:159-171 | a patched item's category stays one of the configured categories |
| MenuApi.Put | lib/handlers/api/menu.js:130-174 | a bad slug gets 400. No valid field throws a `ReferenceError`. A missing record throws the 500 retrieve error; otherwise the patched record is stored and returned |
| MenuApi.PatchItem | lib/handlers/api/menu.js:154-173 | a missing record throws the 500 retrieve error with no write; otherwise the record with each validated field replaced (`Patched`) is stored and returned with 200 |
| MenuApi.Delete | lib/handlers/api/menu.js:178-198 | a bad slug gets 400; otherwise 204, with the key gone whether or not it existed |
| LoginApi.Post | lib/handlers/api/login.js:16-47 | invalid credentials get 400 naming them, with no store write. An unknown e-mail throws the 404. A wrong password gets 400 with no tokens created. Otherwise the sign-in of `SignedIn` |
| LoginApi.Authenticate | lib/handlers/api/login.js:28-45 | an unknown e-mail throws the 404 and a digest mismatch gets 400, neither touching the tokens; otherwise the sign-in of `SignedIn` |
| LoginApi.SignIn | lib/handlers/api/login.js:37-45 | some pair of tokens issued for the user with the configured max-ages and id length is saved, access first, and the answer is 200 with their cookies or the save's error (`SignedIn`) |
| LoginApi.SignedInEffect | lib/handlers/api/login.js:38-45 | a sign-in stores exactly two new tokens issued for the user and answers 200 `{auth: true}`. Its two cookies name the access and the refresh token with their max-ages |
| UsersApi.Get | lib/handlers/api/users.js:17-25 | the signed-in user's record without the password hash |
| UsersApi.Post | lib/handlers/api/users.js:29-101 | an invalid field gets 400 naming the invalid ones, an existing e-mail gets 400, an empty hash 500 and a transport failure 500, each with no write. Otherwise the user is stored under the e-mail with the hash and customer id, and returned without the hash with 201 |
| UsersApi.ChangedEffect | lib/handlers/api/users.js:124-133 | only the given fields change, the password becomes its hash, the customer and card ids never change; changing twice is changing once |
| UsersApi.Edit | lib/handlers/api/users.js:124-133 | the field-by-field mutation yields `Changed` |
| UsersApi.ReportNone | lib/handlers/api/users.js:116-119 | with no valid field, the report names all four fields |
| UsersApi.Put | lib/handlers/api/users.js:105-177 | no valid field gets 400 naming all four with no write. Otherwise the outcome and both stores are as `Changes` says: an unchanged e-mail updates in place; a new one moves the record |
| UsersApi.Change | lib/handlers/api/users.js:121-176 | the outcome and both stores are as `Changes` says |
| UsersApi.Move | lib/handlers/api/users.js:136-167 | the record is created under the new e-mail, and the creation fails if it exists. A transport failure gets 500 and leaves both records. Otherwise the session token's e-mail is re-pointed and the old record removed |
| UsersApi.RekeyKeepsOthers | lib/handlers/api/users.js:136-167 | a completed move swaps the old key for the new and keeps every other user |
| UsersApi.RemovalEffect | lib/handlers/api/users.js:216-222 | the removal succeeds iff the cart, the token and the user all exist. A success removes exactly one of each; a failure stops the later removals and never touches users |
| UsersApi.RemoveAccount | lib/handlers/api/users.js:218-220 | the three deletions run in order, cart, token, user, as `Removal` says |
| UsersApi.Delete | lib/handlers/api/users.js:181-227 | a bad e-mail slug gets 400; an absent user throws; a stored user under another e-mail gets 401; an undeleted customer gets 500. None of these writes. Otherwise the removal, answered 204 with the deleting cookies |
| CardApi.Get | lib/handlers/api/card.js:18-54 | the first listed card with 200, 400 when the list is empty, 500 on transport failure; an answer without a list throws |
| CardApi.Post | lib/handlers/api/card.js:58-120 | a user who already has a card gets 400 before `stripe_token` is validated. A token outside the ten test tokens gets 400. A transport failure gets 500 and a provider error 400 with its body. Success stores the card id on the user and returns the user without the hash with 201 |
| CardApi.TokenAccepted | lib/handlers/api/card.js:68-80 | an accepted token is one of the ten test tokens, trimmed |
| CardApi.Body | lib/handlers/api/card.js:144-153 | the field-by-field body is `Changes` |
| CardApi.ChangesMembers | lib/handlers/api/card.js:144-153 | for string-valued fields, a pair is in the body iff its field is truthy and the value is that field's string; the body is empty iff no field is truthy |
| CardApi.BoundedText | lib/helpers.js:108-110 | a `'string'` check with a positive lower bound is truthy iff the input is a string whose trimmed length is in the bounds, and then yields the trimmed string |
| CardApi.PlainText | lib/helpers.js:113-114 | a `'string'` check with the defaults is truthy iff the input is a string that is not blank, and then yields the trimmed string |
| CardApi.CardFieldsValid | lib/handlers/api/card.js:134-136 | the name is valid iff it is a non-blank string, the month iff its trimmed length is 2, the year iff its trimmed length is 2 to 4; a valid field is the trimmed string |
| CardApi.ChangesExact | lib/handlers/api/card.js:134-153 | the body holds exactly the valid fields: a non-blank name, a two-character month, a year of two to four characters. It is empty iff none is valid |
| CardApi.ReportNone | lib/handlers/api/card.js:139-142 | with no valid field, the report names all three fields |
| CardApi.Put | lib/handlers/api/card.js:124-189 | without a card, or with no valid field, the answer is 400 and nothing is sent. Otherwise the body sent is exactly the valid fields and the answer follows the provider's reply. The user record is never written |
| CardApi.Delete | lib/handlers/api/card.js:193-248 | a missing slug, no card, or another card's id gets 400. A transport failure gets 500, and a provider error returns nothing. Success removes the card id from the user and answers 204 |

## Left out

- `lib/data.js` is not part of this model. The store's behaviour is inferred from its callers; `data.create` is taken to resolve to the stored value.
- `verifyToken` and `loadToken` are not part of this model. Each is an abstract run that reports an error or leaves a session and renewed cookies on the request.
- `hash` (keyed SHA-256), the query-string escape, `Number()` and the case-insensitive regular-expression test of `filterList` are parameters. So is `Math.random` in `createRandomString`: only the length and alphabet of its result are modelled.
- Helpers.TextCheck: the e-mail regular expression is approximated by "an `@` with at least one character on each side". The approximation is strictly looser: every string the expression accepts has such an `@`, but the model also accepts strings the expression rejects, such as `"A@B.COM"` (the expression has no `i` flag) and `"a@b"` (it needs a dotted domain).
- JavaScript numbers are exact reals: `safeFloatNumber`, floating-point rounding and the 53-bit integer limits are not modelled.
- `lib/handlers/api/order.js` and `logout.js`, and the `order` and `logout` sub-apis are not part of this model. Their routes are modelled over an arbitrary sub-api.
- File and template I/O are not modelled: `getTemplate`, `interpolate`, `getStaticAsset`, `notFound`, `favicon`, `public` and the GUI page bodies. A GUI page takes its rendering as a parameter.
- `httpsRequest`, `getHTMLfromURL` and the shaping of the provider's request options are network I/O. Each provider call is one `StripeReply`, and `card.put` exposes only the body it would send. A network error resolves to an object without `status` or `payload`, which the handlers treat like a success without data.
- `parseJsonToObject` and the router's request normalisation are outside the model: a request arrives already parsed.
- Interleaving of concurrent requests on the same record is not modelled. Each request is one sequential run over the store.
- Debug logging is not modelled.
- MenuApi.ListMenu: whether `new RegExp(value, 'gi')` accepts a filter value is a parameter (`isPattern`); the regular-expression syntax is not modelled. The store's `list` names only existing keys, so the 500 "Could not filter the list." arises only from a filter value that is no pattern.
- UsersApi.Move: the token record is rewritten from the session the verifier attached (`{...request.token, email}`); which fields that session carries besides the stored token is not modelled.
