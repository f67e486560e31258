# Storefront demo: a verified model of its login, catalog and cart logic

This project models the core of a small storefront. The backend is an
Express server. The frontend is a React client. The Dafny model covers:

- the backend's `POST /login` route: the rate limiter, the validation stage and the credential check that signs a token for the one demo user;
- the backend's `GET /products` pagination and `GET /products/:id` lookup;
- the `jwtMiddleware` that guards `/graphql`, and the `userProfile` resolver behind it;
- the frontend's cart reducer and the commands the cart provider dispatches, with the per-item cap of 999 and the cart-wide cap of 1000;
- the frontend's authentication provider (`login`, `logout`, `loadUserProfile`, `clearError`);
- the login page's validation chain and error display;
- the product page's quantity selector.

Pure code (handlers, the reducer, validation) is modelled as functions, with
lemmas about them. Components whose state changes are classes whose methods
are proved against those functions:

- the limiter's per-client windows: `LoginThrottle.LoginLimiter`;
- the Express request: `JwtGate.Request`;
- the cart: `Cart.CartProvider`;
- the authentication state: `Auth.AuthProvider`;
- the login page: `LoginForm.LoginPage`;
- the product page: `ProductDetailView.ProductDetail`.

These are passed in as parameters:

- `jwt.sign` and `jwt.verify`, as function-typed parameters;
- the verdict of `express-validator`, as a boolean;
- the result of each `parseInt`, as `Option<int>`, where `None` is `NaN`;
- what the network returns to the frontend;
- the clock (milliseconds) and the JWT lifetime environment variable;
- the client identity the limiter keys on.

Modules, one per file:

- `Common` (`common.dfy`): shared values;
- `Catalog` (`catalog.dfy`);
- `LoginRoute` (`login_route.dfy`);
- `LoginThrottle` (`login_throttle.dfy`);
- `JwtGate` (`jwt_gate.dfy`);
- `Cart` (`cart.dfy`);
- `Auth` (`auth.dfy`);
- `LoginForm` (`login_form.dfy`);
- `ProductDetailView` (`product_detail.dfy`);
- `Storefront` (`storefront.dfy`): lemmas that follow a login from the form through the route into the provider's state.

## Model

| member | source | states |
|---|---|---|
| Catalog.ParamOr | backend/server.js:128-129 | `parseInt`, falling back to the default: the result is never 0; `NaN` and 0 give the default; any other number is kept |
| Catalog.SliceIndex | backend/server.js:133 | a `slice` index is clamped to `[0, len]`; a non-negative index is `min(index, len)` |
| Catalog.JsSlice | backend/server.js:133 | `slice(start, end)` with non-negative bounds is the clamped sub-sequence; a non-negative end at or before the start gives the empty list (a negative end counts from the end of the list, as in `slice(0, -1)`) |
| Catalog.CeilDiv | backend/server.js:141 | `Math.ceil(n / d)`: for `d > 0`, the least `r` with `n <= r*d`; for `d < 0`, the matching bound on the other side |
| Catalog.ListProducts | backend/server.js:125-147 | page and limit are the defaulted parameters; `total` is the catalog size; for a positive limit, `pages * limit` is the least multiple of the limit covering the catalog; a negative limit, which `parseInt` lets through, gives a `pages` of at most 0 |
| Catalog.ListingIsSlice | backend/server.js:130-133 | with a page and a limit of at least 1, the products are the catalog slice `[(page-1)*limit, page*limit)`, clamped to the catalog |
| Catalog.PagesUpToIsPrefix | backend/server.js:128-141 | pages `1..k` of size `limit`, concatenated, are the first `min(k*limit, total)` products |
| Catalog.EveryProductListedOnce | backend/server.js:128-141 | walking pages `1..pages` of a listing yields the whole catalog once, in order; every page after `pages` is empty |
| Catalog.FindById | backend/server.js:158 | `find` gives nothing exactly when no product has the id; otherwise it gives the first product with that id |
| Catalog.GetProduct | backend/server.js:149-167 | 400 "Invalid product ID" exactly when the id is `NaN` or not positive; 404 "Product not found" exactly when a valid id matches nothing; a valid id that matches is answered with the first product with that id |
| LoginRoute.Status | backend/server.js:111-121 | a reply has a status below 400 exactly when it issues a token |
| LoginRoute.ExpiresIn | backend/server.js:109 | the lifetime is the environment's value when set, and "2h" when it is unset; never empty |
| LoginRoute.HandleLogin | backend/server.js:89-122 | a token is issued exactly for the demo email and password as strings; it holds the demo user's claims and lifetime; a non-string field gives 400 "Invalid input format"; any other mismatch gives 401 "Invalid credentials" |
| LoginRoute.ValidateThenHandle | backend/server.js:68-86 | a failed validation gives 400 "Validation failed" before the handler runs; a passed one gives the handler's reply |
| LoginRoute.MismatchIsIndistinguishable | backend/server.js:97-121 | a wrong email and a wrong password get the same reply |
| LoginThrottle.Live | backend/server.js:53-61 | a window stays in force until its reset time; after that, a fresh empty window of 60 s starts |
| LoginThrottle.Step | backend/server.js:53-61 | a request is let through exactly when its live window has counted fewer than 5 requests; it stays counted unless let through and answered below 400 |
| LoginThrottle.ChainReply | backend/server.js:89 | the limiter runs before validation and the handler: a spent window gives the limiter's 429 "Too many login attempts, please try again later." whatever is behind it, otherwise the reply behind it; the window keeps its reset time and gains one count unless the reply behind it passes and is below 400 |
| LoginThrottle.FailureBudgetOfLiveWindow | backend/server.js:53-61 | a live window that has counted `h` requests lets at most `5 - h` more failed requests through |
| LoginThrottle.FailureBudgetPerWindow | backend/server.js:53-61 | within one window length of a request that opens a fresh window, at most 5 failed requests get through |
| LoginThrottle.BoundaryBurst | backend/server.js:53-61 | the budget is per fixed window, not per any 60 s span: after a success at 0 ms opens a window, five failures at 59000-59004 ms and five at 60000-60004 ms all get through, ten within about a second |
| LoginThrottle.RunOfFailures | backend/server.js:53-61 | failures arriving in a live window that has room for all of them all get through, and each one is counted |
| LoginThrottle.SuccessesAreNeverThrottled | backend/server.js:59-60 | a window with room lets every successful request of a run through |
| LoginThrottle.FailuresExhaustWindow | backend/server.js:53-61 | while failures fill a live window, exactly the first `5 - h` requests get through and every later one is refused |
| LoginThrottle.SixthAttemptRefused | backend/server.js:52-56 | five failed logins within a minute are let through; the sixth is refused whatever its credentials |
| LoginThrottle.LoginLimiter.constructor | backend/server.js:53 | the limiter starts with no windows |
| LoginThrottle.LoginLimiter.Login | backend/server.js:89 | the reply and the client's new window are `ChainReply` of its old window and the validated handler's reply; only the requesting client's window changes |
| JwtGate.BearerToken | backend/server.js:199-203 | a token exists exactly when the header starts with "Bearer "; the header is then that prefix followed by the token |
| JwtGate.BearerRoundTrip | frontend/src/api.js:67 | the header the client builds from a token gives back exactly that token |
| JwtGate.Authenticate | backend/server.js:196-218 | the chain continues exactly when the bearer token decodes, with the decoded claims as the user; otherwise 401 with the message for a missing header, an expired token, an invalid token or any other failure |
| JwtGate.JwtMiddleware | backend/server.js:196-218 | `next` is called exactly when `Authenticate` lets the request through; only then is `req.user` set, to the claims; otherwise the denial carries the status and message |
| JwtGate.VerifyErrorMessage | backend/server.js:209-216 | each message names exactly one way verification fails: "Token expired", "Invalid token", or "Authentication failed" for any other |
| JwtGate.Request.constructor | backend/server.js:196-197 | a request carries its `Authorization` header and no `user` yet |
| JwtGate.UserProfile | backend/server.js:181-193 | "Unauthorized: Valid token required" exactly when the claims are absent or carry a falsy id; otherwise the id and email of the claims, and the name or "Demo User" |
| JwtGate.QueryUserProfile | backend/server.js:221-228 | every denial of the middleware reaches the client as that HTTP error (401 for a missing header); a token that decodes to claims with a truthy id yields the resolver's profile; one with a falsy id yields the GraphQL error "Unauthorized: Valid token required"; data comes only this way |
| JwtGate.ProfileOnlyForVerifiedToken | backend/server.js:221-228 | profile data is returned only when the verifier decoded the request's bearer token, and it is built from those claims |
| JwtGate.LoginThenProfile | backend/server.js:101-110 | with a verifier that decodes what the signer issued, the token from a demo login yields the demo user's profile |
| JwtGate.VerifiedTokenGivesProfile | backend/server.js:181-228 | a bearer token the verifier decodes to claims with a truthy id yields those claims' id and email, and their name or "Demo User" |
| JwtGate.ExpiredIsNotInvalid | backend/server.js:210-211 | an expired token is answered 401 "Token expired" |
| Cart.SumQtyBoundsLines | frontend/src/CartContext.js:122 | the number of items (`SumQty`) is 0 for an empty cart; with non-negative quantities it is non-negative and at least every line's quantity |
| Cart.Reduce | frontend/src/CartContext.js:10-62 | `ADD` leaves a line with the id, adding one exactly when the id is new; `REMOVE` and `UPDATE_QTY` to 0 or below leave no line with the id and never add lines; a positive `UPDATE_QTY` keeps the number of lines; an unknown action changes nothing |
| Cart.MapLines | frontend/src/CartContext.js:17-24 | `map` keeps the length and applies the function at every position |
| Cart.FilterLines | frontend/src/CartContext.js:38 | `filter` keeps exactly the lines the predicate accepts |
| Cart.AddExistingMerges | frontend/src/CartContext.js:13-25 | `ADD` of an id already in the cart raises that line by `qty`, capped at 999; every other line is unchanged |
| Cart.AddNewAppends | frontend/src/CartContext.js:27-33 | `ADD` of a new id appends one line at the end, with the capped quantity |
| Cart.RemoveDeletesExactly | frontend/src/CartContext.js:35-39 | `REMOVE` keeps exactly the lines with other ids; a cart without the id is unchanged |
| Cart.RemoveTakesOutOneLine | frontend/src/CartContext.js:35-39 | with distinct ids, `REMOVE` cuts the one matching line out and keeps the order of the rest |
| Cart.UpdateQtySetsOrRemoves | frontend/src/CartContext.js:40-54 | `UPDATE_QTY` to 0 or below acts as `REMOVE`; otherwise it sets the matching line to the capped quantity and changes nothing else |
| Cart.ClearLoadUnknown | frontend/src/CartContext.js:55-60 | `CLEAR` empties the cart; `LOAD_CART` installs the loaded list, or an empty one; an unknown action changes nothing |
| Cart.ReduceKeepsInvariant | frontend/src/CartContext.js:10-62 | every action keeps ids distinct and quantities at most 999; for `LOAD_CART` this needs the loaded list to have the property |
| Cart.AddGrowsCountByAtMost | frontend/src/CartContext.js:12-34 | with distinct ids, `ADD` grows the item count by at most `qty` |
| Cart.AddAllowed | frontend/src/CartContext.js:86-96 | `add` dispatches exactly for a present item with a non-zero id when the cart's item count plus `qty` is at most 1000 |
| Cart.AddCommand | frontend/src/CartContext.js:85-104 | `add` leaves the cart unchanged for a missing item, a falsy id, or a `qty` that would exceed 1000 items; otherwise it dispatches `ADD`; it keeps the cart invariant; for a cart whose ids are distinct, a dispatched `add` ends within 1000 items and a cart of at most 1000 items never passes 1000 |
| Cart.UpdateQuantityIgnoresTotalLimit | frontend/src/CartContext.js:110-112 | `updateQuantity` has no cart-wide check: a cart holding exactly 1000 items can reach 1998 |
| Cart.CartProvider.constructor | frontend/src/CartContext.js:65 | the cart starts empty |
| Cart.CartProvider.ItemCount | frontend/src/CartContext.js:122 | `itemCount`: 0 for an empty cart; with non-negative quantities, at least every line's quantity |
| Cart.CartProvider.Add | frontend/src/CartContext.js:85-104 | the items become `AddCommand` of the old items; the invariant is kept; an item count within 1000 stays within 1000 |
| Cart.CartProvider.Remove | frontend/src/CartContext.js:106-108 | the items become the reducer's `REMOVE` of the old items; the invariant is kept |
| Cart.CartProvider.UpdateQuantity | frontend/src/CartContext.js:110-112 | the items become the reducer's `UPDATE_QTY` of the old items; the invariant is kept |
| Cart.CartProvider.Clear | frontend/src/CartContext.js:114-116 | the items become empty |
| Auth.AfterLogout | frontend/src/AuthContext.js:78-83 | logout leaves no token, no user, no error and no stored token; `loading` is unchanged |
| Auth.AfterClearError | frontend/src/AuthContext.js:85-87 | the error is cleared and nothing else changes |
| Auth.AfterLogin | frontend/src/AuthContext.js:49-76 | login ends with `loading` off; it succeeds exactly when the data carries a truthy token, which is then held and stored, with the user replaced when the data has one; a failure keeps the session; a throw sets its message or "Login failed" |
| Auth.AfterLoadProfile | frontend/src/AuthContext.js:19-47 | without a token nothing changes; a returned profile replaces the user; a 401 logs out; any other error changes only `loading`; `loading` ends off |
| Auth.LogoutForgetsSession | frontend/src/AuthContext.js:78-83 | logout is idempotent, and a profile load after logout does nothing |
| Auth.RejectedProfileLogsOut | frontend/src/AuthContext.js:38-43 | a successful login followed by a profile rejected with 401 ends fully logged out |
| Auth.AuthProvider.constructor | frontend/src/AuthContext.js:7-10 | the token is read back from storage; no user, no error, not loading |
| Auth.AuthProvider.Logout | frontend/src/AuthContext.js:78-83 | the state becomes `AfterLogout` of the old state |
| Auth.AuthProvider.ClearError | frontend/src/AuthContext.js:85-87 | the state becomes `AfterClearError` of the old state |
| Auth.AuthProvider.Login | frontend/src/AuthContext.js:49-76 | the state and the result are `AfterLogin` of the old state and of what the API answers to these credentials |
| Auth.AuthProvider.LoadUserProfile | frontend/src/AuthContext.js:19-47 | the state becomes `AfterLoadProfile` of the old state |
| LoginForm.TrimStart | frontend/src/components/Login.js:22 | the result is a suffix of the input, everything cut is white space, and it does not start with white space |
| LoginForm.TrimEnd | frontend/src/components/Login.js:27 | the result is a prefix of the input, everything cut is white space, and it does not end with white space |
| LoginForm.Trim | frontend/src/components/Login.js:22 | a non-empty trimmed field neither starts nor ends with white space |
| LoginForm.TrimSlice | frontend/src/components/Login.js:22 | `trim` returns the slice of the field between its leading and its trailing white space, and everything cut on either side is white space |
| LoginForm.TrimEmptyIffBlank | frontend/src/components/Login.js:22-30 | a trimmed field is empty exactly when every character is white space |
| LoginForm.Utf16Length | frontend/src/components/Login.js:37 | `length` counts UTF-16 code units: between the character count and twice it, equal to it without characters beyond the basic plane |
| LoginForm.Validate | frontend/src/components/Login.js:21-40 | each of the four messages is given exactly when its check is the first to fail, in order: email blank, password blank, no `@` in the email, password shorter than 6; none is given exactly when all pass |
| LoginForm.InitialValuesPass | frontend/src/components/Login.js:6-7 | the form's initial values pass every check |
| LoginForm.PaddingCountsTowardsLength | frontend/src/components/Login.js:27-40 | the length check counts white space that the emptiness check ignores |
| LoginForm.LoginPage.constructor | frontend/src/components/Login.js:6-8 | the form starts with the demo email, the demo password and no message |
| LoginForm.LoginPage.DisplayError | frontend/src/components/Login.js:50 | the page's own message is shown when it is non-empty, otherwise the provider's error |
| LoginForm.LoginPage.HandleSubmit | frontend/src/components/Login.js:18-48 | a failed check sets its message and leaves the provider untouched; otherwise the message is cleared, the provider logs in with the fields as typed, and the page navigates exactly when that login succeeds; the page's message is then the check's message or empty |
| ProductDetailView.OnQuantityChange | frontend/src/components/ProductDetail.js:39-44 | a parsed value from 1 to 999 becomes the quantity; anything else, `NaN` included, keeps it; the range is preserved |
| ProductDetailView.SelectorStaysInRange | frontend/src/components/ProductDetail.js:39-44 | after any sequence of edits, the quantity is still from 1 to 999 |
| ProductDetailView.ProductDetail.constructor | frontend/src/components/ProductDetail.js:8-11 | the page holds the loaded product, with quantity 1 |
| ProductDetailView.ProductDetail.HandleQuantityChange | frontend/src/components/ProductDetail.js:39-44 | the quantity becomes `OnQuantityChange` of the old one; it stays from 1 to 999 |
| ProductDetailView.ProductDetail.HandleAddToCart | frontend/src/components/ProductDetail.js:32-37 | with a product shown, the cart becomes `add(product, quantity)` of the old cart and the quantity goes back to 1; without one, nothing changes; the cart invariant and the 1000-item cap are kept |
| Storefront.OverHttp | frontend/src/api.js:14-47 | a 2xx login reply becomes the data; an error reply is thrown with its `error`, or with "Request failed" when that is empty; no reply at all is thrown as a network error |
| Storefront.Backend | backend/server.js:89 | what `api.login` settles to, with `LoginThrottle.ChainReply` as the server side: the limiter's message when the client's window is spent; otherwise "Validation failed" when the validator rejects; otherwise the handler's reply through the request wrapper |
| Storefront.InitialFormLogsIn | frontend/src/components/Login.js:42-47 | for a limiter with room and a validator that accepts the demo credentials unchanged, submitting the form as it first appears logs the demo user in: the token the route signed is held and stored, and no error remains |
| Storefront.WrongCredentialsSetServerError | backend/server.js:121 | for a limiter with room and credentials the validator accepts unchanged, any pair other than the demo one makes `login` return false, keeps the session, and sets the provider's `error` to "Invalid credentials" when `login` returns |
| Storefront.RejectedByValidatorSetsValidationFailed | backend/server.js:76-83 | for a limiter with room, credentials the validator rejects make `login` return false, keep the session, and set the provider's `error` to "Validation failed" when `login` returns |
| Storefront.ThrottledLoginSetsLimitMessage | backend/server.js:53-56 | when the client's window is spent, any login, the demo credentials included, returns false, keeps the session, and sets the provider's `error` to the limiter's message when `login` returns |

## Left out

- Cryptography: `jwt.sign` and `jwt.verify` are parameters. Signatures, the secret and expiry times are not modelled. `JwtGate.LoginThenProfile` assumes the verifier accepts what the signer issued.
- The clock: the limiter takes the time as an argument.
- LoginThrottle.FailureBudgetPerWindow: the budget of 5 failures holds per fixed window, the one opened by the client's first request after a reset, not per any 60 s span. Failures on both sides of a reset can reach 10 within about a second, as `LoginThrottle.BoundaryBurst` shows; the limiter is a fixed-window counter, not a sliding window.
- `LoginThrottle.Step`: only the limiter's configuration appears in the source. The counting rules follow the library's in-memory fixed-window store and are an abstraction:
  - a request is counted before the decision;
  - a response below 400 takes its count back.
  The model does not capture:
  - the 429 status and the rate-limit headers, which are library defaults;
  - the store's timers;
  - concurrent requests that interleave between counting and decrementing;
  - how the client key is derived from the request.
- Storefront.Backend: the validator's verdict is an input and the handler sees the email as typed. `normalizeEmail` is not modelled, so an email it would rewrite ("USER@EXAMPLE.COM" to the demo email, say) is not followed; the login lemmas hold for credentials the validator accepts unchanged.
- `LoginRoute.ValidateThenHandle`: `express-validator` is an oracle verdict. `isEmail`, `normalizeEmail` (which can rewrite the email seen by the handler) and the `details` array are not modelled.
- Server plumbing is not modelled: static files, the health check, CORS, helmet, the body parser, the global error handler, and the `try`/`catch` 500 branches of the product routes. No exception arises in the model.
- `parseInt` itself (prefix parsing, `"2.5"` giving 2) is not modelled: the parsed value is the input.
- Prices are real numbers. The cart's money total, which uses floating point, is not modelled.
- The loading of `products.json` is not modelled: the catalog is a parameter.
- `JwtGate.UserProfile`: the claims' `id` is an integer. GraphQL serialisation is not modelled: `ID!` as a string, non-null checks on `email` and `name`, and the formatted error list.
- Cart persistence is not modelled: local storage, `JSON.parse`, the mount effect that dispatches `LOAD_CART`, and the save effect.
- `Cart.CartProvider.Add`: `!item.id` is modelled as "the id is 0". A product always has an integer id. The default `qty = 1` is not modelled; callers pass a quantity.
- React is not modelled:
  - rendering and effect scheduling;
  - batching of state updates;
  - each `await`, which is collapsed into one step;
  - stale closures, such as `add` reading `state.items` from an earlier render.
- The login page's effect that clears both errors (frontend/src/components/Login.js:13-16) is not modelled. It depends on effect scheduling and on the identity of `clearError`. It does not only run when an input changes: `clearError` is a new function on every render of the provider (frontend/src/AuthContext.js:85-87), so the effect re-runs after every provider render and clears the provider's `error` right after a failed `login` sets it. The model's lemmas state the provider's `error` as `login` leaves it, not what stays on screen.
- The effect that starts `loadUserProfile` when the token changes is not modelled. `Auth.AuthProvider.LoadUserProfile` is the transition itself, with the query's outcome as input.
- `loadProduct` and the product page's loading and error states are not modelled. `ProductDetailView.ProductDetail.constructor` takes the loaded product.
- The product list page, the cart page and routing are UI only and are not modelled.
- `Storefront.OverHttp` models only the login request. The other requests go through the same wrapper but are not modelled; their outcomes are inputs to the provider.
