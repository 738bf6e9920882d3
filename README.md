# phstore-backend in Dafny

A model of the request-handling core of the phstore shop backend, an
Express and Prisma service with a product catalogue, product kits, search,
shipping quotes, orders paid through Stripe, likes, users with bearer
tokens, and a shared error, validation and logging layer.

Each core source file is one Dafny module:

- Database tables are sequences of rows, or maps keyed by id.
- A Prisma query is modelled as a filter, then a stable sort, then a take.
- Pure request logic is written as functions.
- Code that changes stored state is written as a class with `modifies` clauses. This covers the order store, the user table, the like table, the product view counter, the environment cache, the response headers and the request object.
- Loops in the source are methods with loop invariants, each proved equal to a specification function.
- The outside world is passed in as parameters:
  - the ViaCEP address service is a map from formatted zipcodes to replies;
  - Stripe's signature check, bcrypt, uuid and `randomUUID` are parameters;
  - the image path and base-URL constants are parameters.

Shared helper modules:

- `Wrappers`: the Option and Result types.
- `Strings`: ECMAScript whitespace, trim, ASCII case mapping, split and join.
- `JsNumbers`: decimal `toString`, JavaScript `parseInt` and `Math.round`.
- `JsValues`: JSON values and truthiness.
- `Sorting`: stable sort by a key, take, Prisma's signed take, filter.

## Model

| member | source | states |
|---|---|---|
| Products.FindProduct | src/services/product.ts:82-94 | the row found has the requested id; nothing is found exactly when no row has it |
| Products.FindProductAt | src/services/product.ts:82-83 | with unique ids, looking up a row's id finds that row |
| Products.ProductOrderOf | src/services/product.ts:14-27 | "selling" orders by sales, "price" by price, and any other value or none orders by views |
| Products.SortedByRank | src/services/product.ts:14-27 | a listing sorted on the order's key is in that order: views and sales descending, price ascending |
| Products.SplitValues | src/services/product.ts:36-39 | the value ids are exactly the non-empty trimmed pieces of the value between `\|` separators |
| Products.SplitValuesClean | src/services/product.ts:36-39 | every value id is non-empty, contains no `\|` and has no surrounding whitespace |
| Products.SplitValuesSingle | src/services/product.ts:36-40 | a value without a separator gives its trimmed self, or no id when it is blank |
| Products.FiltersOfEntriesSound | src/services/product.ts:33-50 | every metadata filter comes from a string-valued entry with that key and has at least one value id |
| Products.FiltersOfEntriesComplete | src/services/product.ts:33-50 | every string-valued entry with at least one value id contributes its filter |
| Products.BuildMetaFilters | src/services/product.ts:31-54 | the loop collects exactly the filters of a plain metadata object; null, arrays and scalars give none |
| Products.LowestIdImage | src/services/product.ts:61-67 | no image exactly when the product has none; otherwise one of its images with the lowest id |
| Products.ProductQuerySpec | src/services/product.ts:56-72 | every returned row matches all filters, in the requested order; with a limit, as many rows as the limit allows or as match, and no matching row left out comes before one returned; with no limit, every matching row as often as it is stored |
| Products.ProductQueryTakesBest | src/services/product.ts:56-72 | with a limit the query returns as many matching rows as the limit allows or as exist, and no matching row left out comes before one returned |
| Products.GetAllProducts | src/services/product.ts:11-79 | the listing is the query over the built filters and chosen order, each row shaped; never more than `limit` items |
| Products.ListItemImage | src/services/product.ts:74-78 | a list item has no image exactly when the product has none; otherwise the image path plus the URL of its lowest-id image |
| Products.GetProduct | src/services/product.ts:81-103 | null exactly when no product has the id; otherwise that product's fields with every image URL prefixed, in stored order |
| Products.FindCategory | src/services/product.ts:115-121 | the category found has the id; nothing exactly when none has it |
| Products.GetProductWithCategory | src/services/product.ts:105-141 | null exactly when getProduct gives null; otherwise the same detail and the product's own category |
| Products.RelatedProductsTakeBest | src/services/product.ts:160-188 | for a known product, as many related products as the limit allows or as exist, and none left out has more views than one returned |
| Products.RelatedProductsSpec | src/services/product.ts:152-188 | nothing for an unknown id; otherwise other products of the same category, most viewed first, as many as `limit` allows or as exist, and no product of the category left out has more views than one returned |
| Products.WithViewIncremented | src/services/product.ts:143-150 | the table keeps its length; the rows with that id gain exactly one view, the others none, and no other column changes |
| Products.IncrementKeepsDetails | src/services/product.ts:143-150 | counting a view changes no product's detail |
| Products.ProductTable.IncrementProductView | src/services/product.ts:143-150 | the view count of the product with that id goes up by one and nothing else changes |
| Kits.KitOrderOf | src/services/kits.ts:12-25 | "price" orders cheapest first, "newest" newest first, and any other value or none by discount |
| Kits.KitImage | src/services/kits.ts:62-62 | a kit image exists exactly when the kit has a non-empty image name, and is the kit folder plus that name |
| Kits.KitQuerySpec | src/services/kits.ts:27-58 | only active kits are listed, in the requested order; with a limit, as many as the limit allows or as are active, and no active kit left out comes before one listed; with no limit, every active kit |
| Kits.KitQueryTakesBest | src/services/kits.ts:27-58 | with a limit, as many active kits as the limit allows or as exist, and no active kit left out comes before one listed |
| Kits.SummaryShape | src/services/kits.ts:60-71 | a summary keeps the kit's id, slug and image rule, and each product keeps its quantity and lowest-id image |
| Kits.GetAllKitsSpec | src/services/kits.ts:9-72 | getAllKits gives one summary per queried kit, in the query's order, each keeping the kit's id, slug and image rule and its products' ids, quantities and first images; so at most `limit` summaries, each from an active stored kit |
| Kits.FindKit | src/services/kits.ts:75-76 | the kit found is active and matches the id or slug; nothing exactly when no active kit matches |
| Kits.DetailShape | src/services/kits.ts:115-126 | each product of a kit detail lists all its images in ascending id order, prefixed, with the first as the main image |
| Kits.KitLookupSpec | src/services/kits.ts:74-182 | getKitById and getKitBySlug give null exactly when no active kit has that id or slug; otherwise a detail shaped from such a kit |
| Search.SearchLimit | src/controllers/search.ts:10-10 | the limit is never 0; with no parameter, an unparsable one (`NaN`) or one that parses to 0 it is 10; otherwise it is the parsed integer, negative ones included |
| Search.SearchLimitOfNumber | src/controllers/search.ts:10-10 | a positive number written in decimal is used as the limit |
| Search.FirstImageUrl | src/controllers/search.ts:89-96 | a product image exists exactly when the first image has a non-empty URL; it is the base URL, a slash, the product folder and that URL |
| Search.KitImageUrl | src/controllers/search.ts:106-106 | a kit image exists exactly when the kit's image name is non-empty; it is the base URL, a slash, the kit folder and that name |
| Search.SearchHandler | src/controllers/search.ts:7-126 | a missing query, or one shorter than two characters once trimmed, gives empty lists and total 0; otherwise the found products and kits for the trimmed, lower-cased term, each shaped in order; the total is the number of products plus the number of kits |
| Search.FoundProductsSpec | src/controllers/search.ts:19-39 | found products are stored products whose title contains the term, ignoring case, best selling first; there are as many as the limit's magnitude allows or as match, all of them when they fit; a positive limit keeps the best sellers (no match left out sold more than one kept), a negative one the worst |
| Search.FoundProductsTake | src/controllers/search.ts:19-39 | `take` keeps as many matches as the limit's magnitude allows, all when they fit, and the best sellers for a positive limit, the worst for a negative one |
| Search.FoundKitsSpec | src/controllers/search.ts:42-86 | found kits are active stored kits whose title or description contains the term; there are as many as the limit's magnitude allows or as match, all of them when they fit; the first matches in stored order for a positive limit, the last ones for a negative limit |
| Search.SearchProductsMatch | src/controllers/search.ts:16-39 | every product in a response is shaped from a product whose title contains the trimmed, lower-cased query |
| Shipping.FormatZipcode | src/services/shipping.ts:49-51 | the result has only digits; it keeps every digit of the input; it is no longer than the input |
| Shipping.FormatZipcodeOfDigits | src/services/shipping.ts:49-51 | a zipcode made only of digits is unchanged |
| Shipping.FormatZipcodeIdempotent | src/services/shipping.ts:49-51 | formatting twice is the same as formatting once |
| Shipping.FormatZipcodeAppend | src/services/shipping.ts:49-51 | formatting works piece by piece, so the digits stay in order |
| Shipping.GetAddressFromZipcode | src/services/shipping.ts:56-80 | an address is found exactly when the formatted zipcode has eight digits, the service answers and the reply is not flagged `erro`; it is that reply |
| Shipping.AddressIgnoresFormatting | src/services/shipping.ts:56-63 | a formatted zipcode finds the same address as the zipcode as typed |
| Shipping.GetShippingZone | src/services/shipping.ts:85-94 | a state is in a zone exactly when its upper-cased form is in that zone's list; the default zone covers the rest |
| Shipping.ZonesDisjoint | src/services/shipping.ts:26-35 | no state is listed in two zones |
| Shipping.ZoneIgnoresCase | src/services/shipping.ts:85-86 | the zone does not depend on the letter case of the state |
| Shipping.CalculateShipping | src/services/shipping.ts:99-120 | null exactly when no address is found; otherwise the rate of the address's state, with its city and state |
| Shipping.QuoteIsListed | src/services/shipping.ts:37-44 | every quote is one of the five listed rates and costs at least 7 and takes at least 3 days; the cheapest rate is for Southeast states only |
| Shipping.SaoPauloQuote | src/services/shipping.ts:85-115 | an address in SP, written in any case, ships for 7 in 3 days |
| Orders.ItemFor | src/services/order.ts:16-25 | a cart line gives one item exactly when getProduct finds its product |
| Orders.KeptItemsAppend | src/services/order.ts:15-26 | the items of two carts put together are the items of each, in cart order |
| Orders.KeptItemsSingle | src/services/order.ts:16-25 | a line is kept exactly when its product exists; the item has the product's id and price and the line's quantity |
| Orders.KeptItemsSnapshot | src/services/order.ts:15-26 | every item comes from a cart line and carries the price its product had |
| Orders.AllMissingKeepsNothing | src/services/order.ts:12-26 | a cart whose products are all missing gives no items and a subtotal of 0 |
| Orders.SubtotalAppend | src/services/order.ts:18-18 | the subtotal of two item lists together is the sum of their subtotals |
| Orders.CollectOrderItems | src/services/order.ts:12-26 | the loop returns the kept items and their subtotal, the sum of price times quantity |
| Orders.NewOrder | src/services/order.ts:28-45 | the new order has the given id and user and no status; its total is the subtotal plus shipping; it keeps the shipping cost and days, a copy of every address field and the items |
| Orders.WithStatus | src/controllers/webhook.ts:32-41 | setting a status keeps the same order ids and changes no other order |
| Orders.WithStatusIdempotent | src/controllers/webhook.ts:32-41 | setting a status again changes nothing; the last status set wins |
| Orders.OrderStore.CreateOrder | src/services/order.ts:5-49 | inserts one new order under a fresh id, built from the kept items, and returns that id |
| Orders.OrderStore.UpdateOrderStatus | src/controllers/webhook.ts:35-39 | the stored orders become those with the status set on the given order |
| StripeCheckout.Centavos | src/lib/stripe.ts:27-27 | the unit amount is within half a centavo of the price times 100 |
| StripeCheckout.ShippingLines | src/lib/stripe.ts:33-44 | a shipping line is added exactly when the shipping cost is positive |
| StripeCheckout.ProductLinesFailureSticks | src/lib/stripe.ts:15-19 | once a missing product is met, the rest of the cart does not change the error |
| StripeCheckout.ProductLinesOkIff | src/lib/stripe.ts:14-31 | the product lines succeed exactly when every cart line's product exists |
| StripeCheckout.ProductLinesValues | src/lib/stripe.ts:14-31 | on success there is one line per cart line, in cart order, with that product's name, its price in centavos and the cart quantity |
| StripeCheckout.ProductLinesFailure | src/lib/stripe.ts:14-19 | a failure carries the message naming the first cart line whose product is missing |
| StripeCheckout.ProductLinesSpec | src/lib/stripe.ts:14-31 | succeeds exactly when every product exists, with one line per cart line giving the product name, centavos and quantity; otherwise the error names the first missing product |
| StripeCheckout.CheckoutLineItemsShape | src/lib/stripe.ts:14-44 | the product lines come first, and then one "Frete" line of quantity 1 when shipping is charged |
| StripeCheckout.BuildLineItems | src/lib/stripe.ts:14-44 | the loop, stopping at the first missing product, returns exactly the checkout line items |
| StripeCheckout.CreateStripeCheckoutSession | src/lib/stripe.ts:9-55 | fails exactly when a product is missing, with its message; otherwise a payment session with the line items, the order id as text, and the success and cancel pages |
| StripeCheckout.GetConstructEvent | src/lib/stripe.ts:57-68 | no event exactly when the provider's check raises; otherwise the provider's event |
| Webhook.StatusForEvent | src/controllers/webhook.ts:32-41 | "paid" for completed and async-succeeded sessions, "cancelled" for expired and async-failed ones, none for any other type |
| Webhook.OrderIdOf | src/controllers/webhook.ts:25-30 | an id is accepted exactly when the metadata text (empty when absent) parses to a positive integer, and it is that integer |
| Webhook.GuardsInOrder | src/controllers/webhook.ts:9-30 | a missing signature, then a failed check, then a bad order id each give their 400 and no update; the handler answers received exactly when all three pass |
| Webhook.DispatchOnType | src/controllers/webhook.ts:32-43 | an accepted event marks its order paid or cancelled according to its type; any other type makes no update |
| Webhook.OrderIdRoundTrip | src/controllers/webhook.ts:25-25 | the decimal text of a positive id is read back as that id |
| Webhook.SessionMetadataReachesWebhook | src/controllers/webhook.ts:18-43 | a verified event for a session created for an order updates exactly that order |
| Webhook.RedeliveryIsIdempotent | src/controllers/webhook.ts:32-41 | delivering the same event twice leaves the orders as delivering it once |
| Webhook.StripeWebhook | src/controllers/webhook.ts:7-48 | every rejection is a 400 with no update; an update is made only with a received answer, for a positive order id |
| Webhook.HandleStripeWebhook | src/controllers/webhook.ts:7-48 | answers as the decision says and applies exactly its update to the stored orders |
| Cart.MountedImage | src/controllers/cart.ts:23-25 | the image exists exactly when the first image path is non-empty, and is the absolute URL of it |
| Cart.MountOne | src/controllers/cart.ts:17-27 | an id gives one product exactly when a stored row has that id, and nothing otherwise |
| Cart.MountedProductsAppend | src/controllers/cart.ts:16-28 | mounting works id by id, so the order and repetitions of the ids are kept |
| Cart.MountedProductsExist | src/controllers/cart.ts:16-28 | every mounted product was asked for and is a stored product with that title and price |
| Cart.MountSingle | src/controllers/cart.ts:17-27 | an id with a product is mounted as that product; an id without one is skipped |
| Cart.CartMount | src/controllers/cart.ts:7-35 | 400 "Invalid parameters" for a rejected body; otherwise the products mounted from the ids |
| Cart.CalculateShippingEndpoint | src/controllers/cart.ts:37-50 | 400 "Invalid parameters" exactly when the query is rejected; otherwise the zipcode echoed with cost 7 and 3 days |
| Cart.FixedQuoteIsSoutheastRate | src/controllers/cart.ts:37-50 | the route echoes the zipcode with the Southeast rate; the shipping service agrees on cost only for Southeast states |
| Likes.Toggled | src/controllers/like.ts:35-50 | the pair is present after a toggle exactly when it was absent before; every other pair is unchanged |
| Likes.ToggleTwice | src/controllers/like.ts:35-50 | toggling twice restores the likes |
| Likes.ToggleTarget | src/controllers/like.ts:8-24 | in order: 401 without a user, 400 for a non-numeric id, 404 for an unknown product; otherwise the user and product pair |
| Likes.LikedBy | src/controllers/like.ts:64-69 | a product id is listed exactly when the user likes it |
| Likes.ToggleChangesOneLike | src/controllers/like.ts:35-50 | a toggle changes the user's likes by exactly that product and leaves other users' likes alone |
| Likes.LikeTable.ToggleLike | src/controllers/like.ts:6-55 | a refused request changes nothing; otherwise the pair is removed ("Like removed") or added ("Like added") |
| Likes.LikeTable.CheckLike | src/controllers/like.ts:78-104 | 401 without a user, 400 for a non-numeric id; otherwise liked exactly when the pair is stored |
| Likes.LikeTable.GetUserLikes | src/controllers/like.ts:57-76 | 401 without a user; otherwise exactly the product ids the user likes |
| Likes.ToggleThenCheck | src/controllers/like.ts:78-99 | after a successful toggle, checkLike reports the new state |
| Users.FindByEmail | src/services/user.ts:12-14 | the user found has that email; nothing exactly when no user has it |
| Users.GetUserByToken | src/services/user.ts:48-52 | the id returned belongs to a user holding the token; null exactly when nobody holds it |
| Users.GetUserByTokenAt | src/services/user.ts:48-52 | with unique tokens, looking up a user's token gives that user's id |
| Users.WithTokenSpec | src/services/user.ts:39-43 | handing an unused token to one user keeps users unique, makes the token find that user, and changes no one else |
| Users.UserTable.CreateUser | src/services/user.ts:6-29 | a taken lower-cased email gives null and adds nothing; otherwise one user is added with the lower-cased email and hashed password, and returned without the password |
| Users.UserTable.LoginUser | src/services/user.ts:31-46 | an unknown email or a wrong password gives null and changes nothing; otherwise the user's token is replaced by the fresh one, which is returned |
| Users.UserTable.CreateAddress | src/services/user.ts:54-61 | one address is stored under the given user and returned |
| Users.EmailCaseCollides | src/services/user.ts:11-15 | once an email is registered, the same email in another letter case is found as taken |
| Auth.TokenOf | src/middleware/auth.ts:13-13 | the header is the prefix followed by the token |
| Auth.Authenticate | src/middleware/auth.ts:5-19 | proceeds exactly when the header starts with "Bearer " and its token belongs to a user with a non-zero id, and then with that id; otherwise 401 "Access denied" |
| Auth.LoginTokenAuthenticates | src/middleware/auth.ts:9-17 | the token handed out at login lets that user through |
| Auth.LowerCaseSchemeDenied | src/middleware/auth.ts:9-11 | a lower-case "bearer " scheme is refused |
| Auth.AuthMiddleware | src/middleware/auth.ts:5-19 | on success sets the user id and calls next once; otherwise answers 401 and does neither |
| AppErrors.NewAppError | src/lib/errors.ts:11-19 | keeps message, status and code; operational unless false is passed |
| AppErrors.NewError | src/lib/errors.ts:25-95 | each subclass has its fixed status and its default message and code when none is given; only the internal server error is not operational; only the validation error keeps `errors` |
| AppErrors.KindsAreDistinct | src/lib/errors.ts:22-95 | statuses and default codes are different for different kinds; every status is 4xx or 5xx; only the internal and unavailable errors are 5xx |
| AppErrors.DefaultsOf | src/lib/errors.ts:25-95 | an error built without message and code has its kind's defaults |
| ErrorHandling.FieldOf | src/middleware/errorHandler.ts:29-29 | a one-step path gives that key's text |
| ErrorHandling.FieldNamesPath | src/middleware/errorHandler.ts:29-29 | the dotted field splits back into the path's keys when no key contains a dot |
| ErrorHandling.IssueDetailsOf | src/middleware/errorHandler.ts:28-31 | one detail per issue, in order, with its dotted path and message |
| ErrorHandling.AppDetails | src/middleware/errorHandler.ts:48-51 | details are present exactly for a validation error with truthy `errors`, and are those errors |
| ErrorHandling.ErrorHandler | src/middleware/errorHandler.ts:21-98 | a schema failure answers 422 at warn level; an application error answers with its own status, code and message; anything else answers 500 with no details; error level exactly for unknown and non-operational errors |
| ErrorHandling.ZodFailureResponse | src/middleware/errorHandler.ts:23-37 | a schema failure answers 422 VALIDATION_ERROR "Validation failed" at warn level, listing every issue in order |
| ErrorHandling.SubclassResponse | src/middleware/errorHandler.ts:40-77 | an application error answers with its kind's status and its code and message; warn level except for the internal server error |
| ErrorHandling.UnknownErrorResponse | src/middleware/errorHandler.ts:79-97 | any other error answers 500 INTERNAL_ERROR at error level; its message is hidden only in production |
| ErrorHandling.ErrorStatusesAreErrors | src/middleware/errorHandler.ts:21-98 | every status the handler answers with is 4xx or 5xx |
| ErrorHandling.NotFoundHandler | src/middleware/errorHandler.ts:104-114 | 404 NOT_FOUND at warn level, naming the method and path |
| AddressSchema.BoundedIssues | src/schemas/addAddressSchema.ts:4-8 | a field has no issue exactly when it is present and its length, before trimming, is within bounds |
| AddressSchema.ComplementIssues | src/schemas/addAddressSchema.ts:34-34 | the complement has no issue exactly when it is absent or at most 255 long |
| AddressSchema.ParseAddress | src/schemas/addAddressSchema.ts:3-35 | accepted exactly when every field is within its bounds, giving the trimmed address; otherwise a non-empty issue list |
| AddressSchema.TrimWithin | src/schemas/addAddressSchema.ts:4-8 | a trimmed field is trimmed for good and still within its upper bound |
| AddressSchema.AcceptedFieldsTrimmed | src/schemas/addAddressSchema.ts:3-35 | every stored field is the field as sent, trimmed, and within its upper bound |
| AddressSchema.BlankStreetAccepted | src/schemas/addAddressSchema.ts:9-13 | a street of one blank passes the minimum and is stored empty |
| AddressSchema.RejectedAddressIs422 | src/schemas/addAddressSchema.ts:3-35 | a rejected body reaches the error middleware as a 422 with one detail per issue |
| EnvValidation.NodeEnvIssues | src/utils/validateEnv.ts:9-9 | NODE_ENV has no issue exactly when it is absent or one of the three values |
| EnvValidation.UrlIssues | src/utils/validateEnv.ts:10-15 | a URL setting has no issue exactly when it is a valid URL, or absent where there is a default |
| EnvValidation.MinIssues | src/utils/validateEnv.ts:18-29 | a secret has no issue exactly when it is present and long enough |
| EnvValidation.KeyIssues | src/utils/validateEnv.ts:32-48 | a Stripe key has no issue exactly when it is present and starts with its prefix |
| EnvValidation.ServerUrlIssues | src/utils/validateEnv.ts:9-15 | NODE_ENV, BASE_URL and FRONTEND_URL have no issue exactly when their three requirements hold |
| EnvValidation.SecretIssues | src/utils/validateEnv.ts:18-29 | the database URL and the two token secrets have no issue exactly when all three are present and long enough |
| EnvValidation.StripeIssues | src/utils/validateEnv.ts:32-48 | the two Stripe keys have no issue exactly when both are present with their prefixes |
| EnvValidation.EnvIssues | src/utils/validateEnv.ts:7-55 | there is no issue exactly when every requirement of the schema holds |
| EnvValidation.ParseEnv | src/utils/validateEnv.ts:7-55 | accepted exactly when every requirement holds, with the defaults filled in; otherwise a non-empty issue list |
| EnvValidation.ParsedEnvSpec | src/utils/validateEnv.ts:7-55 | an accepted environment meets every bound and prefix, and missing NODE_ENV, BASE_URL and PRODUCT_IMAGE_PATH take their defaults |
| EnvValidation.EnvErrorMessageLines | src/utils/validateEnv.ts:74-86 | the error message has the header line, then one "  - field: message" line per issue, between fixed header and footer lines |
| EnvValidation.EnvCache.ValidateEnv | src/utils/validateEnv.ts:68-99 | a cached environment is returned as is; otherwise a failed parse throws the message and caches nothing, and a good one is cached; a key selects one field |
| EnvValidation.CachedEnvIsStable | src/utils/validateEnv.ts:69-71 | once cached, a changed environment is not read again |
| RequestLogger.CustomLogLevel | src/middleware/requestLogger.ts:20-31 | error exactly for 5xx or when an error is present; warn exactly for other 4xx; info for the rest |
| RequestLogger.ValidationFailureLevelsAgree | src/middleware/requestLogger.ts:20-31 | a 422 from a schema failure, logged without the error, is a warning, as in the error middleware |
| RequestLogger.ExistingId | src/middleware/requestLogger.ts:14-14 | the request's own id is used when set, and the header's id otherwise |
| RequestLogger.ResponseHeaders.GenReqId | src/middleware/requestLogger.ts:12-19 | a non-empty existing id is kept and no header is set; otherwise the fresh id is returned and set as X-Request-Id |
| RequestLogger.MessagesDiffer | src/middleware/requestLogger.ts:32-37 | both messages start with the method and URL, and a failure message never equals a success message |
| RequestLogger.SerializeReq | src/middleware/requestLogger.ts:44-52 | the logged request keeps id, method, URL, query and params |
| RequestLogger.BodyNeverLogged | src/middleware/requestLogger.ts:44-52 | two requests that differ only in their bodies are logged alike |

## Left out

- Database access, HTTP, and the `try`/`catch` paths that answer 500 when the database or a request fails. A failing call is not modelled; only the ViaCEP request failure is, as a missing map entry.
- Concurrency between requests. Each operation runs on its own.
- Logging output from `logger.warn`/`logger.error`, and `customProps` (the user id attached to a log record). Log levels are modelled; the records are not.
- Floating point: prices and costs are exact reals. `Math.round` rounds half up, as in JavaScript.
- Letter case: `toUpperCase`, `toLowerCase` and Postgres's case-insensitive `contains` are modelled on ASCII letters only.
- String length: lengths count Dafny characters, not UTF-16 code units.
- The `label` column is called `title`, because `label` is a Dafny keyword.
- Order of ties: Prisma does not promise an order among equal sort keys. The model keeps stored order (a stable sort), and its lemmas only promise position-by-key ordering. In the same way, `images: { take: 1 }` without an order takes the first stored image.
- Outside services and values become parameters, with no model of how they work:
  - Stripe's `constructEvent` and the session call;
  - bcrypt `hash`/`compare`, uuid `v4` and `randomUUID`;
  - `getBaseUrl`, `getFrontendURL`, `getWebhookKey`;
  - `PRODUCT_IMAGE_PATH`, `KIT_IMAGE_PATH`, and the URL check used by the environment schema.
- src/constants, src/services/order.ts's `updateOrderStatus`, cartMountSchema and calculateShippingSchema are not part of this model. Instead:
  - `updateOrderStatus` is modelled as setting the status of a stored order, with an unknown id changing nothing;
  - a body or query the schema rejects is `None`.
- Database defaults: the schema that gives a new order its default status is not part of this model, so the status starts as `None`. New ids count up from 1.
- Products.ProductTable.IncrementProductView: Prisma's `update` throws for an unknown id. The model instead reports `false` and changes nothing.
- Users.UserTable.LoginUser: the fresh token is required to be unused (a v4 uuid). A clash, which the unique column would reject, is not modelled.
- Users.UserTable.CreateUser: a clash between two simultaneous registrations is not modelled. The email check and the insert run as one step.
- Checkout orchestration: the `finish` checkout flow, refunds and retries are not in the source files and are not modelled.
- Not in the core: the JWT helpers, the rate limiter, the route table, the server bootstrap and the seed scripts.
- Schema inputs that are not strings or are absent keys: an absent key is `None`. Other JavaScript types, such as numbers passed where strings are due, are not modelled.
- Search.FoundKits: Prisma may return kits in any order when there is no `orderBy`. The model keeps stored order, so FoundKitsSpec's positional statements are about the model's choice.
- Products.GetProductsFromSameCategory: the default `limit` (`DEFAULT_RELATED_PRODUCTS_LIMIT`) is defined in src/constants, which is not part of this model, so the limit is always a parameter.
