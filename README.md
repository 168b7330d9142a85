# create-order: a verified model of the order-intake edge function

The `create-order` Supabase edge function takes one authenticated HTTP request that describes a
purchase order. It handles the request in this order:

1. It answers a CORS preflight.
2. It rejects every method other than POST.
3. It takes the access token from the `authorization` header and checks it with the identity service.
4. It validates the JSON body.
5. As the caller, it inserts the `orders` row, then one `order_items` row per item.
6. With the service-role key, it calls the `get_other_orders_total` aggregate.
7. It answers `201 {newOrder, otherOrdersTotal}`.

Each step can fail, and a failure ends the request with its own status and `{error}` message. No
failure undoes the writes made before it.

This project models that handler in Dafny:

- `Json` holds the JSON values the handler sees, with JavaScript truthiness (`!x`) and property reads (`x.key`). A property read throws on `null` or `undefined`.
- `Env` holds `envOrThrow` and the three connection settings read when the module loads.
- `Orders` holds the rows written, the failure taxonomy with its status codes and messages, and the reported total.
- `OrderRules` holds the pure pieces:
  - bearer-prefix slicing
  - body validation
  - the `items.map` row construction
  - normalisation of the totals reply
- `CreateOrder` holds the handler. The collaborators are replaced by the replies they give (`Replies`), and every call the handler makes is recorded in order in a trace of `Call`s. `Pipeline` is the handler as a decision pipeline over those replies. `HandleRequest` follows the `create-order` handler statement by statement: early returns, the `let payload` assignment, the trace appended as each call is awaited, and the conditionally reassigned `otherOrdersTotal`. It is proved to produce the same outcome and trace as `Pipeline`.
- `CreateOrderProperties` states the handler's guarantees over `Pipeline` for every request, configuration and reply. Among them:
  - status codes and messages
  - the order of side effects
  - ownership of the order row
  - item rows preserved one for one
  - no rollback

Two paths of the `create-order` handler are modelled as the handler takes them. In both, an exception escapes
the handler (outcome `Threw`):

- A `null` element of `items` passes validation. Then `it.item_id` throws after the order row has already been inserted, so that order is left without items (`NullItemOrphansOrder`).
- A `null` first row in the aggregate reply makes `totalsData[0].total` throw after both writes have succeeded.

## Model

| member | source | states |
|---|---|---|
| `Env.EnvOrThrow` | supabase/functions/create-order/index.ts:4-8 | succeeds exactly when the variable is set and non-empty, returning its value; otherwise the error is "`<name>` env var is required" |
| `Env.LoadConfig` | supabase/functions/create-order/index.ts:10-12 | configuration loads exactly when all three variables are set and non-empty; otherwise the error names the first missing one in declaration order |
| `OrderRules.SliceBearer` | supabase/functions/create-order/index.ts:49-52 | a token is produced exactly when the header is present and starts with the case-sensitive `"Bearer "`, and the header is then the prefix followed by the token |
| `OrderRules.SliceBearerOfPrefixed` | supabase/functions/create-order/index.ts:49-52 | every token sent as `"Bearer " + token` is recovered exactly (round trip) |
| `OrderRules.CheckPayload` | supabase/functions/create-order/index.ts:94-116 | accepts exactly when both names are truthy and `items` is a non-empty array, returning those fields unchanged; the missing-fields error is returned exactly when a name is falsy, so it takes precedence over the items error |
| `OrderRules.ItemRows` | supabase/functions/create-order/index.ts:143-147 | throws exactly when some item is null; otherwise one row per item, in order, each with the new order's id and that item's `item_id` and `quantity` unchanged |
| `OrderRules.ToNumber` | supabase/functions/create-order/index.ts:191 | numbers are kept, null/undefined become 0, booleans 0/1, and only strings, arrays and objects go through the uncomputed `Number` conversion |
| `OrderRules.OtherOrdersTotal` | supabase/functions/create-order/index.ts:188-192 | 0 when the reply is not an array or is empty; otherwise the first row's `total` normalised, and a TypeError exactly when that row is null |
| `CreateOrder.Pipeline` | supabase/functions/create-order/index.ts:25-204 | the handler's reference definition: its calls are always a prefix of verify, insert order, insert items, aggregate (at most four); an error answer carries its failure's status, and a 201 comes only after all four calls |
| `CreateOrder.HandleRequest` | supabase/functions/create-order/index.ts:25-204 | the step-by-step handler yields exactly the outcome and call trace of the `Pipeline` specification |
| `CreateOrderProperties.AccessTokenExact` | supabase/functions/create-order/index.ts:49-54 | a non-empty token is obtained exactly for well-formed headers, and it is the header minus the prefix |
| `CreateOrderProperties.MalformedBearers` | supabase/functions/create-order/index.ts:49-64 | a missing header, `"Bearer "` alone, a lower-case `"bearer "` prefix and another scheme are all refused; `"Bearer " + t` is accepted exactly when `t` is non-empty |
| `CreateOrderProperties.PreflightShortCircuits` | supabase/functions/create-order/index.ts:26-36 | an OPTIONS request is answered 200 "ok" with no call at all |
| `CreateOrderProperties.OtherMethodsRejected` | supabase/functions/create-order/index.ts:38-46 | any method but OPTIONS and POST is answered 405 "Method not allowed, use POST" with no call |
| `CreateOrderProperties.BearerGate` | supabase/functions/create-order/index.ts:49-74 | a POST gets 401 "Missing Authorization" exactly when its header is malformed, then with no call; otherwise the first call verifies exactly that token through the caller's client |
| `CreateOrderProperties.InvalidTokenStops` | supabase/functions/create-order/index.ts:73-80 | a verification error or a missing user gives 401 "Invalid or expired token" and no parse result is used and no write follows |
| `CreateOrderProperties.BodyRejections` | supabase/functions/create-order/index.ts:83-116 | after verification, an unparsable body gives 400 "Invalid JSON body", and a body failing validation gives 400 with the validation error, each with the verification as the only call |
| `CreateOrderProperties.BadRequestWritesNothing` | supabase/functions/create-order/index.ts:83-116 | every 400 answer follows only the verification call: no store write, no aggregate |
| `CreateOrderProperties.CallsFollowSuccess` | supabase/functions/create-order/index.ts:134-172 | the items insert happens only after a persisted order, and the aggregate only after a successful items insert, excluding the new order's id |
| `CreateOrderProperties.CallerScopedWrites` | supabase/functions/create-order/index.ts:66-172 | verification and both inserts go through the anon-key client carrying the caller's token; the aggregate alone uses the service-role client |
| `CreateOrderProperties.OrderOwnedByCaller` | supabase/functions/create-order/index.ts:81-128 | an inserted order row's `profile_id` is the verified user's id |
| `CreateOrderProperties.OtherBodyFieldsIgnored` | supabase/functions/create-order/index.ts:94-128 | changing any body field other than the three read ones (a forged `profile_id`, say) changes neither the answer nor any call |
| `CreateOrderProperties.ItemsInsertMirrorsPayload` | supabase/functions/create-order/index.ts:142-151 | the inserted item rows number exactly the payload's items, and row j is item j's `item_id` and `quantity` with the persisted order's id |
| `CreateOrderProperties.OrderInsertFailureAnswers500` | supabase/functions/create-order/index.ts:118-140 | after authentication and validation, a failed or rowless order insert is answered 500 "Failed to insert order", and only then; the order insert is the last call |
| `CreateOrderProperties.ItemsFailureKeepsOrder` | supabase/functions/create-order/index.ts:149-162 | once the order is persisted and its item rows built, a failed items insert is answered 500 "Failed to insert order items", and only then; the persisted order stays and no call follows to undo it |
| `CreateOrderProperties.TotalsFailureAfterWrites` | supabase/functions/create-order/index.ts:164-186 | after both writes succeed, a failed aggregate is answered 500 "Order created, but failed ...", and only then; the aggregate is the last call |
| `CreateOrderProperties.CreatedExactlyOnSuccess` | supabase/functions/create-order/index.ts:188-203 | 201 is answered exactly when every step succeeds, with the persisted order and the normalised total as the body |
| `CreateOrderProperties.NullItemOrphansOrder` | supabase/functions/create-order/index.ts:108-147 | a null or undefined item passes validation; the order is inserted and the handler then throws before any item insert |
| `CreateOrderProperties.StatusCodes` | supabase/functions/create-order/index.ts:25-204 | every answer has status 200, 201, 400, 401, 405 or 500 |
| `CreateOrderProperties.EndToEndScenario` | supabase/functions/create-order/index.ts:25-204 | user U1 ordering two of item X, with order O1 and aggregate 100, gets 201 `{O1, 100}` after exactly the four expected calls |

## Left out

- `Deno.serve`, `createClient`, `auth.getUser`, `.from().insert().select().single()` and `rpc` are library and network calls. The model has only the replies they give (`Replies`) and a record of the arguments they receive (`Call`). A reply does not depend on its arguments, so row-level security, the store's constraints and the `get_other_orders_total` aggregate are not modelled.
- `req.json()` is not modelled. Its result is either a parsed JSON value or a parse failure.
- Header lookup is not modelled. The `authorization` value is taken as `headers.get` returns it; the Fetch API's case-insensitive header names and whitespace trimming happen before that.
- JavaScript's `Number(v)` of a string, array or object is not computed. The total is then `NumberOf(v)`.
- Numbers are JSON numbers modelled as reals. NaN, infinities and floating-point rounding are not modelled.
- `Json.Get` does not model built-in properties of strings, arrays and prototypes. None of the keys the handler reads is one.
- The persisted order row is a typed record with a string `id`. A row of another shape is not modelled.
- When an exception escapes the handler (`Threw`), the runtime chooses the response. That response is not modelled.
- `console.error` logging, the CORS and `Content-Type` header values and JSON serialisation of bodies are output plumbing and are not modelled.
- Concurrency between requests is not modelled. The handler keeps no state between requests.
