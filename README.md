# Shipping order lifecycle — a Dafny model

This project models the order lifecycle of a Laravel shipping-tracking backend. The backend
delegates shipments to the Biteship courier aggregator. The model covers:

- the closed set of fifteen order states, with their labels, colours and category predicates;
- the order record: cancellable and trackable tests, the dashboard scopes, the address
  accessors, and the `ORD-YYYYMMDD-NNNN` order-number generator;
- the lifecycle engine (`OrderService`): create, confirm, refresh, cancel, track, the status
  map and the dashboard statistics;
- the Biteship client: endpoint paths, the success-or-prefixed-failure contract, the
  constructor's key check and the error-code table;
- the thin layers around the engine: the order controller's access guard, page-size clamp and
  422/500 classification, the role middleware, and the user-role enum;
- the browser-side form validators.

Modules follow the source files: `OrderStatus`, `UserRole`, `OrderModel`, `Biteship`,
`OrderService`, `OrderController`, `RoleMiddleware`, `Validation`. Two helper modules,
`Wrappers` (Option/Result) and `Text` (digits, padding, substring tests, PHP truthiness), support
them.

State that the source changes in place is modelled with classes. `OrderModel.Order` holds the
lifecycle columns that `$order->update([...])` writes. `Biteship.Gateway` records every request it
sends in `log`, so each engine method can say whether the courier was called, and with what.
The HTTP transport is an oracle: a function from (number of requests already sent, request) to
response. Each engine method is proved against pure functions. `ConfirmGuard`, `RefreshGuard`,
`CancelGuard` and `TrackGuard` say when the order is refused before any gateway call.
`ApplyCreateReply`, `ApplyRefreshReply`, `CancelledState` and `ApplyTracking` give the new
columns. A failing operation leaves the order exactly as it was.

PHP truthiness is modelled explicitly: `""` and `"0"` are false (`Text.Truthy`). It governs
`if ($order->biteship_order_id)`, `empty($this->waybill_id)`, `$reason ?: ...`, `?:` defaults
and the API-key check. Money and coordinates are integers. Only whether a coordinate is present
matters, because a stored decimal always casts to a non-empty string. The clock (`now()`),
the date (`date('Ymd')`), `mt_rand` draws, configuration and the existing order numbers are
all parameters.

Where the code and the intended design differ, the model follows the code:

- `createOrder` stores the supplied insurance cost but sets `total_cost` to 0, so
  total = shipping + insurance fails for a new insured order (`CreatedOrderShape`).
- A refresh re-stamps `delivered_at` every time the courier reports `delivered`, so the
  delivery time is not set only once (`RefreshTwice`, `RefreshRestampsDelivery`).
- `scopeActive` leaves out `courier_not_found`, which `isActive` counts as active. Such orders
  appear in no dashboard category (`ScopesAgainstStatus`, `StatisticsPartition`).
- The browser refuses weights above 30000 g, but the server accepts up to 50000 g
  (`WeightBoundsDisagree`).
- Unknown courier statuses fall back to `pending`, indistinguishable from an unconfirmed order
  (`MapCourierStatusFallback`).

## Model

| member | source | states |
|---|---|---|
| `OrderStatus.AllStatusesComplete` | app/Enums/OrderStatus.php:7-21 | there are exactly fifteen states, each listed once |
| `OrderStatus.Value` | app/Enums/OrderStatus.php:7-21 | every backing string is a non-empty lower-case snake_case word |
| `OrderStatus.TryFrom` | app/Enums/OrderStatus.php:5-21 | a parsed state's backing string is the input |
| `OrderStatus.TryFromValue` | app/Enums/OrderStatus.php:7-21 | parsing a state's backing string gives that state back, so backing strings are distinct |
| `OrderStatus.TryFromUnknown` | app/Enums/OrderStatus.php:5-21 | a string that backs no state parses to nothing |
| `OrderStatus.Label` | app/Enums/OrderStatus.php:23-42 | every label is non-empty and capitalised |
| `OrderStatus.LabelsDistinct` | app/Enums/OrderStatus.php:23-42 | every label is non-empty and no two states share one |
| `OrderStatus.Color` | app/Enums/OrderStatus.php:44-54 | the colour is one of the six Bootstrap classes warning, info, primary, success, danger, secondary |
| `OrderStatus.ColorClasses` | app/Enums/OrderStatus.php:44-54 | colour is `danger` exactly for cancelled, rejected, disposed and courier_not_found, and `success` exactly for delivered |
| `OrderStatus.IsActive` | app/Enums/OrderStatus.php:56-65 | active exactly when neither completed nor cancelled |
| `OrderStatus.IsCompleted` | app/Enums/OrderStatus.php:67-73 | a completed state is never cancelled and is shown as success or secondary |
| `OrderStatus.IsCancelled` | app/Enums/OrderStatus.php:75-82 | a cancelled state is always shown as danger |
| `OrderStatus.CategoriesPartition` | app/Enums/OrderStatus.php:56-82 | completed and cancelled never overlap; not active ⇔ completed or cancelled; so every state is in exactly one category |
| `OrderStatus.PendingAndCourierNotFoundAreActive` | app/Enums/OrderStatus.php:56-82 | pending and courier_not_found are active; the cancelled and completed sets are as listed |
| `UserRole.Value` | app/Enums/UserRole.php:5-8 | each backing string is a non-empty lower-case word |
| `UserRole.TryFrom` | app/Enums/UserRole.php:5-8 | a parsed role's backing string is the input |
| `UserRole.TryFromExact` | app/Enums/UserRole.php:5-8 | `tryFrom(r.value) = r`; a string parses to r exactly when it is r's value; any other string gives no role |
| `UserRole.Label` | app/Enums/UserRole.php:10-16 | each label is non-empty and capitalised |
| `UserRole.IsAdmin` | app/Enums/UserRole.php:18-21 | admin exactly when the backing string is "admin" |
| `UserRole.IsUser` | app/Enums/UserRole.php:23-26 | user exactly when the backing string is "user", that is exactly when not admin |
| `UserRole.RolesExclusive` | app/Enums/UserRole.php:10-26 | exactly one of isAdmin and isUser holds; the labels are "Administrator" and "User" and differ |
| `RoleMiddleware.AllowedRoles` | app/Http/Middleware/RoleMiddleware.php:30-35 | the allowed roles are exactly those whose string was configured; invalid strings are dropped |
| `RoleMiddleware.Handle` | app/Http/Middleware/RoleMiddleware.php:18-52 | no user gives 401; no valid configured role gives 500; a role outside the set gives 403; passes exactly when a user is present and their role is configured |
| `RoleMiddleware.HandleIgnoresOrderAndDuplicates` | app/Http/Middleware/RoleMiddleware.php:30-44 | argument order and repetition do not change the decision |
| `OrderModel.CanBeCancelled` | app/Models/Order.php:108-115 | a cancellable state is active and shown as warning or info |
| `OrderModel.CancellableIsActive` | app/Models/Order.php:108-115 | cancellable ⇔ pending, confirmed or scheduled; every cancellable state is active |
| `OrderModel.IsTrackable` | app/Models/Order.php:120-123 | a trackable order has a non-empty waybill and is neither completed nor cancelled |
| `OrderModel.TrackableMeansInMotion` | app/Models/Order.php:120-123 | a trackable order has a waybill PHP treats as non-empty and is neither completed nor cancelled; a delivered order is never trackable |
| `OrderModel.FullAddress` | app/Models/Order.php:128-139 | the full address is the address, then ", ", then the postal code |
| `OrderModel.ScopeActive` | app/Models/Order.php:144-157 | every state in the active scope is active and is not courier_not_found |
| `OrderModel.ScopeCompleted` | app/Models/Order.php:162-168 | the completed scope is exactly the enum's completed states |
| `OrderModel.ScopeCancelled` | app/Models/Order.php:173-180 | the cancelled scope is exactly the enum's cancelled states |
| `OrderModel.ScopesAgainstStatus` | app/Models/Order.php:144-180 | the completed and cancelled scopes agree with the enum; the active scope is isActive minus courier_not_found, which falls in no scope |
| `OrderModel.SuffixDigits` | app/Models/Order.php:99 | the zero-padded draw is four digits that read back as the draw, so never "0000" |
| `OrderModel.OrderNumber` | app/Models/Order.php:99 | "ORD-", the date stamp, "-" and the four-digit suffix (its properties are stated by `OrderNumberFormat` and `OrderNumberInjective`) |
| `OrderModel.OrderNumberFormat` | app/Models/Order.php:99 | the number is 17 characters: "ORD-", the date, "-", then the four-digit suffix |
| `OrderModel.OrderNumberInjective` | app/Models/Order.php:99 | different draws on one day give different numbers |
| `OrderModel.FirstFreeDrawUnique` | app/Models/Order.php:98-100 | at most one draw is the first free one, so the generated number is determined by the draws and the taken numbers |
| `OrderModel.GenerateOrderNumber` | app/Models/Order.php:96-103 | the result is the first draw whose number is not taken; every earlier draw was taken |
| `OrderModel.Order.Update` | app/Services/OrderService.php:187-196 | one `update` writes exactly the given lifecycle columns |
| `OrderService.MapCourierStatus` | app/Services/OrderService.php:338-357 | a result other than pending is the state whose backing string was given; a string the enum parses maps to that state |
| `OrderService.MapCourierStatusKnown` | app/Services/OrderService.php:338-357 | every state other than pending is mapped from its own backing string |
| `OrderService.MapCourierStatusNamed` | app/Services/OrderService.php:338-357 | a string not mapped to pending is the backing string of its result |
| `OrderService.MapCourierStatusUnknown` | app/Services/OrderService.php:355 | a string that names no non-pending state maps to pending |
| `OrderService.MapCourierStatusFallback` | app/Services/OrderService.php:338-357 | the map is the enum's parse with pending as fallback, so "pending" and unknown strings both give pending |
| `OrderService.CreatedState` | app/Services/OrderService.php:70-101 | a new order is pending, cancellable and not trackable, with no courier id, reply or delivery time |
| `OrderService.CreatedOrderShape` | app/Services/OrderService.php:70-101 | a new order is pending, with zero shipping and total, the supplied insurance or 0, and no courier ids; it can be confirmed and cancelled but not refreshed or tracked |
| `OrderService.CourierPayloadFor` | app/Services/OrderService.php:134-182 | one item: name is the description or "Package", each dimension is the stored value or 10, value is the stored value or 0; a coordinate is sent exactly when both its latitude and longitude are present |
| `OrderService.ConfirmGuard` | app/Services/OrderService.php:397-403 | confirmation proceeds exactly for a pending order without a courier id |
| `OrderService.ApplyCreateReply` | app/Services/OrderService.php:187-196 | a gateway failure propagates; a reply without id or status fails; otherwise the courier id and mapped status are taken, shipping = price or 0, insurance = fee or 0, total = shipping + insurance |
| `OrderService.ConfirmTwiceRefused` | app/Services/OrderService.php:397-403 | after a confirmation, a second one is refused whenever the courier id is truthy or the status left pending |
| `OrderService.ConfirmScenario` | app/Services/OrderService.php:187-196 | a "confirmed" reply with price 15000 and fee 500 yields status confirmed and a total of 15500 |
| `OrderService.RefreshGuard` | app/Services/OrderService.php:220-222 | a refresh proceeds exactly when the courier id is present |
| `OrderService.ApplyRefreshReply` | app/Services/OrderService.php:224-235 | absent reply fields keep the stored waybill, tracking id and costs; total = shipping + insurance; delivered_at becomes now whenever the reply says "delivered" |
| `OrderService.RefreshTwice` | app/Services/OrderService.php:226-235 | a second refresh with the same reply changes nothing, except that a "delivered" reply re-stamps delivered_at |
| `OrderService.RefreshRestampsDelivery` | app/Services/OrderService.php:234 | two delivered refreshes at different times leave the later time, not the first |
| `OrderService.CancelGuard` | app/Services/OrderService.php:260-262 | cancellation proceeds exactly inside the cancellable window |
| `OrderService.CancelReason` | app/Services/OrderService.php:266 | the reason is forwarded to the courier only when PHP treats it as true |
| `OrderService.CancelledState` | app/Services/OrderService.php:271-274 | only status and notes change, notes are set, and the order is then cancelled, not cancellable and not trackable |
| `OrderService.CancelledStateShape` | app/Services/OrderService.php:271-274 | only status and notes change; status is cancelled; truthy earlier notes become notes + "\n\nCancelled: " + the reason or "No reason provided", otherwise the notes are just that line |
| `OrderService.TrackGuard` | app/Services/OrderService.php:298-307 | tracking proceeds exactly for a trackable order with a tracking id |
| `OrderService.ApplyTracking` | app/Services/OrderService.php:310-318 | only status and delivered_at can change; status follows the mapped reply status when one is present; a "delivered" reply for an order not yet delivered sets delivered_at to now, and delivered_at changes in no other case; with no reply status, or one mapping to the stored status, the order is unchanged |
| `OrderService.TrackingIdempotent` | app/Services/OrderService.php:310-318 | tracking twice with the same reply is the same as tracking once |
| `OrderService.OwnedBy` | app/Services/OrderService.php:372-377 | a non-admin's query holds every row they own, as many times as it occurs, and no other row |
| `OrderService.CountWhere` | app/Services/OrderService.php:366-376 | the count is zero exactly when no row's status qualifies and equals the row count exactly when every row's does |
| `OrderService.StatisticsOf` | app/Services/OrderService.php:365-377 | the total counts every row; active + completed + cancelled never exceed it; pending never exceeds active |
| `OrderService.OrderStatistics` | app/Services/OrderService.php:362-388 | the admin total counts every order; a user's total counts only their own |
| `OrderService.CountsPartition` | app/Models/Order.php:144-180 | active + completed + cancelled + courier_not_found counts = all rows; pending count ≤ active count |
| `OrderService.StatisticsPartition` | app/Services/OrderService.php:362-388 | active + completed + cancelled = total − courier_not_found orders; pending ≤ active; total shipping cost is the sum of total costs |
| `OrderService.NoOwnOrdersNoStatistics` | app/Services/OrderService.php:371-378 | a user with no orders sees only zeros, whatever other users own |
| `OrderService.OrderService.CreateBiteshipOrder` | app/Services/OrderService.php:130-212 | exactly one create request with the built payload; on success the order holds the merged reply; otherwise it is unchanged |
| `OrderService.OrderService.CreateOrder` | app/Services/OrderService.php:62-125 | the number is the first free draw; without auto-confirm the order always succeeds, calls no gateway and has the created state; with it, exactly one create request is sent with the new order's payload, and the order is returned exactly when the merged reply succeeds, with that state, while a failure carries the merge's message |
| `OrderService.OrderService.ConfirmOrder` | app/Services/OrderService.php:393-425 | a refused order is unchanged and the gateway is not called; otherwise behaves as the courier submission |
| `OrderService.OrderService.UpdateOrderStatus` | app/Services/OrderService.php:217-251 | without a courier id: failure, no call, no change; otherwise one GET and the merged refresh or no change |
| `OrderService.OrderService.CancelOrder` | app/Services/OrderService.php:256-290 | outside the window: failure, no call, no change; the courier is asked first only when it knows the order, and its refusal leaves the order unchanged |
| `OrderService.OrderService.TrackOrder` | app/Services/OrderService.php:295-333 | refused orders cause no call and no change; otherwise one tracking request, whose payload is returned unchanged, and only status and delivered_at may move |
| `Biteship.Interpret` | app/Services/BiteshipService.php:60-69 | a 2xx response with a JSON document yields that document; a 2xx body that is not JSON breaks the declared `array` return type; another status fails with the operation prefix followed by the raw body; a transport error propagates |
| `Biteship.OrderPath` | app/Services/BiteshipService.php:85 | `/orders/{id}` |
| `Biteship.CancelPath` | app/Services/BiteshipService.php:130 | `/orders/{id}/cancel` |
| `Biteship.PublicTrackingPath` | app/Services/BiteshipService.php:174 | `/trackings/{waybill}/couriers/{courier}` |
| `Biteship.PathsDetermineIds` | app/Services/BiteshipService.php:85-174 | the id can be read back from an order or tracking path; order and tracking paths never collide |
| `Biteship.Configure` | app/Services/BiteshipService.php:16-25 | construction fails exactly when the key is missing or empty; the timeout defaults to 30 |
| `Biteship.Gateway.Connect` | app/Services/BiteshipService.php:16-25 | a gateway is built exactly when the configuration is accepted, with an empty request log |
| `Biteship.Gateway.Send` | app/Services/BiteshipService.php:30-53 | exactly one request is sent and recorded, with no retry |
| `Biteship.Gateway.CreateOrder` | app/Services/BiteshipService.php:60-77 | one POST to apiUrl + /orders; result as `Interpret` with "Failed to create order: " |
| `Biteship.Gateway.GetOrder` | app/Services/BiteshipService.php:82-99 | one GET to apiUrl + /orders/{id}; prefix "Failed to get order details: " |
| `Biteship.Gateway.UpdateOrder` | app/Services/BiteshipService.php:104-122 | one POST to apiUrl + /orders/{id}; prefix "Failed to update order: " |
| `Biteship.Gateway.CancelOrder` | app/Services/BiteshipService.php:127-144 | one POST to apiUrl + /orders/{id}/cancel; prefix "Failed to cancel order: " |
| `Biteship.Gateway.TrackByOrderId` | app/Services/BiteshipService.php:149-166 | one GET to apiUrl + /trackings/{id}; prefix "Failed to track package: " |
| `Biteship.Gateway.GetPublicTracking` | app/Services/BiteshipService.php:171-189 | one GET to apiUrl + /trackings/{waybill}/couriers/{courier}; prefix "Failed to get public tracking: " |
| `Biteship.HandleApiError` | app/Services/BiteshipService.php:194-208 | the six documented string codes give their fixed messages; anything else gives "API Error (status): message", the message defaulting to "Unknown error" |
| `Biteship.NumericCodeIsUnknown` | app/Services/BiteshipService.php:199-206 | a code sent as a JSON number never matches a documented code |
| `OrderController.AccessRule` | app/Http/Controllers/Api/OrderController.php:101 | access is refused exactly to a non-admin who does not own the order |
| `OrderController.MayAccess` | app/Http/Controllers/Api/OrderController.php:101 | an admin may always access; a user exactly their own orders |
| `OrderController.PerPage` | app/Http/Controllers/Api/OrderController.php:33 | page size = min(requested or 15, 100) |
| `OrderController.ShowReply` | app/Http/Controllers/Api/OrderController.php:95-113 | 200 exactly for an admin or the owner, 403 otherwise |
| `OrderController.CancelReply` | app/Http/Controllers/Api/OrderController.php:240-259 | a failure is 422 exactly when its message contains "cannot be cancelled" or "current status", else 500 |
| `OrderController.TrackReply` | app/Http/Controllers/Api/OrderController.php:288-312 | a failure is 422 exactly when its message contains "waybill", "tracking", "trackable" or "Insufficient", else 500 |
| `OrderController.CancelRefusal` | app/Http/Controllers/Api/OrderController.php:248 | a refusal message contains "cannot be cancelled" or "current status", so is never shorter than the shorter needle |
| `OrderController.TrackRefusal` | app/Http/Controllers/Api/OrderController.php:296-301 | a refusal message contains one of the four needles, so is never shorter than "waybill" |
| `OrderController.CancelGuardIsUnprocessable` | tests/Feature/Order/OrderManagementTest.php:197-207 | every status refusal of cancel, a delivered order's included, is answered 422 with the engine's message |
| `OrderController.TrackGuardIsUnprocessable` | tests/Feature/Order/OrderManagementTest.php:226-237 | both tracking refusals, a pending order without waybill included, are answered 422 |
| `OrderController.CourierCancelRefusalByText` | app/Http/Controllers/Api/OrderController.php:248 | a courier error body that mentions "current status" is also reported as 422 |
| `OrderController.CourierTrackRefusalByText` | app/Http/Controllers/Api/OrderController.php:296-301 | a courier error body that mentions "waybill" is also reported as 422 |
| `OrderController.FilledRule` | app/Http/Controllers/Api/OrderController.php:350-353 | an empty or whitespace-only tracking input fails `required` |
| `OrderController.OrderController.Store` | app/Http/Controllers/Api/OrderController.php:66-90 | 201 exactly when an order was created; otherwise 500 with the "Failed to create order: " prefix, which only auto-confirm can cause |
| `OrderController.OrderController.Confirm` | app/Http/Controllers/Api/OrderController.php:131-173 | 403 to strangers and 400 for an order with a courier id, both without calling the engine; otherwise 200 or 500 with the engine's message |
| `OrderController.OrderController.UpdateStatus` | app/Http/Controllers/Api/OrderController.php:178-212 | 403 to strangers; otherwise 200 after a refresh or 500 with the engine's message |
| `OrderController.OrderController.Cancel` | app/Http/Controllers/Api/OrderController.php:217-261 | 403 to strangers before the engine; a status refusal is 422; otherwise the engine outcome as `CancelReply` classifies it |
| `OrderController.OrderController.Track` | app/Http/Controllers/Api/OrderController.php:266-314 | 403 to strangers before the engine; refusals are 422; the tracking payload is returned on success |
| `OrderController.OrderController.PublicTracking` | app/Http/Controllers/Api/OrderController.php:347-378 | missing inputs give 500 without a courier call; otherwise one public lookup, 200 with its payload or 500 with the prefixed message |
| `Validation.TrimEmptyIffBlank` | resources/js/utils/validation.js:4 | trimming leaves nothing exactly for an all-whitespace string |
| `Validation.Trim` | resources/js/utils/validation.js:4 | the result is no longer than the input, starts and ends with a visible character, and is empty for an all-whitespace input |
| `Validation.RequiredRule` | resources/js/utils/validation.js:3-8 | `required` passes exactly for a value with a non-whitespace character |
| `Validation.OtherRulesAcceptEmpty` | resources/js/utils/validation.js:10-77 | every rule but `required` passes a missing or empty value |
| `Validation.Check` | resources/js/utils/validation.js:3-77 | every message is non-empty, and every rule but `required` passes a missing or empty value |
| `Validation.MatchesEmail` | resources/js/utils/validation.js:12 | a matching address has at least five characters |
| `Validation.EmailShape` | resources/js/utils/validation.js:12 | a matching address has no whitespace, exactly one '@' that is not first, and at least 5 characters |
| `Validation.EmailExamples` | resources/js/utils/validation.js:12 | "a@b.c" matches and "a@b@c.d" does not |
| `Validation.EmailLeadingAtRefused` | resources/js/utils/validation.js:12 | an address that starts with '@' never matches |
| `Validation.MatchesPhone` | resources/js/utils/validation.js:21 | a matching number, once spaces are removed, has 10 to 15 characters |
| `Validation.PhoneShape` | resources/js/utils/validation.js:21 | a matching phone number has 10 to 15 characters, all digits after an optional leading '+' |
| `Validation.PatternRules` | resources/js/utils/validation.js:10-26 | a non-empty entry passes email, phone (spaces removed) and postal code exactly when it matches the pattern |
| `Validation.PhoneIgnoresSpaces` | resources/js/utils/validation.js:22 | whitespace inside a phone number does not change the verdict |
| `Validation.Utf16Length` | resources/js/utils/validation.js:30-38 | `value.length` counts UTF-16 code units: between the number of characters and twice that |
| `Validation.Utf16LengthOfBmp` | resources/js/utils/validation.js:30-38 | the length equals the number of characters exactly when every character lies in the Basic Multilingual Plane |
| `Validation.LengthRules` | resources/js/utils/validation.js:28-42 | minLength and maxLength err exactly on a non-empty entry whose UTF-16 length is below, respectively above, the bound |
| `Validation.LengthCountsCodeUnits` | resources/js/utils/validation.js:36-42 | a single emoji is refused by maxLength(1) and accepted by minLength(2) |
| `Validation.JsNumber` | resources/js/utils/validation.js:44-68 | an all-whitespace entry reads as 0 |
| `Validation.NumberRules` | resources/js/utils/validation.js:44-68 | numeric, weight and dimensions read the entry through `Number` and compare it with their bounds |
| `Validation.WeightRule` | resources/js/utils/validation.js:52-59 | a whole number of grams passes exactly in 1..30000 |
| `Validation.WeightBoundsDisagree` | app/Http/Requests/Order/StoreOrderRequest.php:45 | whatever the browser accepts the server accepts, but 30001..50000 g is refused only in the browser |
| `Validation.DimensionsRule` | resources/js/utils/validation.js:61-68 | a whole number of centimetres passes exactly in 1..1000 |
| `Validation.NumericAcceptsNaturals` | resources/js/utils/validation.js:44-50 | every whole number passes `numeric` |
| `Validation.PostalCodeRule` | resources/js/utils/validation.js:70-77 | an entry passes exactly when it is empty or five digits |
| `Validation.MatchesPostalCode` | resources/js/utils/validation.js:72 | a matching code is five digits that `Number` reads as the value they spell |
| `Validation.FirstError` | resources/js/utils/validation.js:86-93 | no error exactly when every rule passes; otherwise the message of the first failing rule, all earlier rules passing |
| `Validation.ValidateField` | resources/js/utils/validation.js:81-94 | the loop returns the first rule's message in rule order, a single rule counting as a list of one |
| `Validation.FormValidIffEveryFieldPasses` | resources/js/utils/validation.js:97-110 | the error map is empty exactly when every schema field passes |
| `Validation.FormErrors` | resources/js/utils/validation.js:97-110 | every key of the error map is the name of a schema field |
| `Validation.CollectWithin` | resources/js/utils/validation.js:101-107 | every key the loop sets is the name of some schema entry |
| `Validation.CollectKeys` | resources/js/utils/validation.js:101-107 | a field has an error exactly when some schema entry of that name failed |
| `Validation.FormErrorsOnlySchemaFields` | resources/js/utils/validation.js:101 | fields outside the schema never carry an error |
| `Validation.FormErrorsIgnoreExtraData` | resources/js/utils/validation.js:101-102 | form data outside the schema does not affect the result |
| `Validation.ValidateForm` | resources/js/utils/validation.js:97-110 | the loop's errors are the schema fields' first errors, and isValid ⇔ no errors |

## Left out

- HTTP transport, headers, timeouts and logging in `makeRequest` and every `Log::` call: the transport is an oracle, and logging has no effect on state.
- Database transactions: they appear only as "a failing operation leaves the order unchanged". Requests already sent to the courier are not undone, and the model records them. `updateOrderStatus` and `trackOrder` have no transaction, but each makes a single write, so the effect is the same.
- Concurrency and stale-refresh races: the code does not guard against them.
- `getPaginatedOrders`: SQL LIKE search and pagination are framework query building.
- The raw `biteship_response` JSON: it is an opaque `rest` string beside the fields the engine reads.
- User accounts, authentication, the FormRequest classes (except the weight bound), the React pages, the axios wrappers, and the formatting and debounce helpers in validation.js.
- `OrderService.OrderStatistics`: its own contract states only the totals; the partition and cost sum are in `StatisticsPartition`.
- `OrderModel.GenerateOrderNumber`: the random source is a finite list of draws, one of which is free; the source loops for as long as the random generator keeps producing taken numbers.
- `Validation.JsNumber`: `Number()` is modelled for optional sign, decimal digits and a single '.', with surrounding whitespace. Exponents, hexadecimal and "Infinity" are read as NaN.
- Numeric precision: money and coordinates are integers instead of `decimal:2` / `decimal:8` values.
- `Biteship.Interpret`: a 2xx body that is not a JSON document makes `json()` return null, so the `: array` return type raises a PHP `TypeError`. That is an `Error`, not an `Exception`, so the `catch (Exception)` blocks of the client, the engine and the controllers do not handle it, and the framework's handler answers 500. The model treats it as an ordinary failure carrying the `TypeError` message. The controllers then also answer 500 (the message matches no 422 needle), but with their own "Failed to …" wording instead of the framework's.
- `OrderController.OrderController.PublicTracking`: the 500 message for missing inputs is only constrained by its prefix. Laravel's validation-summary wording is not modelled.
