# SDRRAS request handlers in Dafny

A model of the decision layer of the SDRRAS disaster-alert backend (`app.py`).
The service takes four kinds of POST request — subscribe a phone number for
alerts, register an emergency, register a resource request, broadcast an alert
— validates each, writes to one of three tables, and texts a confirmation or
an alert through an SMS gateway.

The model replaces MySQL with an in-memory `Storage.Store` (a map from phone to
subscriber, because the phone column is UNIQUE, and two append-only sequences
of request rows) and the gateway with `Notification.Gateway`, whose outbox
records every attempt with its normalised destination, its body and whether
the gateway accepted it. The connection is a parameter `Api.Db`: no
connection, a database error during the handler's statements, or success.
Whether the gateway accepts a text is left open (any outcome), as is the
order in which the broadcast query lists its rows.

Layout:

- `phone.dfy` (`Phone`): the number normalisation done by `send_sms`.
- `decimal.dfy` (`Decimal`): Python's `str()` of an integer, with its inverse.
- `messages.dfy` (`Messages`): the category symbols, replies and SMS texts.
- `storage.dfy` (`Storage`): rows, the broadcast selection, the `Store` class
  with one method per SQL statement.
- `notification.dfy` (`Notification`): send outcomes, the delivered count, the
  `Gateway` class.
- `api.dfy` (`Api`): JSON field access, responses, and the specification of
  each handler: for subscribe, emergency and resource requests one function
  giving the response, the new table and the SMS; for the broadcast its
  refusals (`BroadcastGuard`), its area filter (`AreaFilter`) and the alerts
  it sends to a listing of recipients (`Alerts`).
- `handlers.dfy` (`Handlers`): the four handlers as methods. Subscribe,
  emergency and resource requests are proved equal to their specification
  functions; the broadcast is proved against `BroadcastGuard`,
  `Storage.Recipients`, `Alerts` and the delivered count.
- `finally.dfy` (`AsWritten`): what the handlers' `finally` blocks do to
  the response that reaches the client, as the code is written.

Where the code and the design description differ, the model follows the code:

- A resource quantity is refused only when it is falsy (missing or 0); a
  negative quantity is accepted and stored, although the design speaks of a
  positive integer.
- The subscription area defaults to "Not specified" only when the key is
  missing; an explicit JSON `null` is stored as NULL (and printed as `None`
  in the confirmation SMS).
- A validation failure is meant to be answered with 400; the code as written
  answers 500 (see Findings). The handlers model the intended 400.

## Model

| member | source | states |
|---|---|---|
| `Phone.StripLeadingZeros` | app.py:101 | the result is a suffix of the input, everything removed is '0', and the result does not start with '0' |
| `Phone.Normalise` | app.py:99-101 | the result always starts with '+'; a number already starting with '+' is returned unchanged |
| `Phone.NormaliseDomestic` | app.py:100-101 | a number not starting with '+', written as a run of zeros followed by a rest not starting with '0', is sent to "+91" followed by that rest |
| `Phone.NormaliseIdempotent` | app.py:99-101 | normalising twice equals normalising once |
| `Phone.LeadingZeroIgnored` | app.py:101 | prefixing a domestic number with '0' does not change where it is sent |
| `Decimal.Digits` | app.py:257 | the decimal digits of a natural number: non-empty, all digits, no leading zero except for 0 itself |
| `Decimal.DigitsRoundTrip` | app.py:257 | reading back the digits gives the number |
| `Decimal.IntToString` | app.py:257 | Python `str(int)`: non-empty, with a leading '-' exactly for negative numbers |
| `Decimal.IntToStringRoundTrip` | app.py:310 | parsing the printed integer gives it back |
| `Decimal.IntToStringInjective` | app.py:310 | different integers print differently |
| `Messages.CategorySymbol` | app.py:204-210 | 'sos', 'medical', 'shelter', 'food' get their own symbols; the warning sign is returned exactly for every other category |
| `Messages.CategorySymbolsDistinct` | app.py:204-209 | the four known categories have pairwise different symbols |
| `Messages.SubscribeReply` | app.py:142-155 | the reply is the reactivation notice exactly when the phone was already subscribed, and the new-subscription notice exactly otherwise |
| `Messages.AsciiUpper` | app.py:212 | `category.upper()` on ASCII: same length, lower-case ASCII letters become upper-case, every other character is kept |
| `Messages.PyStr` | app.py:160 | an f-string prints a string as itself and `None` as "None" |
| `Messages.SubscribeSms` | app.py:160 | the subscription confirmation: reply, then the area as the f-string prints it |
| `Messages.EmergencySms` | app.py:212 | the emergency confirmation: category symbol, upper-cased category and area |
| `Messages.ResourceSms` | app.py:257 | the resource confirmation: quantity as `str(int)`, resource type and area |
| `Messages.AlertSms` | app.py:305 | the alert text: "SDRRAS ALERT: " followed by the message |
| `Messages.AlertSummary` | app.py:310 | the broadcast reply "Alert sent to N subscribers" |
| `Messages.EmergencySmsShowsSymbol` | app.py:212 | the emergency confirmation begins with "SDRRAS Emergency: " and the category's symbol |
| `Messages.AlertSmsCarriesMessage` | app.py:305 | the alert text is "SDRRAS ALERT: " followed by the admin's message unaltered |
| `Messages.AlertSummaryInjective` | app.py:310 | the broadcast reply "Alert sent to N subscribers" determines N |
| `Storage.Selected` | app.py:291-299 | the WHERE clause: the subscriber is active and, when a target area is given, its area equals it (a NULL area never does) |
| `Storage.Recipients` | app.py:291-299 | the phones of the subscribers the WHERE clause selects |
| `Storage.RecipientsMatch` | app.py:291-299 | a phone is a broadcast recipient exactly when it is subscribed, active, and, if a target area is given, its area equals the target |
| `Storage.FilterNarrows` | app.py:291-299 | a target area only removes recipients |
| `Storage.ZoneExample` | app.py:291-299 | of subscribers (Zone A, active), (Zone B, active), (Zone A, inactive) an alert for Zone A selects only the first |
| `Storage.Store.constructor` | app.py:52-86 | on a fresh database the three tables are created empty |
| `Storage.Store.FindSubscriber` | app.py:136-140 | the lookup reports whether the phone has a row |
| `Storage.Store.UpdateSubscriber` | app.py:144-147 | an existing row becomes active with the new area; no row is added; other rows and tables are unchanged |
| `Storage.Store.InsertSubscriber` | app.py:151-154 | a new phone gets an active row with the given area; a present phone is refused by the unique key and nothing changes |
| `Storage.Store.InsertEmergency` | app.py:196-199 | exactly one row is appended; nothing else changes |
| `Storage.Store.InsertResource` | app.py:248-251 | exactly one row is appended; nothing else changes |
| `Storage.Store.SelectActive` | app.py:291-301 | the rows returned list every recipient exactly once and nothing else |
| `Notification.Delivered` | app.py:303-306 | the number of accepted sends is at most the number of attempts |
| `Notification.DeliveredAppend` | app.py:305-306 | one more attempt adds one to the count exactly when it was accepted |
| `Notification.DeliveredAllIff` | app.py:303-306 | the count equals the number of attempts exactly when every attempt was accepted |
| `Notification.Gateway.constructor` | app.py:26 | the gateway starts with no attempts |
| `Notification.Gateway.Send` | app.py:96-112 | one attempt is recorded, addressed to the normalised phone with the given body; its outcome is returned, failures as false |
| `Api.Get` | app.py:123 | `data.get(key)` yields a value exactly when the key holds a non-null value, and then that value |
| `Api.Truthy` | app.py:126 | Python truthiness of a string field, as tested at app.py:126, 186, 238, 256, 281 and 291: present and non-empty |
| `Api.TruthyInt` | app.py:238 | Python truthiness of the integer quantity: present and non-zero |
| `Api.GetOr` | app.py:124 | `data.get(key, default)` yields the default only for a missing key, None for JSON null |
| `Api.HttpStatus` | app.py:126-131 | success is 200, a validation refusal 400, a storage failure 500 |
| `Api.SubscribeSpec` | app.py:121-166 | refused with 400 exactly when the phone is missing or empty; 500 on connection or database failure; otherwise the phone has exactly one active entry with the given area (default only for a missing key), other entries are unchanged, the reply says reactivated exactly when the phone was present, and one confirmation SMS goes to the phone; on any refusal the table is unchanged and nothing is sent |
| `Api.SubscribeIdempotent` | app.py:142-155 | subscribing the same phone and area twice leaves the same table as once, and the second reply is the reactivation notice |
| `Api.ResubscribeMovesArea` | app.py:142-147 | subscribing one phone with two areas in turn leaves one active entry with the later area |
| `Api.NullAreaIsNotDefaulted` | app.py:124 | a null area is stored as NULL, a missing one as "Not specified" |
| `Api.EmergencySpec` | app.py:179-218 | refused with 400 exactly when phone, category or area is missing or empty; 500 on connection or database failure; otherwise exactly one row (phone, category, area, message defaulting to '', 'pending') is appended after the unchanged old rows and one confirmation goes to the request's phone; rows written this way all have non-empty required fields and status 'pending' |
| `Api.ResourceSpec` | app.py:231-263 | refused with 400 exactly when resource, quantity or area is falsy; 500 on connection or database failure; otherwise exactly one 'pending' row is appended after the unchanged old rows, and an SMS is sent exactly when a non-empty phone was given; rows written this way all have non-zero quantity and status 'pending' |
| `Api.ZeroQuantityRefused` | app.py:238-239 | a quantity of 0 is refused like a missing one |
| `Api.AreaFilter` | app.py:279-291 | the broadcast filters by area exactly when a non-empty area is given, and then by that area |
| `Api.BroadcastGuard` | app.py:281-286 | a missing or empty message is refused with 400, a failed connection with 500, a failed query with 500; otherwise the broadcast proceeds |
| `Api.Alerts` | app.py:304-305 | each listed recipient, in order, gets one alert "SDRRAS ALERT: " + message |
| `AsWritten.BindingAt` | app.py:126-131 | the local `connection` at the handler's return: unbound exactly when validation refused, `None` exactly when the connection could not be opened, open otherwise |
| `AsWritten.RunFinally` | app.py:171-174 | the `finally` block raises exactly when `connection` is unbound, and otherwise lets the pending response through |
| `AsWritten.Served` | app.py:171-174 | Flask sends a returned response with its status, and an exception escaping the handler as 500 |
| `AsWritten.SubscribeRefusalServedAs500` | app.py:121-174 | /subscribe as written answers every intended 400 with 500 and keeps every other status; the two differ exactly when the phone is missing or empty |
| `AsWritten.EmergencyRefusalServedAs500` | app.py:179-226 | /emergency-request as written answers every intended 400 with 500 and keeps every other status; they differ exactly when a required field is missing |
| `AsWritten.ResourceRefusalServedAs500` | app.py:231-271 | /resource-request as written answers every intended 400 with 500 and keeps every other status; they differ exactly when a required field is falsy |
| `AsWritten.BroadcastRefusalServedAs500` | app.py:276-319 | /broadcast-alert as written answers every intended 400 with 500 and keeps every other status; they differ exactly when the message is missing or empty |
| `AsWritten.EmptySubscribeServedAs500` | app.py:121-131 | POST /subscribe with an empty body is meant to give 400 with no write, and as written gives 500 |
| `Handlers.Subscribe` | app.py:118-174 | response, subscriber table and SMS are exactly those of `Api.SubscribeSpec`; the request tables are unchanged |
| `Handlers.EmergencyRequest` | app.py:176-226 | response, emergency rows and SMS are exactly those of `Api.EmergencySpec`; the other tables are unchanged |
| `Handlers.ResourceRequest` | app.py:228-271 | response, resource rows and SMS are exactly those of `Api.ResourceSpec`; the other tables are unchanged |
| `Handlers.BroadcastAlert` | app.py:273-319 | a refusal sends nothing; otherwise every recipient is sent the alert exactly once, a failed send does not stop the loop, the reply reports the number of accepted sends, which is at most the number of recipients, and no table changes |

## Left out

- Flask routing, `request.get_json`, `jsonify` and the landing page: HTTP plumbing. A body that is not a JSON object, and field values that are not strings (or integers for the quantity), are not modelled; each field is missing, null or a value of its type.
- MySQL: connecting, cursors and closing become the `Api.Db` parameter. A database error is treated as all-or-nothing: nothing is committed and nothing is sent. Which statement fails (for instance a value longer than its VARCHAR column) is not modelled.
- MySQL collations: the tables' default collation may compare phones and areas without regard to case or trailing spaces; the model compares strings exactly.
- Timestamps, auto-increment ids, the `print` logging and the schema bootstrap (`init_database`, `create_database.py`): no behaviour beyond creating empty tables.
- The Twilio client and its configuration: `Notification.Gateway.Send` records the attempt and returns an unconstrained outcome.
- Concurrency: handlers run one at a time; the race between the SELECT and the INSERT of two simultaneous first subscriptions of one phone is noted at `Handlers.Subscribe`, not modelled.
- Messages.AsciiUpper: upper-cases ASCII letters only; Python's `str.upper` on other characters (and its length changes, such as 'ß' becoming 'SS') is not modelled.
- Handlers.BroadcastAlert: the order of the query's rows is left to the database, so the contract fixes which phones are alerted, not in what order.

## Findings

| source | as written | input that shows it | evidently intended | confidence | as-written member | corrected member |
|---|---|---|---|---|---|---|
| app.py:171-174 | the `finally` block tests `connection`, which is not yet assigned when validation returns early, so `UnboundLocalError` replaces the 400 response with a 500 (the same holds at app.py:223-226, 268-271, 316-319; see `AsWritten.EmergencyRefusalServedAs500`, `AsWritten.ResourceRefusalServedAs500`, `AsWritten.BroadcastRefusalServedAs500`) | POST /subscribe with body `{}` | answer 400 "Phone number is required", with no write | not executed | `AsWritten.SubscribeRefusalServedAs500` | `Api.HttpStatus` |
