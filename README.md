# quick-qr-pro: a verified model of the backend handlers and the preview options

quick-qr-pro issues QR codes. A *static* code encodes its destination directly. A
*dynamic* code encodes a short link. Scanning the short link reaches the
**resolver**, which redirects to the current destination while the code is active
and records one scan in `qr_analytics`. An **order initiator** starts the paid
upgrade of a code with a payment provider, after checking who the caller is,
that the caller owns the code, and that the code is not already paid. An
**email-capture** endpoint validates an address and answers with a placeholder.
The **preview** component turns a stored design into the options record of the
QR renderer.

This project models those four pieces in Dafny and proves what they promise:

- `wrappers.dfy` (`Wrappers`): `Option`, `Result`, and JavaScript truthiness of
  an optional string together with `||` on it.
- `js_strings.dfy` (`JsStrings`): the JavaScript string operations the handlers
  use, on `seq<char>`. These are `split`, `pop` of the pieces, `replace` with a
  string pattern (with the first-occurrence search it does, as `indexOf`
  computes it), `trim`, `toLowerCase` on ASCII, and `RegExp.prototype.test` of
  a regular expression made of literal alternatives. It also has the character
  set that `\s` matches and `trim` strips.
- `qr_redirect.dfy` (`QrRedirect`): the resolver. It has two forms:
  - the pure decision `Resolve` over a snapshot of `qr_codes` keyed by `short_url`;
  - a class `Resolver` whose `Handle` method appends to the `qr_analytics` table,
    an append-only `seq`, and is proved to answer exactly what `Resolve` answers.
- `payment_order.dfy` (`PaymentOrder`): the order initiator as one total function.
  - Its inputs are the request, the environment, the store snapshot, the subject
    that the data store verifies from the `Authorization` header, the JWT
    payload decoder, the clock and the provider's reply.
  - Its output is the response and the provider request it would make, if any.
- `send_qr_email.dfy` (`SendQrEmail`): the email-capture handler. The computed
  format test is proved equal to the meaning of `^[^\s@]+@[^\s@]+\.[^\s@]+$`.
- `qr_preview.dfy` (`QrPreview`): the styling options the preview derives from
  the code's type, data, design and size.

Two behaviours of the code are worth stating on their own:

- A failed `qr_codes` lookup in the resolver is answered 404 together with
  "not found", because the code folds `qrError` into the 404. It is not a 500
  fault.
- The resolver and the order initiator answer 500 when the data-store client
  cannot be built, for example because the URL or the key is empty or missing
  and `createClient` throws.

Collaborators outside the core become parameters of the model:

| Collaborator | Modelled as |
|---|---|
| Base64 and JSON decoding of the token payload | `decodePayload` |
| The short-link builder of dynamic codes | `redirectUrl` |
| The URL parser `Response.redirect` applies to the destination: the parsed URL's serialization, or nothing when parsing throws | `parseUrl` |
| Whether the fire-and-forget analytics insert succeeds | `sinkAccepts` |
| The data store's row-level security | `verifiedSubject` |
| The clock | `now`, in integer milliseconds |
| The payment provider's answer | `reply` |

## Model

| member | source | states |
|---|---|---|
| JsStrings.Split | supabase/functions/qr-redirect/index.ts:23 | `split` yields at least one piece, and no piece contains the separator |
| JsStrings.SplitJoin | supabase/functions/qr-redirect/index.ts:23 | joining the pieces of `split` with the separator gives back the input |
| JsStrings.LastPieceIsFinalSuffix | supabase/functions/qr-redirect/index.ts:23 | the piece `pop` returns is the longest separator-free suffix: a suffix, with no separator, preceded by the separator when it is not the whole string |
| JsStrings.LastPieceEmpty | supabase/functions/qr-redirect/index.ts:23-25 | the last piece is empty exactly when the string is empty or ends with the separator |
| JsStrings.IndexOf | supabase/functions/create-payment-order/index.ts:55 | `indexOf` returns an occurrence with no earlier one, and returns nothing exactly when the pattern does not occur |
| JsStrings.ContainsAny | supabase/functions/qr-redirect/index.ts:133-135 | a regular expression of literal alternatives matches exactly when one of them occurs |
| JsStrings.ReplaceFirst | supabase/functions/create-payment-order/index.ts:55 | `replace` with a string pattern replaces the first occurrence and nothing else, changing the length by the difference of pattern and replacement; a string without the pattern is returned unchanged |
| JsStrings.ReplaceLeadingPattern | supabase/functions/create-payment-order/index.ts:55 | `replace` on a string that starts with the pattern replaces that leading occurrence |
| JsStrings.TrimStart | supabase/functions/create-payment-order/index.ts:55 | the result is a suffix; everything dropped is whitespace; the result does not start with whitespace |
| JsStrings.TrimEnd | supabase/functions/create-payment-order/index.ts:55 | the result is a prefix; everything dropped is whitespace; the result does not end with whitespace |
| JsStrings.Trim | supabase/functions/create-payment-order/index.ts:55 | `trim` returns an infix of the input with only whitespace outside it, leaving no whitespace at either end, and returns a string with none at either end unchanged |
| JsStrings.TrimStartSkipsSpace | supabase/functions/create-payment-order/index.ts:55 | a leading whitespace character is dropped by `trimStart` |
| JsStrings.AsciiLower | supabase/functions/qr-redirect/index.ts:132 | lower-casing keeps the length, leaves no upper-case ASCII letter, and leaves every other character unchanged |
| JsStrings.AsciiLowerIdempotent | supabase/functions/qr-redirect/index.ts:132 | lower-casing twice is lower-casing once |
| JsStrings.LowerOccursIffCaseless | supabase/functions/qr-redirect/index.ts:132-135 | for a pattern without upper-case letters, it occurs in the lower-cased string iff it occurs in the original string with ASCII case ignored |
| QrRedirect.GetDeviceType | supabase/functions/qr-redirect/index.ts:131-140 | mobile iff some mobile marker occurs in the lower-cased string; tablet iff none does and `tablet` occurs; desktop iff neither |
| QrRedirect.IpadIsMobile | supabase/functions/qr-redirect/index.ts:133-135 | a client string naming `ipad` in any ASCII case is mobile, never tablet |
| QrRedirect.DeviceTypeIgnoresCase | supabase/functions/qr-redirect/index.ts:131-140 | stated on the client string itself with ASCII case ignored: mobile iff some mobile marker occurs; tablet iff none does and `tablet` occurs |
| QrRedirect.DeviceNamesDistinct | supabase/functions/qr-redirect/index.ts:134-138 | the names "mobile", "tablet" and "desktop" stored as `device_type` are distinct, so each names one class |
| QrRedirect.ShortCode | supabase/functions/qr-redirect/index.ts:23 | the short code is the longest suffix of the pathname without a `/`: a suffix, free of `/`, and preceded by `/` when it is not the whole pathname |
| QrRedirect.ExpiredPage | supabase/functions/qr-redirect/index.ts:50-92 | the 410 page contains the line `Status: <status>` right after its fixed text |
| QrRedirect.AnalyticsFor | supabase/functions/qr-redirect/index.ts:100-115 | the row carries the record's id, the country and city headers when truthy and "Unknown" otherwise, and the name of the device class of the `user-agent` (empty when absent) |
| QrRedirect.Resolve | supabase/functions/qr-redirect/index.ts:15-128 | 302 iff the code resolves to an active record whose destination is a URL; the `Location` is present only on a 302 and is the URL parser's serialization of the stored destination; a row is submitted iff the record is active, and it is that record's row; the status is one of 200, 302, 400, 404, 410, 500 |
| QrRedirect.EmptySegmentIsBadRequest | supabase/functions/qr-redirect/index.ts:22-27 | an empty pathname or one ending in `/` gives 400 "Invalid QR code" and no row, whatever the store holds |
| QrRedirect.UnknownCodeIsNotFound | supabase/functions/qr-redirect/index.ts:37-46 | a short code with no record gives 404 "QR code not found" and no row |
| QrRedirect.InactiveCodeIsGone | supabase/functions/qr-redirect/index.ts:49-97 | a record whose status is not "active" gives 410, no `Location`, no row, and a body naming the status |
| QrRedirect.InactiveIgnoresDestination | supabase/functions/qr-redirect/index.ts:49-97 | for an inactive record, the destination has no influence on the outcome |
| QrRedirect.ActiveIsRedirectOrFault | supabase/functions/qr-redirect/index.ts:99-128 | an active record submits its row, then yields the redirect to the parsed destination's serialization when it parses, and a plain 500 with no `Location` when it does not |
| QrRedirect.AnalyticsDefaults | supabase/functions/qr-redirect/index.ts:100-115 | the row carries the record's id; country and city are "Unknown" exactly when the header is missing or empty, or is itself "Unknown" |
| QrRedirect.Resolver.Handle | supabase/functions/qr-redirect/index.ts:15-128 | the response is the one `Resolve` gives; the table gains the submitted row if the insert succeeds and nothing otherwise; the insert's outcome does not change the response; every stored row belongs to an active record |
| PaymentOrder.BearerToken | supabase/functions/create-payment-order/index.ts:55 | the token is no longer than the header and neither starts nor ends with whitespace |
| PaymentOrder.ExtractUserId | supabase/functions/create-payment-order/index.ts:55-62 | an extracted identity is never empty and comes only from a token containing `.` (the full characterisation is `ExtractUserIdSpec`) |
| PaymentOrder.ExtractUserIdSpec | supabase/functions/create-payment-order/index.ts:55-69 | an identity is extracted iff the token has a second `.`-segment that decodes to a non-empty `sub`, and it is that `sub` |
| PaymentOrder.NoSegmentNoIdentity | supabase/functions/create-payment-order/index.ts:58-62 | a token without `.` yields no identity, whatever the decoder does |
| JsStrings.SplitHasTwoPiecesIffSeparator | supabase/functions/create-payment-order/index.ts:58 | a string has a second `split` piece iff it contains the separator |
| PaymentOrder.BearerTokenOfStandardHeader | supabase/functions/create-payment-order/index.ts:55 | for `Bearer <token>`, the extracted token is exactly `<token>` |
| PaymentOrder.ScopedLookupNonInterference | supabase/functions/create-payment-order/index.ts:83-87 | replacing or deleting a row the caller does not own, by a row the caller does not own, leaves every lookup by the caller unchanged; without a verified subject nothing is found |
| PaymentOrder.EligibilityOf | supabase/functions/create-payment-order/index.ts:99-110 | already upgraded only when active with an expiry; never when not active or without an expiry; never with 60 days or less left; always when active with more than 60 days left |
| PaymentOrder.DaysComparisonIsMillisComparison | supabase/functions/create-payment-order/index.ts:102-104 | the days comparison over the reals equals the integer millisecond comparison used by the model |
| PaymentOrder.EarlyResponse | supabase/functions/create-payment-order/index.ts:12-110 | the guards stop the request iff not every guard passes; a 200 from a guard is only the preflight "ok", and no guard answers with an order |
| PaymentOrder.BodyResponse | supabase/functions/create-payment-order/index.ts:71-110 | past authentication, the body, required-id, scoped-lookup and eligibility guards stop the request iff the verified caller does not own an eligible record named by a readable body; none of them answers 200 or with an order |
| PaymentOrder.CreateOrder | supabase/functions/create-payment-order/index.ts:10-164 | the provider is called iff every guard passes; a non-preflight 200 and an order body both need a provider call whose reply was ok |
| PaymentOrder.NonOwnerNeverGetsOrder | supabase/functions/create-payment-order/index.ts:81-130 | for every request, environment, token and reply: unless the verified caller owns the record the body names, there is no provider call and no order body |
| PaymentOrder.ProviderResponse | supabase/functions/create-payment-order/index.ts:132-163 | once the provider is called, the answer is 200 exactly when its reply was ok, and an order body exactly then; a non-ok status or a throw becomes a 500 |
| PaymentOrder.OrderRequestFor | supabase/functions/create-payment-order/index.ts:115-129 | the order request carries the provider credentials, amount 1000, currency "USD", the QR code id as receipt and the caller id and QR code id as notes |
| PaymentOrder.DecimalString | supabase/functions/create-payment-order/index.ts:135 | `String(n)` is non-empty, starts with `-` exactly for a negative number, is otherwise made of decimal digits, and has no leading zero except for 0 itself |
| PaymentOrder.DecimalStringRoundTrip | supabase/functions/create-payment-order/index.ts:135 | reading `String(n)` back as a decimal number gives `n`, so the error message names the provider's status |
| PaymentOrder.OrderRequestShape | supabase/functions/create-payment-order/index.ts:112-130 | a provider call is made only for the verified owner of an existing record, with amount 1000, currency "USD", the QR code id as receipt, and the caller id and the QR code id as notes |
| PaymentOrder.PreflightFirst | supabase/functions/create-payment-order/index.ts:12-14 | OPTIONS gets "ok" before anything else |
| PaymentOrder.MissingCredentialsFirst | supabase/functions/create-payment-order/index.ts:17-23 | missing provider credentials give 500 "Razorpay credentials not configured" whatever the request and the store hold |
| PaymentOrder.MissingHeaderUnauthorized | supabase/functions/create-payment-order/index.ts:32-38 | a missing or empty `Authorization` header gives 401 "No authorization header" |
| PaymentOrder.NoIdentityUnauthorized | supabase/functions/create-payment-order/index.ts:54-69 | no extractable identity gives 401 "Unauthorized" / "Auth session missing!" and no provider call |
| PaymentOrder.MissingIdBadRequest | supabase/functions/create-payment-order/index.ts:72-79 | a missing or empty `qr_code_id` gives 400 "qr_code_id is required" |
| PaymentOrder.LookupMissIsNotFound | supabase/functions/create-payment-order/index.ts:89-94 | whenever the scoped lookup finds nothing, the answer is 404 and no provider call |
| PaymentOrder.NotOwnedLooksLikeMissing | supabase/functions/create-payment-order/index.ts:83-94 | a record owned by someone else and a missing record give the same 404 and no provider call |
| PaymentOrder.OnlyOwnerGetsOrder | supabase/functions/create-payment-order/index.ts:81-94 | a caller other than the verified owner never causes a provider call and never gets an order |
| PaymentOrder.AlreadyUpgradedRejected | supabase/functions/create-payment-order/index.ts:99-110 | an owned, active record with more than 60 days left gives 400 "This QR code is already upgraded to Pro" and no provider call |
| PaymentOrder.NotUpgradedReachesProvider | supabase/functions/create-payment-order/index.ts:96-130 | an owned record that is inactive, has no expiry, or has at most 60 days left reaches the provider |
| PaymentOrder.ProviderReplyShapesResponse | supabase/functions/create-payment-order/index.ts:132-153 | a non-ok reply gives 500 "Razorpay API error: <status>"; a throw gives 500 with its message; an ok reply gives 200 with only the order's id, amount and currency |
| PaymentOrder.NotesNameOwner | supabase/functions/create-payment-order/index.ts:121-129 | when the store verifies the subject the token claims, the notes name the owner of the record being paid for |
| SendQrEmail.IsEmailFormat | supabase/functions/send-qr-email/index.ts:25-26 | the computed format test accepts exactly the strings the regular expression matches |
| SendQrEmail.FormatImpliesRegex | supabase/functions/send-qr-email/index.ts:25 | every string the computed test accepts matches the regular expression |
| SendQrEmail.RegexImpliesFormat | supabase/functions/send-qr-email/index.ts:25 | every string matching the regular expression passes the computed test |
| SendQrEmail.EmailFormatCharacterisation | supabase/functions/send-qr-email/index.ts:25 | for `local@domain` with one `@`, the format holds iff there is no whitespace, the local part is non-empty, and the domain has a `.` that is neither first nor last |
| SendQrEmail.HandleEmail | supabase/functions/send-qr-email/index.ts:8-89 | a non-preflight 200 iff the body was read, both fields are present and the email matches the regular expression; "Invalid email format" only for present fields with a non-matching email |
| SendQrEmail.PreflightNoValidation | supabase/functions/send-qr-email/index.ts:10-12 | OPTIONS gets 200 with no body and no validation |
| SendQrEmail.RequiredBeforeFormat | supabase/functions/send-qr-email/index.ts:17-22 | a missing or empty field gives 400 "Email and URL are required", even with a malformed email |
| SendQrEmail.FormatDecides | supabase/functions/send-qr-email/index.ts:24-80 | with both fields present, the regular expression alone decides between the placeholder 200 and 400 "Invalid email format" |
| SendQrEmail.UnreadableBodyIsServerError | supabase/functions/send-qr-email/index.ts:82-88 | a body that cannot be read gives 500 with the error's message |
| QrPreview.PreviewOptions | src/components/QRCodePreview.tsx:33-80 | the preview renders as SVG with rounded dots, extra-rounded corner squares and dot-shaped corner dots; its other fields are stated by the lemmas below |
| QrPreview.EncodedData | src/components/QRCodePreview.tsx:35 | dynamic codes encode the short link built from their data; static codes encode their data unchanged |
| QrPreview.DataIgnoresDesign | src/components/QRCodePreview.tsx:35 | the encoded data does not depend on the design or the size |
| QrPreview.ColourFallbacks | src/components/QRCodePreview.tsx:43-57 | the dot colour falls back to black and the background to white; the two corner colours agree and fall back to the dot colour |
| QrPreview.LogoRules | src/components/QRCodePreview.tsx:61-69 | `image` is set iff `logo_url` is truthy, and then to it; the image options keep `crossOrigin` "anonymous", background dots shown and size 0.4 |
| QrPreview.MarginRule | src/components/QRCodePreview.tsx:61-79 | the image margin is 10 with frame text, else 8 with a logo, else 0 |
| QrPreview.FramePatchOnly | src/components/QRCodePreview.tsx:72-80 | frame text changes only the error-correction level, to "H", and the margin, to 10; without frame text no level is set |
| QrPreview.DefaultDimensions | src/components/QRCodePreview.tsx:24 | width and height are 200 when left out and the given values otherwise |

## Left out

- `new URL(req.url)` in the resolver is not modelled. The model starts from the
  pathname, so a request URL that does not parse (a 500) is not represented.
- Data-store faults in the resolver's `qr_codes` lookup and in the order
  initiator's lookup, and `.single()` seeing more than one row with the same key,
  are not inputs of the model: the store is a map, which can neither fail nor
  hold duplicates. The code answers all of these with the same 404 as a missing
  row, which is what a key absent from the map gives.
- PaymentOrder.ClientBuilds: models only an empty or missing URL or key as making
  `createClient` throw. Other throws inside the client library, such as a
  non-empty URL it cannot parse, are not modelled; the client library is not
  part of this model.
- The row-level-security policy itself is not modelled. It is the assumption
  that the store shows a caller only the rows owned by the subject it verifies
  from the same header.
- JSON bodies whose fields are not strings (numbers, objects) are not
  modelled. A field is a string or absent, and a body that cannot be parsed
  is an error carrying its message.
- An `expires_at` that does not parse as a date (NaN arithmetic) is not modelled.
  The expiry is an integer millisecond timestamp.
- Floating-point rounding in the days computation is not modelled. The model
  uses the exact comparison justified by `DaysComparisonIsMillisComparison`.
- JsStrings.AsciiLower: lowers ASCII letters only. Full Unicode lower-casing is
  not modelled, and outside ASCII it can change a string's length.
- The base64 and JSON decoding of the token payload is the parameter
  `decodePayload`, which is uninterpreted.
- The WHATWG URL parser and serializer behind `Response.redirect` are the
  uninterpreted parameter `parseUrl`. The model does not say how a destination is
  normalized (a trailing `/`, a lower-cased host, percent-encoding), only that
  the `Location` is whatever the parser serializes.
- `getRedirectUrl` lives in `src/lib/qr-utils`, which is not part of this model.
  It is the uninterpreted parameter `redirectUrl`.
- HTTP plumbing is not modelled: the call to the payment provider, `btoa` Basic
  authentication, CORS headers, `Content-Type` headers and logging. The
  provider's answer is the input `reply`.
- `btoa` throws on a credential holding a character above U+00FF. The code then
  answers 500 without calling the provider, but the model records a provider
  call for any truthy credentials.
- The 410 page's head metadata (the `viewport` meta tag), its style sheet and its
  whitespace are left out. The page is reduced to its markup and the `Status:`
  line.
- The rendering in the preview is not modelled: `qr-code-styling`, clearing
  `innerHTML`, appending to the DOM, and the frame-text caption in the markup.
- Concurrency is not modelled: two upgrades racing for the same code, and the
  asynchronous completion of the analytics insert. Its success is the input
  `sinkAccepts`.
- The payment webhook, which marks a code as paid, is not part of this model.
- The email-capture handler's commented-out mail delivery is not modelled,
  because it is not live code.
