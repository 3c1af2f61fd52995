# Chiron submission bridge — a Dafny model

This project models the one piece of the taximeter backend that has real logic: the
`POST /send` handler in `routes/chiron.js`. The handler takes a recorded taxi ride and the
caller's configuration and submits the ride to the Flemish MOW "Chiron" `/ritten` API. It
works in stages:

- it picks the TEST or PROD endpoints from `cfg.env`;
- it resolves the OAuth2 client id and secret, per field, from the company row or the caller;
- it gets a client-credentials token;
- it translates the ride into the `/ritten` JSON body (`buildChironBody`);
- it posts that body and records the answer in the `trips` ledger before it reports back
  ("record, then report").

Files:

- `wrappers.dfy` — `Option`; `None` stands for JavaScript `undefined`/`null`.
- `js_values.dfy` — the JavaScript semantics the handler relies on: parsed JSON values,
  truthiness (what `||` and `!` test, so a genuine `0` or `""` counts as absent), property
  reads (a read on `null` throws), and `Reply`, the answer of a call that may throw.
- `decimal.dfy` — `Number(x).toFixed(2)` on exact decimals: the nearest count of hundredths
  (ties away from zero), printed with an optional minus sign, the whole part and exactly two
  fractional digits, with a reading-back function that the printed string is proved against.
- `chiron.dfy` — environment routing, credential resolution, the body translation, the
  ledger row, the `Ledger` class (an appended sequence of rows), and the handler itself as
  methods over that ledger.

The network, the database and the clock are inputs to the handler:

- the company lookup, the token call and the submission call each arrive as a `Reply`
  (threw, or returned a value);
- the submission's answer carries its text and what that text parses to;
- the ledger insert gets a flag saying whether it fails;
- `now` is the ISO time of the call.

The handler returns the caller's response together with a trace of the calls it made
(`QueryCompany`, `RequestToken`, `PostRitten`, `InsertTrip`). That trace is what the
"no network call" and "exactly one insert" promises are stated over.

Three behaviours of the code that the model keeps:

- Credentials are resolved field by field, so a stored client id can pair with the caller's
  secret.
- Errors thrown inside the handler reach its outer `catch` and give a 500 response, with
  nothing written, when the company query fails, the token call fails or its body is not
  JSON, the token body is JSON `null`, or the submission call fails.
- The token body is parsed before its `ok` flag is checked, so an OAuth error page that is
  not JSON gives 500, not "OAuth failed".

`buildChironBody` returns the request's `status`, but only the body is posted.

## Model

| member | source | states |
|---|---|---|
| `Chiron.NormaliseEnv` | routes/chiron.js:85 | the environment is "PROD" exactly when `cfg.env` is the string "PROD", and "TEST" for every other value, absent included |
| `Chiron.OAuthBase` | routes/chiron.js:8-12 | the OAuth base is `https://` + host + `/oauth`, with host `mow.api.vlaanderen.be` for "PROD" and `mow-acc.api.vlaanderen.be` for anything else; the host is read back from the URL |
| `Chiron.ApiBase` | routes/chiron.js:14-18 | the API base is `https://` + host + `/mobiliteit/chiron`, with the same host choice as the OAuth base |
| `Chiron.SameHostForOneEnv` | routes/chiron.js:8-18 | the token call and the submission for one environment go to the same host, and that host is the production one exactly when the environment normalises to "PROD" |
| `Chiron.ResolveCredentials` | routes/chiron.js:87-94 | a pair is produced exactly when each field has a truthy stored or caller value; each field is the stored value when that is truthy, else the caller's; a produced pair has two non-empty fields |
| `Chiron.StoredCredentialsIgnoreFallback` | routes/chiron.js:87-90 | with both stored values present for the environment, the caller's credentials make no difference and a pair is always produced |
| `Chiron.FormatAmount` | routes/chiron.js:53-58 | an amount is posted as a string with exactly two fractional digits that reads back as its rounded count of hundredths, and as "0.00" when absent or zero |
| `Chiron.BuildChironBody` | routes/chiron.js:21-63 | identifiers default to ""; departure time passes through; arrival time is the end time when truthy, else equal to the departure time; each arrival coordinate is the end value when truthy, else equal to the departure coordinate, which is the start value or 0; both amounts are formatted; `broncreatiedatum` is the translation time; status passes through |
| `Chiron.ZeroEndLongitudeFallsBack` | routes/chiron.js:50 | for every ride, a genuine end longitude of 0 is read as absent, so the arrival takes the departure longitude (the start longitude, or 0) |
| `Chiron.RideWithoutArrival` | routes/chiron.js:36-58 | ride R1, with only a start time, a start point, 12 km and a price of 15, is posted with ritnummer "R1", amounts "12.00" and "15.00", and its arrival time and point equal to its departure |
| `Chiron.AmountsOfRideR1` | routes/chiron.js:53-58 | amounts 12 and 15 format as "12.00" and "15.00" |
| `Chiron.LedgerRow` | routes/chiron.js:139-153 | the row keeps company, caller, trip and response; driver and ride number become null when falsy; start and end time are the ride's own when truthy, else the current time; the price is kept as given (null when absent); the status is "success" exactly when the submission was accepted, else "failed" |
| `Chiron.ParsedOrRaw` | routes/chiron.js:129-135 | a body that parses is kept as parsed; one that does not becomes exactly the one-member object `{raw: text}` |
| `Chiron.Ledger.Insert` | routes/chiron.js:138-156 | an insert appends exactly its row, or fails and leaves the ledger unchanged, and reports which |
| `Chiron.ObtainToken` | routes/chiron.js:107-116 | a token is obtained exactly when the reply is ok and its `access_token` is truthy; otherwise the answer is 500 for a thrown call or a `null` body, 400 "OAuth failed" with the body as details for a non-ok reply, and 400 "No access_token from OAuth" otherwise |
| `Chiron.Authorize` | routes/chiron.js:73-116 | the company row is read first; an unknown company or missing credentials stop with the matching 400 before any token call; with credentials, exactly one token call is made, to the environment's `/token` URL with `id:secret` as Basic credentials and the client-credentials grant |
| `Chiron.SubmitAndRecord` | routes/chiron.js:118-162 | the translated body is posted to the environment's `/ritten` URL with the token; once answered, exactly one insert of the matching row is attempted, and the caller gets the body (200) or 400 "Chiron API error" with it as details, whether or not the insert succeeded |
| `Chiron.Send` | routes/chiron.js:66-167 | missing status, trip or cfg answer 400 before any call; pre-flight and token failures write nothing, and failed pre-flight checks make no token call; an answered submission leads to one insert tagged "success" or "failed"; the ledger is either unchanged or grows by that one row; the response is 200 exactly when the submission was answered ok |
| `JsValues.Property` | routes/chiron.js:113 | `body.access_token` throws exactly on `null`, reads the member of an object, and is undefined on any other value |
| `JsValues.Lookup` | routes/chiron.js:113 | a member read finds the key exactly when some member has it, and then yields the value of its last occurrence |
| `Decimal.Fixed2` | routes/chiron.js:54 | the printed string has an optional "-", digits without a leading zero, a point and two digits; it reads back as the count of hundredths; it starts with "-" exactly for negative input |
| `Decimal.Hundredths` | routes/chiron.js:54 | the count of hundredths is within one half of 100·x, with a tie resolved away from zero |
| `Decimal.HundredthsUnique` | routes/chiron.js:54 | those bounds determine the count of hundredths uniquely |
| `Decimal.Digits` | routes/chiron.js:54 | the whole part is a non-empty string of digits that starts with "0" only for zero |
| `Decimal.DigitsValueOfDigits` | routes/chiron.js:54 | reading back the printed whole part gives the number printed |
| `Decimal.Fixed2OfZero` | routes/chiron.js:54-57 | zero prints as "0.00" |
| `Decimal.Fixed2OfWhole` | routes/chiron.js:54-57 | a whole amount prints as its numeral followed by ".00" |
| `Decimal.Fixed2OfTwelveAndFifteen` | routes/chiron.js:54-57 | 12 and 15 print as "12.00" and "15.00" |

## Left out

- HTTP transport (`node-fetch`), Express routing and the `auth()` middleware. The caller
  identity and every answer are inputs.
- The base64 encoding of the Basic header. The trace records the `id:secret` string it is
  built from.
- `JSON.parse`, `JSON.stringify`, `console.error` and `Date`. Parse results and the current
  time are inputs; JSON serialisation and logging are not modelled.
- Chiron.Send: the three reads of the clock are treated as one instant, `now`. This covers
  `broncreatiedatum` and the ledger's fallback start and end times.
- Chiron.LedgerRow: start and end times are stored as the ISO strings given. `new Date(...)`
  parsing and the way the database stores an invalid date are not modelled.
- Decimal.Fixed2: uses fixed notation for every magnitude. JavaScript switches to exponential
  notation at 10^21 and above.
- Decimal.Fixed2: rounds the exact decimal it is given, with no binary floating-point step.
- NaN, Infinity and string-valued amounts or coordinates are not modelled, because fields
  have their intended types (numbers as exact decimals, identifiers as strings). Neither are
  fields of an unexpected type, such as a numeric `ritnummer` or a non-object `trip`.
- Chiron.Send: a thrown error with no message (its `message` key left out of the 500 body)
  is not modelled; every throw carries a message string.
- The SQL of the company query and the insert, and the other routes (`auth.js`, `trips.js`,
  `company.js`, `vehicles.js`, `itsme.js`, `server.js`). The datastore is external, and those
  routes are plain database reads and writes without local logic.
