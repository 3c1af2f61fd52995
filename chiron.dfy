/**
 * The bridge that submits a recorded taxi ride to the Flemish MOW "Chiron"
 * API (`POST /send`): environment routing, credential resolution, the
 * translation of a ride into a `/ritten` body, and the handler that runs the
 * stages in order and records every answered submission in the trip ledger.
 *
 * The network, the database and the clock are inputs: each outbound call is
 * answered by a `Reply` the caller supplies, and the handler reports the calls
 * it made as a trace of effects.
 */
module Chiron {
  import opened Wrappers
  import opened JsValues
  import opened Decimal

  // ---------------------------------------------------------------------------
  // Environment routing

  const ProdHost := "mow.api.vlaanderen.be"
  const TestHost := "mow-acc.api.vlaanderen.be"

  /** The part of a URL before the first "/" (after the scheme is stripped). */
  function Authority(s: string): (a: string)
    ensures '/' !in a
    decreases |s|
  {
    if s == [] || s[0] == '/' then [] else [s[0]] + Authority(s[1..])
  }

  /** The host of an `https://` URL, or "" for any other string. */
  function HostOf(url: string): string {
    if 8 <= |url| && url[..8] == "https://" then Authority(url[8..]) else ""
  }

  lemma {:induction false} AuthorityOfHostPath(host: string, path: string)
    requires '/' !in host
    requires path == [] || path[0] == '/'
    ensures Authority(host + path) == host
    decreases |host|
  {
    if host != [] {
      assert (host + path)[1..] == host[1..] + path;
      AuthorityOfHostPath(host[1..], path);
    }
  }

  lemma HostOfUrl(host: string, path: string)
    requires '/' !in host
    requires path == [] || path[0] == '/'
    ensures HostOf("https://" + host + path) == host
  {
    var url := "https://" + host + path;
    assert url[..8] == "https://" && url[8..] == host + path;
    AuthorityOfHostPath(host, path);
  }

  /** `cfg.env === 'PROD' ? 'PROD' : 'TEST'`. */
  function NormaliseEnv(env: Option<string>): (r: string)
    ensures r == "PROD" || r == "TEST"
    ensures r == "PROD" <==> env == Some("PROD")
  {
    if env == Some("PROD") then "PROD" else "TEST"
  }

  /** `getOAuthBase`: the production OAuth host for "PROD", the acceptance host otherwise. */
  function OAuthBase(env: string): (r: string)
    ensures HostOf(r) == (if env == "PROD" then ProdHost else TestHost)
    ensures r == "https://" + HostOf(r) + "/oauth"
  {
    var host := if env == "PROD" then ProdHost else TestHost;
    HostOfUrl(host, "/oauth");
    "https://" + host + "/oauth"
  }

  /** `getApiBase`: the production API host for "PROD", the acceptance host otherwise. */
  function ApiBase(env: string): (r: string)
    ensures HostOf(r) == (if env == "PROD" then ProdHost else TestHost)
    ensures r == "https://" + HostOf(r) + "/mobiliteit/chiron"
  {
    var host := if env == "PROD" then ProdHost else TestHost;
    HostOfUrl(host, "/mobiliteit/chiron");
    "https://" + host + "/mobiliteit/chiron"
  }

  /** The token call and the submission of one request go to the same host. */
  lemma SameHostForOneEnv(env: string)
    ensures HostOf(OAuthBase(env)) == HostOf(ApiBase(env))
    ensures HostOf(OAuthBase(env)) == ProdHost <==> NormaliseEnv(Some(env)) == "PROD"
  {
  }

  // ---------------------------------------------------------------------------
  // Requests, stored credentials, credential resolution

  /** The ride as the taximeter posts it; every field may be absent. */
  datatype Trip = Trip(
    ritnummer: Option<string>,
    startTimeIso: Option<string>,
    endTimeIso: Option<string>,
    startLat: Option<real>,
    startLng: Option<real>,
    endLat: Option<real>,
    endLng: Option<real>,
    distanceKm: Option<real>,
    price: Option<real>)

  /** The caller's configuration: environment, fallback credentials, plate and driver card. */
  datatype Config = Config(
    env: Option<string>,
    clientId: Option<string>,
    clientSecret: Option<string>,
    defaultPlate: Option<string>,
    driverCardId: Option<string>)

  /** The request body `{status, trip, cfg}`; a missing body leaves all three absent. */
  datatype Request = Request(status: Option<string>, trip: Option<Trip>, cfg: Option<Config>)

  /** The authenticated caller that the session middleware supplies. */
  datatype Caller = Caller(companyId: int, userId: Option<int>)

  /** The Chiron columns of a company row: one pair for PROD, one for TEST. */
  datatype Company = Company(
    chironClientId: Option<string>,
    chironSecret: Option<string>,
    chironTestId: Option<string>,
    chironTestSecret: Option<string>)

  datatype Credentials = Credentials(clientId: string, clientSecret: string)

  /**
   * routes/chiron.js lines 87-94: each field independently takes the company's stored value for
   * the environment when it is truthy and the caller's otherwise; the pair is
   * refused unless both resulting fields are non-empty.
   */
  function ResolveCredentials(env: string, company: Company, cfg: Config): (r: Option<Credentials>)
    ensures var storedId := if env == "PROD" then company.chironClientId else company.chironTestId;
            var storedSecret := if env == "PROD" then company.chironSecret else company.chironTestSecret;
            (r.Some? <==> (TruthyStr(storedId) || TruthyStr(cfg.clientId)) &&
                          (TruthyStr(storedSecret) || TruthyStr(cfg.clientSecret))) &&
            (r.Some? ==> r.value.clientId != "" && r.value.clientSecret != "") &&
            // a stored value always wins over the caller's
            (r.Some? && TruthyStr(storedId) ==> r.value.clientId == storedId.value) &&
            (r.Some? && TruthyStr(storedSecret) ==> r.value.clientSecret == storedSecret.value) &&
            // and the caller's is used only where nothing usable is stored
            (r.Some? && !TruthyStr(storedId) ==> Some(r.value.clientId) == cfg.clientId) &&
            (r.Some? && !TruthyStr(storedSecret) ==> Some(r.value.clientSecret) == cfg.clientSecret)
  {
    var clientId :=
      if env == "PROD" then OrStr(company.chironClientId, cfg.clientId)
      else OrStr(company.chironTestId, cfg.clientId);
    var clientSecret :=
      if env == "PROD" then OrStr(company.chironSecret, cfg.clientSecret)
      else OrStr(company.chironTestSecret, cfg.clientSecret);
    if !TruthyStr(clientId) || !TruthyStr(clientSecret) then None
    else Some(Credentials(clientId.value, clientSecret.value))
  }

  /** With both stored values present, the caller's fallback credentials make no difference. */
  lemma StoredCredentialsIgnoreFallback(env: string, company: Company, cfg: Config, cfg': Config)
    requires env == "PROD" ==> TruthyStr(company.chironClientId) && TruthyStr(company.chironSecret)
    requires env != "PROD" ==> TruthyStr(company.chironTestId) && TruthyStr(company.chironTestSecret)
    ensures ResolveCredentials(env, company, cfg) == ResolveCredentials(env, company, cfg')
    ensures ResolveCredentials(env, company, cfg).Some?
  {
  }

  // ---------------------------------------------------------------------------
  // Translation of a ride into a `/ritten` body

  datatype Voertuig = Voertuig(nummerplaat: string)
  datatype Uitvoerder = Uitvoerder(bestuurderspasnummer: string)
  datatype Punt = Punt(lengtegraad: real, breedtegraad: real)
  datatype Waarde = Waarde(waarde: string)

  /** The JSON body of a `/ritten` submission; `None` is `undefined` or `null`. */
  datatype Rit = Rit(
    ritnummer: string,
    voertuig: Voertuig,
    uitvoerder: Uitvoerder,
    vertrektijdstip: Option<string>,
    vertrekpunt: Punt,
    aankomsttijdstip: Option<string>,
    aankomstpunt: Punt,
    afstand: Waarde,
    kostprijs: Waarde,
    broncreatiedatum: string)

  /** What `buildChironBody` returns: the status it was given and the body to post. */
  datatype ChironPayload = ChironPayload(status: string, body: Rit)

  /** A formatted amount: two fractional digits, the value rounded, "0.00" when absent or zero. */
  predicate FormatsAmount(w: Waarde, amount: Option<real>) {
    IsFixed2(w.waarde) &&
    Fixed2Value(w.waarde) == Hundredths(OrNum(amount, 0.0)) &&
    (!TruthyNum(amount) ==> w.waarde == "0.00")
  }

  /** `x || ''`. */
  function OrEmpty(o: Option<string>): (s: string)
    ensures TruthyStr(o) ==> s == o.value
    ensures !TruthyStr(o) ==> s == ""
  {
    OrStr(o, Some("")).value
  }

  /** `Number(amount || 0).toFixed(2)`. */
  function FormatAmount(amount: Option<real>): (w: Waarde)
    ensures FormatsAmount(w, amount)
  {
    Fixed2OfZero();
    Waarde(Fixed2(OrNum(amount, 0.0)))
  }

  /**
   * `buildChironBody(status, trip, cfg)`, with `now` the ISO time of the call.
   * Identifiers default to "", the arrival time to the departure time, the
   * arrival point field by field to the departure point, and the departure
   * point to 0; a zero coordinate counts as absent.
   */
  function BuildChironBody(status: string, trip: Trip, cfg: Config, now: string): (r: ChironPayload)
    ensures r.status == status && r.body.broncreatiedatum == now
    ensures TruthyStr(trip.ritnummer) ==> r.body.ritnummer == trip.ritnummer.value
    ensures !TruthyStr(trip.ritnummer) ==> r.body.ritnummer == ""
    ensures TruthyStr(cfg.defaultPlate) ==> r.body.voertuig.nummerplaat == cfg.defaultPlate.value
    ensures !TruthyStr(cfg.defaultPlate) ==> r.body.voertuig.nummerplaat == ""
    ensures TruthyStr(cfg.driverCardId) ==> r.body.uitvoerder.bestuurderspasnummer == cfg.driverCardId.value
    ensures !TruthyStr(cfg.driverCardId) ==> r.body.uitvoerder.bestuurderspasnummer == ""
    ensures r.body.vertrektijdstip == trip.startTimeIso
    ensures TruthyStr(trip.endTimeIso) ==> r.body.aankomsttijdstip == trip.endTimeIso
    ensures !TruthyStr(trip.endTimeIso) ==> r.body.aankomsttijdstip == r.body.vertrektijdstip
    ensures r.body.vertrekpunt.lengtegraad == trip.startLng.GetOr(0.0)
    ensures r.body.vertrekpunt.breedtegraad == trip.startLat.GetOr(0.0)
    ensures TruthyNum(trip.endLng) ==> r.body.aankomstpunt.lengtegraad == trip.endLng.value
    ensures !TruthyNum(trip.endLng) ==> r.body.aankomstpunt.lengtegraad == r.body.vertrekpunt.lengtegraad
    ensures TruthyNum(trip.endLat) ==> r.body.aankomstpunt.breedtegraad == trip.endLat.value
    ensures !TruthyNum(trip.endLat) ==> r.body.aankomstpunt.breedtegraad == r.body.vertrekpunt.breedtegraad
    ensures FormatsAmount(r.body.afstand, trip.distanceKm)
    ensures FormatsAmount(r.body.kostprijs, trip.price)
  {
    var body := Rit(
      OrEmpty(trip.ritnummer),
      Voertuig(OrEmpty(cfg.defaultPlate)),
      Uitvoerder(OrEmpty(cfg.driverCardId)),
      trip.startTimeIso,
      Punt(OrNum(trip.startLng, 0.0), OrNum(trip.startLat, 0.0)),
      OrStr(trip.endTimeIso, trip.startTimeIso),
      Punt(OrNum(trip.endLng, OrNum(trip.startLng, 0.0)), OrNum(trip.endLat, OrNum(trip.startLat, 0.0))),
      FormatAmount(trip.distanceKm),
      FormatAmount(trip.price),
      now);
    ChironPayload(status, body)
  }

  /**
   * A genuine zero end longitude is read as absent, so the arrival point takes
   * the departure longitude instead.
   */
  lemma ZeroEndLongitudeFallsBack(trip: Trip, cfg: Config, now: string)
    requires trip.endLng == Some(0.0)
    ensures BuildChironBody("", trip, cfg, now).body.aankomstpunt.lengtegraad == trip.startLng.GetOr(0.0)
  {
  }

  /**
   * A ride R1 with only a start time, a start point, a distance of 12 km and a
   * price of 15: the amounts print as "12.00" and "15.00" and the arrival
   * repeats the departure.
   */
  lemma RideWithoutArrival(cfg: Config, now: string)
    ensures var trip := Trip(Some("R1"), Some("2024-01-01T08:00:00Z"), None, Some(51.0), Some(4.0),
                             None, None, Some(12.0), Some(15.0));
            var body := BuildChironBody("F", trip, cfg, now).body;
            body.ritnummer == "R1" &&
            body.afstand.waarde == "12.00" && body.kostprijs.waarde == "15.00" &&
            body.aankomsttijdstip == body.vertrektijdstip == Some("2024-01-01T08:00:00Z") &&
            body.aankomstpunt == body.vertrekpunt == Punt(4.0, 51.0)
  {
    AmountsOfRideR1();
  }

  /** The amounts of ride R1 as they are posted. */
  lemma AmountsOfRideR1()
    ensures FormatAmount(Some(12.0)).waarde == "12.00"
    ensures FormatAmount(Some(15.0)).waarde == "15.00"
  {
    Fixed2OfTwelveAndFifteen();
  }

  // ---------------------------------------------------------------------------
  // The trip ledger

  /** One row of the `trips` table as the handler inserts it. */
  datatype TripRow = TripRow(
    companyId: int,
    driverId: Option<int>,
    ritnummer: Option<string>,
    startTime: string,
    endTime: string,
    price: Option<real>,
    jsonLog: Trip,
    chironStatus: string,
    chironResponse: Json)

  /**
   * The parameters of the insert on lines 142-152: null for a falsy driver or
   * ride number, the ride's own start and end time or else `now`, the price as
   * given, "success" exactly when the submission was accepted.
   */
  function LedgerRow(user: Caller, trip: Trip, now: string, accepted: bool, response: Json): (r: TripRow)
    ensures r.companyId == user.companyId && r.jsonLog == trip && r.chironResponse == response
    ensures r.driverId.Some? <==> user.userId.Some? && user.userId.value != 0
    ensures r.driverId.Some? ==> r.driverId == user.userId
    ensures r.ritnummer.Some? <==> TruthyStr(trip.ritnummer)
    ensures r.ritnummer.Some? ==> r.ritnummer == trip.ritnummer
    ensures r.startTime == (if TruthyStr(trip.startTimeIso) then trip.startTimeIso.value else now)
    ensures r.endTime == (if TruthyStr(trip.endTimeIso) then trip.endTimeIso.value else now)
    ensures r.price == trip.price
    ensures r.chironStatus == "success" <==> accepted
    ensures r.chironStatus == "success" || r.chironStatus == "failed"
  {
    TripRow(
      user.companyId,
      if user.userId.Some? && user.userId.value != 0 then user.userId else None,
      if TruthyStr(trip.ritnummer) then trip.ritnummer else None,
      if TruthyStr(trip.startTimeIso) then trip.startTimeIso.value else now,
      if TruthyStr(trip.endTimeIso) then trip.endTimeIso.value else now,
      trip.price,
      trip,
      if accepted then "success" else "failed",
      response)
  }

  /** The stored trips; an insert either appends its row or fails and leaves them as they were. */
  class Ledger {
    var rows: seq<TripRow>

    constructor()
      ensures rows == []
    {
      rows := [];
    }

    method Insert(row: TripRow, fails: bool) returns (stored: bool)
      modifies this
      ensures stored == !fails
      ensures rows == if fails then old(rows) else old(rows) + [row]
    {
      stored := !fails;
      if !fails {
        rows := rows + [row];
      }
    }
  }

  // ---------------------------------------------------------------------------
  // Oracle answers and the handler's observable behaviour

  /** The token endpoint's answer: its `ok` flag and its body, already parsed. */
  datatype TokenResponse = TokenResponse(ok: bool, body: Json)

  /** The `/ritten` endpoint's answer: its `ok` flag, its text, and what the text parses to. */
  datatype ApiResponse = ApiResponse(ok: bool, text: string, parsed: Option<Json>)

  /** The calls the handler makes, in order. */
  datatype Effect =
    | QueryCompany(companyId: int)
    | RequestToken(url: string, basicCredentials: string, form: string)
    | PostRitten(url: string, bearer: Json, body: Rit)
    | InsertTrip(row: TripRow)

  /** An HTTP status code and a JSON body. */
  datatype Response = Response(code: int, body: Json)

  const MissingFieldsError := "status, trip and cfg are required"
  const CompanyNotFoundError := "Company not found"
  const CredentialsMissingError := "Chiron credentials missing for this company"
  const OAuthFailedError := "OAuth failed"
  const NoAccessTokenError := "No access_token from OAuth"
  const ChironApiError := "Chiron API error"
  const ProxyErrorText := "Chiron proxy error"
  const ClientCredentialsGrant := "grant_type=client_credentials"

  function BadRequest(error: string): Response {
    Response(400, JObj([("error", JStr(error))]))
  }

  function BadRequestWithDetails(error: string, details: Json): Response {
    Response(400, JObj([("error", JStr(error)), ("details", details)]))
  }

  /** The 500 answer of the handler's outer catch. */
  function ProxyError(message: string): Response {
    Response(500, JObj([("error", JStr(ProxyErrorText)), ("message", JStr(message))]))
  }

  /** routes/chiron.js lines 131-135: the parsed document, or `{raw: text}` when the text is not JSON. */
  function ParsedOrRaw(text: string, parsed: Option<Json>): (r: Json)
    ensures parsed.Some? ==> r == parsed.value
    ensures parsed.None? ==> r.JObj? && r.members == [("raw", JStr(text))]
    ensures parsed.None? ==> Lookup(r.members, "raw") == Some(JStr(text))
  {
    match parsed
    case Some(j) => j
    case None => JObj([("raw", JStr(text))])
  }

  // Predicates naming how far a request gets; they read only the inputs.

  predicate HasRequiredFields(req: Request) {
    TruthyStr(req.status) && req.trip.Some? && req.cfg.Some?
  }

  predicate CompanyFound(req: Request, lookup: Reply<Option<Company>>) {
    HasRequiredFields(req) && lookup.Returned? && lookup.value.Some?
  }

  function EnvOf(req: Request): string
    requires HasRequiredFields(req)
  {
    NormaliseEnv(req.cfg.value.env)
  }

  function CredentialsOf(req: Request, lookup: Reply<Option<Company>>): Option<Credentials>
    requires CompanyFound(req, lookup)
  {
    ResolveCredentials(EnvOf(req), lookup.value.value, req.cfg.value)
  }

  predicate CredentialsResolved(req: Request, lookup: Reply<Option<Company>>) {
    CompanyFound(req, lookup) && CredentialsOf(req, lookup).Some?
  }

  /** The token call a request with resolved credentials makes. */
  function TokenCall(req: Request, lookup: Reply<Option<Company>>): Effect
    requires CredentialsResolved(req, lookup)
  {
    var creds := CredentialsOf(req, lookup).value;
    RequestToken(OAuthBase(EnvOf(req)) + "/token", creds.clientId + ":" + creds.clientSecret, ClientCredentialsGrant)
  }

  predicate TokenGranted(req: Request, lookup: Reply<Option<Company>>, tokenReply: Reply<TokenResponse>) {
    CredentialsResolved(req, lookup) && tokenReply.Returned? && tokenReply.value.ok &&
    var access := Property(tokenReply.value.body, "access_token");
    access.Returned? && TruthyProperty(access.value)
  }

  function AccessToken(tokenReply: Reply<TokenResponse>): Json
    requires tokenReply.Returned?
    requires var access := Property(tokenReply.value.body, "access_token");
             access.Returned? && access.value.Some?
  {
    Property(tokenReply.value.body, "access_token").value.value
  }

  /** The answer to a request whose token call was answered without a usable token. */
  function TokenFailure(token: TokenResponse): Response {
    if !token.ok then BadRequestWithDetails(OAuthFailedError, token.body)
    else if token.body == JNull then ProxyError(NullPropertyMessage("access_token"))
    else BadRequest(NoAccessTokenError)
  }

  predicate SubmissionAnswered(req: Request, lookup: Reply<Option<Company>>,
                               tokenReply: Reply<TokenResponse>, apiReply: Reply<ApiResponse>) {
    TokenGranted(req, lookup, tokenReply) && apiReply.Returned?
  }

  /**
   * routes/chiron.js lines 107-116: the answer of the token call. A usable token needs an ok
   * response whose body has a truthy `access_token`; a `null` body makes the
   * property read throw.
   */
  method ObtainToken(tokenReply: Reply<TokenResponse>) returns (accessToken: Option<Json>, failure: Response)
    ensures accessToken.Some? <==>
              tokenReply.Returned? && tokenReply.value.ok &&
              var access := Property(tokenReply.value.body, "access_token");
              access.Returned? && TruthyProperty(access.value)
    ensures accessToken.Some? ==> accessToken.value == AccessToken(tokenReply) && Truthy(accessToken.value)
    ensures accessToken.None? ==>
              failure == (if tokenReply.Threw? then ProxyError(tokenReply.message) else TokenFailure(tokenReply.value))
  {
    failure := BadRequest(NoAccessTokenError);
    accessToken := None;
    if tokenReply.Threw? {
      failure := ProxyError(tokenReply.message);
      return;
    }
    var tokenRes := tokenReply.value;
    if !tokenRes.ok {
      failure := BadRequestWithDetails(OAuthFailedError, tokenRes.body);
      return;
    }
    var access := Property(tokenRes.body, "access_token");
    if access.Threw? {
      failure := ProxyError(access.message);
      return;
    }
    if !TruthyProperty(access.value) {
      return;
    }
    accessToken := Some(access.value.value);
  }

  /**
   * routes/chiron.js lines 118-162: post the translated ride, then record the answer and report
   * it. An answered submission attempts exactly one insert; a failing insert
   * leaves the response unchanged.
   */
  method SubmitAndRecord(ledger: Ledger, env: string, accessToken: Json, status: string, trip: Trip, cfg: Config,
                         user: Caller, apiReply: Reply<ApiResponse>, insertFails: bool, now: string)
    returns (resp: Response, effects: seq<Effect>)
    modifies ledger
    ensures 1 <= |effects| &&
            effects[0] == PostRitten(ApiBase(env) + "/ritten", accessToken, BuildChironBody(status, trip, cfg, now).body)
    ensures apiReply.Threw? ==>
              |effects| == 1 && ledger.rows == old(ledger.rows) && resp == ProxyError(apiReply.message)
    ensures apiReply.Returned? ==>
              var api := apiReply.value;
              var apiJson := ParsedOrRaw(api.text, api.parsed);
              var row := LedgerRow(user, trip, now, api.ok, apiJson);
              |effects| == 2 && effects[1] == InsertTrip(row) &&
              ledger.rows == (if insertFails then old(ledger.rows) else old(ledger.rows) + [row]) &&
              resp == (if api.ok then Response(200, apiJson) else BadRequestWithDetails(ChironApiError, apiJson))
  {
    var payload := BuildChironBody(status, trip, cfg, now);
    effects := [PostRitten(ApiBase(env) + "/ritten", accessToken, payload.body)];
    if apiReply.Threw? {
      resp := ProxyError(apiReply.message);
      return;
    }
    var apiRes := apiReply.value;

    var apiJson;
    if apiRes.parsed.Some? {
      apiJson := apiRes.parsed.value;
    } else {
      apiJson := JObj([("raw", JStr(apiRes.text))]);
    }

    var row := LedgerRow(user, trip, now, apiRes.ok, apiJson);
    effects := effects + [InsertTrip(row)];
    var _ := ledger.Insert(row, insertFails);

    if !apiRes.ok {
      resp := BadRequestWithDetails(ChironApiError, apiJson);
      return;
    }
    resp := Response(200, apiJson);
  }

  /**
   * routes/chiron.js lines 73-116, for a request that has passed validation: read the company
   * row, resolve the credentials, and ask for a token. It stops at the first
   * stage that fails, with the answer the caller then receives.
   */
  method Authorize(req: Request, user: Caller, lookup: Reply<Option<Company>>, tokenReply: Reply<TokenResponse>)
    returns (accessToken: Option<Json>, failure: Response, effects: seq<Effect>)
    requires HasRequiredFields(req)
    ensures 1 <= |effects| && effects[0] == QueryCompany(user.companyId)
    ensures !CredentialsResolved(req, lookup) ==>
              |effects| == 1 && accessToken.None? &&
              failure == (if lookup.Threw? then ProxyError(lookup.message)
                          else if lookup.value.None? then BadRequest(CompanyNotFoundError)
                          else BadRequest(CredentialsMissingError))
    ensures CredentialsResolved(req, lookup) ==> |effects| == 2 && effects[1] == TokenCall(req, lookup)
    ensures accessToken.Some? <==> TokenGranted(req, lookup, tokenReply)
    ensures accessToken.Some? ==> accessToken.value == AccessToken(tokenReply)
    ensures CredentialsResolved(req, lookup) && accessToken.None? ==>
              failure == (if tokenReply.Threw? then ProxyError(tokenReply.message) else TokenFailure(tokenReply.value))
  {
    accessToken := None;
    var cfg := req.cfg.value;
    effects := [QueryCompany(user.companyId)];
    if lookup.Threw? {
      failure := ProxyError(lookup.message);
      return;
    }
    if lookup.value.None? {
      failure := BadRequest(CompanyNotFoundError);
      return;
    }
    var company := lookup.value.value;

    var env := NormaliseEnv(cfg.env);
    var creds := ResolveCredentials(env, company, cfg);
    if creds.None? {
      failure := BadRequest(CredentialsMissingError);
      return;
    }
    var clientId, clientSecret := creds.value.clientId, creds.value.clientSecret;

    effects := effects + [RequestToken(OAuthBase(env) + "/token", clientId + ":" + clientSecret, ClientCredentialsGrant)];
    accessToken, failure := ObtainToken(tokenReply);
  }

  /**
   * The `/send` handler. Pre-flight refusals (missing fields, unknown company,
   * missing credentials) and token failures return before anything is written;
   * once the submission is answered, exactly one ledger insert is attempted,
   * tagged "success" or "failed", and the caller sees the submission's own
   * result whether or not the insert succeeded.
   */
  method Send(ledger: Ledger, req: Request, user: Caller, lookup: Reply<Option<Company>>,
              tokenReply: Reply<TokenResponse>, apiReply: Reply<ApiResponse>,
              insertFails: bool, now: string)
    returns (resp: Response, effects: seq<Effect>)
    modifies ledger
    // validation: nothing is read, called or written
    ensures !HasRequiredFields(req) ==>
              resp == BadRequest(MissingFieldsError) && effects == [] && ledger.rows == old(ledger.rows)
    // the company row is read first
    ensures HasRequiredFields(req) ==> 1 <= |effects| && effects[0] == QueryCompany(user.companyId)
    ensures HasRequiredFields(req) && !CredentialsResolved(req, lookup) ==>
              |effects| == 1 && ledger.rows == old(ledger.rows) &&
              resp == (if lookup.Threw? then ProxyError(lookup.message)
                       else if lookup.value.None? then BadRequest(CompanyNotFoundError)
                       else BadRequest(CredentialsMissingError))
    // then the token is requested with the resolved pair
    ensures CredentialsResolved(req, lookup) ==> 2 <= |effects| && effects[1] == TokenCall(req, lookup)
    ensures CredentialsResolved(req, lookup) && !TokenGranted(req, lookup, tokenReply) ==>
              |effects| == 2 && ledger.rows == old(ledger.rows) &&
              resp == (if tokenReply.Threw? then ProxyError(tokenReply.message)
                       else TokenFailure(tokenReply.value))
    // then the translated ride is posted with the token
    ensures TokenGranted(req, lookup, tokenReply) ==>
              3 <= |effects| &&
              effects[2] == PostRitten(ApiBase(EnvOf(req)) + "/ritten", AccessToken(tokenReply),
                                       BuildChironBody(req.status.value, req.trip.value, req.cfg.value, now).body)
    ensures TokenGranted(req, lookup, tokenReply) && apiReply.Threw? ==>
              |effects| == 3 && ledger.rows == old(ledger.rows) && resp == ProxyError(apiReply.message)
    // record, then report
    ensures SubmissionAnswered(req, lookup, tokenReply, apiReply) ==>
              var api := apiReply.value;
              var apiJson := ParsedOrRaw(api.text, api.parsed);
              var row := LedgerRow(user, req.trip.value, now, api.ok, apiJson);
              |effects| == 4 && effects[3] == InsertTrip(row) &&
              ledger.rows == (if insertFails then old(ledger.rows) else old(ledger.rows) + [row]) &&
              resp == (if api.ok then Response(200, apiJson) else BadRequestWithDetails(ChironApiError, apiJson))
    // summary: the ledger is unchanged, or an answered submission appended its one row
    ensures ledger.rows == old(ledger.rows) ||
            (SubmissionAnswered(req, lookup, tokenReply, apiReply) && !insertFails &&
             |effects| == 4 && effects[3].InsertTrip? && ledger.rows == old(ledger.rows) + [effects[3].row])
    ensures resp.code == 200 <==> SubmissionAnswered(req, lookup, tokenReply, apiReply) && apiReply.value.ok
  {
    if !TruthyStr(req.status) || req.trip.None? || req.cfg.None? {
      resp, effects := BadRequest(MissingFieldsError), [];
      return;
    }
    var status, trip, cfg := req.status.value, req.trip.value, req.cfg.value;

    var accessToken, failure, authEffects := Authorize(req, user, lookup, tokenReply);
    if accessToken.None? {
      resp, effects := failure, authEffects;
      return;
    }

    var rest;
    resp, rest := SubmitAndRecord(ledger, EnvOf(req), accessToken.value, status, trip, cfg, user, apiReply, insertFails, now);
    effects := authEffects + rest;
  }

  /** The same ride through the handler, with every stage answered favourably. */
  method AcceptedRideIsRecorded(company: Company, token: string, answer: Json, now: string)
    requires token != ""
  {
    var ledger := new Ledger();
    var trip := Trip(Some("R1"), Some("2024-01-01T08:00:00Z"), None, Some(51.0), Some(4.0),
                     None, None, Some(12.0), Some(15.0));
    var cfg := Config(None, Some("id"), Some("secret"), None, None);
    var req := Request(Some("F"), Some(trip), Some(cfg));
    var tokenBody := JObj([("access_token", JStr(token))]);
    var resp, effects := Send(ledger, req, Caller(7, Some(3)), Returned(Some(company)),
                              Returned(TokenResponse(true, tokenBody)),
                              Returned(ApiResponse(true, "{}", Some(answer))), false, now);
    assert resp == Response(200, answer);
    assert |effects| == 4 && effects[0] == QueryCompany(7);
    assert |ledger.rows| == 1 && ledger.rows[0].chironStatus == "success" && ledger.rows[0].startTime == "2024-01-01T08:00:00Z";
  }
}
