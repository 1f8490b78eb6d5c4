/** The API client of pkg/plugin/client/client.go: its settings, URL templates, the GET
    exchange with its failure classification, and the seven resource accessors.
    The HTTP round trip and JSON decoding are parameters: `net` answers a request and each
    accessor is handed the decoder of its response shape. */
module Client {
  import opened Wrappers
  import opened Strings

  /** The datasource settings the client is built from. */
  datatype Settings = Settings(baseUrl: string, accessToken: string, accountId: string, siteId: string)

  /** A client: a copy of the settings (the Go struct also holds a shared `*http.Client`,
      which is the `net` parameter here). */
  datatype Client = Client(baseUrl: string, accessToken: string, accountId: string, siteId: string)

  /** `NewClient`: the client starts empty and the four settings fields are copied in one by one. */
  method NewClient(settings: Settings) returns (c: Client)
    ensures c.baseUrl == settings.baseUrl
    ensures c.accessToken == settings.accessToken
    ensures c.accountId == settings.accountId
    ensures c.siteId == settings.siteId
  {
    c := Client("", "", "", "");
    c := c.(baseUrl := settings.baseUrl);
    c := c.(accessToken := settings.accessToken);
    c := c.(accountId := settings.accountId);
    c := c.(siteId := settings.siteId);
  }

  /** The request `doGet` sends: a GET of `url` carrying the bearer token. */
  datatype Request = Request(verb: string, url: string, authorization: string)

  /** What the HTTP layer did with a request: `http.NewRequest` rejected it, `client.Do` failed,
      or the server answered with a status code and a body that may or may not be readable. */
  datatype Exchange =
    | Unsendable(cause: string)
    | TransportFailed(cause: string)
    | Replied(status: int, body: Result<string, string>)

  /** The errors `doGet` can return, one constructor per early return. */
  datatype Error =
    | RequestError(cause: string)
    | TransportError(cause: string)
    | ErrorBodyUnreadable(status: int, cause: string)
    | StatusError(status: int, body: string)
    | BodyUnreadable(cause: string)
    | DecodeError(cause: string)

  /** `err.Error()`: the text of an error as the Go code formats it. */
  function Message(e: Error): (m: string)
    ensures e.RequestError? || e.TransportError? || e.BodyUnreadable? || e.DecodeError? ==> m == e.cause
    ensures e.StatusError? ==>
      "error: code: " <= m && |m| >= |e.body| && m[|m| - |e.body|..] == e.body
    ensures e.ErrorBodyUnreadable? ==>
      "error reading error body code: " <= m && |m| >= |e.cause| && m[|m| - |e.cause|..] == e.cause
  {
    match e
    case RequestError(cause) => cause
    case TransportError(cause) => cause
    case ErrorBodyUnreadable(status, cause) =>
      "error reading error body code: " + IntToDecimal(status) + " response: " + cause
    case StatusError(status, body) => "error: code: " + IntToDecimal(status) + ", response: " + body
    case BodyUnreadable(cause) => cause
    case DecodeError(cause) => cause
  }

  /** The message of a status-500 reply. */
  lemma ServerErrorMessage(body: string)
    ensures Message(StatusError(500, body)) == "error: code: 500, response: " + body
  {
    Decimal500();
    assert Message(StatusError(500, body)) == "error: code: " + "500" + ", response: " + body;
  }

  /** `%d` of 500, digit by digit. */
  lemma Decimal500()
    ensures IntToDecimal(500) == "500"
  {
    assert NatToDecimal(5) == [DecimalDigit(5)] == "5";
    assert NatToDecimal(50) == NatToDecimal(5) + [DecimalDigit(0)] == "50";
    assert NatToDecimal(500) == NatToDecimal(50) + [DecimalDigit(0)] == "500";
  }

  function GetRequest(c: Client, url: string): Request
  {
    Request("GET", url, "Bearer " + c.accessToken)
  }

  /** `doGet`: send the request, classify the reply, and decode a successful body.
      A status of 400 or more is an error carrying the raw body; the decoder never sees it. */
  function DoGet<T>(c: Client, url: string, net: Request -> Exchange, decode: string -> Result<T, string>)
    : (r: Result<T, Error>)
    ensures var x := net(GetRequest(c, url));
      r.Success? <==> x.Replied? && x.status < 400 && x.body.Success? && decode(x.body.value).Success?
    ensures var x := net(GetRequest(c, url));
      r.Success? ==> r.value == decode(x.body.value).value
    ensures var x := net(GetRequest(c, url));
      x.Replied? && x.status >= 400 ==>
        r.Failure? && r.error == (if x.body.Success? then StatusError(x.status, x.body.value)
                                  else ErrorBodyUnreadable(x.status, x.body.error))
    ensures var x := net(GetRequest(c, url));
      x.Replied? && x.status < 400 && r.Failure? ==>
        Message(r.error) == (if x.body.Failure? then x.body.error else decode(x.body.value).error)
    ensures var x := net(GetRequest(c, url));
      !x.Replied? ==> r.Failure? && Message(r.error) == x.cause
  {
    match net(GetRequest(c, url))
    case Unsendable(cause) => Failure(RequestError(cause))
    case TransportFailed(cause) => Failure(TransportError(cause))
    case Replied(status, body) =>
      if status >= 400 then
        match body
        case Failure(cause) => Failure(ErrorBodyUnreadable(status, cause))
        case Success(text) => Failure(StatusError(status, text))
      else
        match body
        case Failure(cause) => Failure(BodyUnreadable(cause))
        case Success(text) =>
          match decode(text)
          case Failure(cause) => Failure(DecodeError(cause))
          case Success(v) => Success(v)
  }

  /** An error status is reported without decoding: the outcome is the same whatever the decoder. */
  lemma ErrorStatusIgnoresDecoder<T>(c: Client, url: string, net: Request -> Exchange,
                                     d1: string -> Result<T, string>, d2: string -> Result<T, string>)
    requires net(GetRequest(c, url)).Replied? && net(GetRequest(c, url)).status >= 400
    ensures DoGet(c, url, net, d1) == DoGet(c, url, net, d2)
  {
  }

  const SiteIdPlaceholder := "{site_id}"
  const ApiBase := "https://api.netlify.com/api/v1"
  const BuildsTemplate := ApiBase + "/sites/" + SiteIdPlaceholder + "/builds"
  const DeploysTemplate := ApiBase + "/sites/" + SiteIdPlaceholder + "/deploys"
  const FormsTemplate := ApiBase + "/sites/" + SiteIdPlaceholder + "/forms"
  const SubmissionsTemplate := ApiBase + "/sites/" + SiteIdPlaceholder + "/submissions"

  /** The site id `buildUrl` substitutes: the one given, or the configured default when it is empty. */
  function EffectiveSiteId(c: Client, siteId: string): string
  {
    if siteId != "" then siteId else c.siteId
  }

  /** `buildUrl`: every `{site_id}` in `pattern` replaced by the effective site id. */
  function BuildUrl(c: Client, pattern: string, siteId: string): (url: string)
    ensures !Occurs(pattern, SiteIdPlaceholder) ==> url == pattern
  {
    assert !Occurs(pattern, SiteIdPlaceholder) ==>
        ReplaceAll(pattern, SiteIdPlaceholder, EffectiveSiteId(c, siteId)) == pattern by {
      if !Occurs(pattern, SiteIdPlaceholder) {
        ReplaceAllAbsent(pattern, SiteIdPlaceholder, EffectiveSiteId(c, siteId));
      }
    }
    ReplaceAll(pattern, SiteIdPlaceholder, EffectiveSiteId(c, siteId))
  }

  /** An empty site id falls back to the configured default site id. */
  lemma BuildUrlFallback(c: Client, pattern: string)
    ensures BuildUrl(c, pattern, "") == BuildUrl(c, pattern, c.siteId)
  {
  }

  /** Every placeholder is substituted: a template made of brace-free parts joined by `{site_id}`
      becomes those parts joined by the site id, or by the configured one when the given id is empty. */
  lemma BuildUrlSubstitutes(c: Client, parts: seq<string>, siteId: string)
    requires forall i :: 0 <= i < |parts| ==> '{' !in parts[i]
    ensures BuildUrl(c, Join(parts, SiteIdPlaceholder), siteId) == Join(parts, EffectiveSiteId(c, siteId))
  {
    ReplaceAllJoined(parts, SiteIdPlaceholder, EffectiveSiteId(c, siteId));
  }

  /** The one-placeholder case that every endpoint template of the client has. */
  lemma BuildUrlOnePlaceholder(c: Client, prefix: string, suffix: string, siteId: string)
    requires '{' !in prefix && '{' !in suffix
    ensures BuildUrl(c, prefix + SiteIdPlaceholder + suffix, siteId)
         == prefix + EffectiveSiteId(c, siteId) + suffix
  {
    ReplaceAllBetween(prefix, suffix, SiteIdPlaceholder, EffectiveSiteId(c, siteId));
  }

  /** The URL of a per-site resource: `<api>/sites/<site id>/<resource>`. */
  function SiteResourceUrl(c: Client, siteId: string, resource: string): string
  {
    ApiBase + "/sites/" + EffectiveSiteId(c, siteId) + "/" + resource
  }

  lemma BraceFreeApiSites()
    ensures '{' !in ApiBase + "/sites/"
  {
    var s := ApiBase + "/sites/";
    forall i | 0 <= i < |s| ensures s[i] != '{' {
    }
  }

  /** `GetBuilds`: GET `/sites/<site id>/builds`. */
  function GetBuilds<R>(c: Client, siteId: string, net: Request -> Exchange,
                        decode: string -> Result<seq<R>, string>): (r: Result<seq<R>, Error>)
    ensures r == DoGet(c, SiteResourceUrl(c, siteId, "builds"), net, decode)
  {
    BraceFreeApiSites();
    BuildUrlOnePlaceholder(c, ApiBase + "/sites/", "/builds", siteId);
    assert SiteResourceUrl(c, siteId, "builds") == ApiBase + "/sites/" + EffectiveSiteId(c, siteId) + "/builds";
    DoGet(c, BuildUrl(c, BuildsTemplate, siteId), net, decode)
  }

  /** `GetDeployments`: GET `/sites/<site id>/deploys`. */
  function GetDeployments<R>(c: Client, siteId: string, net: Request -> Exchange,
                             decode: string -> Result<seq<R>, string>): (r: Result<seq<R>, Error>)
    ensures r == DoGet(c, SiteResourceUrl(c, siteId, "deploys"), net, decode)
  {
    BraceFreeApiSites();
    BuildUrlOnePlaceholder(c, ApiBase + "/sites/", "/deploys", siteId);
    assert SiteResourceUrl(c, siteId, "deploys") == ApiBase + "/sites/" + EffectiveSiteId(c, siteId) + "/deploys";
    DoGet(c, BuildUrl(c, DeploysTemplate, siteId), net, decode)
  }

  /** `GetForms`: GET `/sites/<site id>/forms`. */
  function GetForms<R>(c: Client, siteId: string, net: Request -> Exchange,
                       decode: string -> Result<seq<R>, string>): (r: Result<seq<R>, Error>)
    ensures r == DoGet(c, SiteResourceUrl(c, siteId, "forms"), net, decode)
  {
    BraceFreeApiSites();
    BuildUrlOnePlaceholder(c, ApiBase + "/sites/", "/forms", siteId);
    assert SiteResourceUrl(c, siteId, "forms") == ApiBase + "/sites/" + EffectiveSiteId(c, siteId) + "/forms";
    DoGet(c, BuildUrl(c, FormsTemplate, siteId), net, decode)
  }

  /** `GetFormSubmittions`: GET `/sites/<site id>/submissions`. */
  function GetFormSubmissions<R>(c: Client, siteId: string, net: Request -> Exchange,
                                 decode: string -> Result<seq<R>, string>): (r: Result<seq<R>, Error>)
    ensures r == DoGet(c, SiteResourceUrl(c, siteId, "submissions"), net, decode)
  {
    BraceFreeApiSites();
    BuildUrlOnePlaceholder(c, ApiBase + "/sites/", "/submissions", siteId);
    assert SiteResourceUrl(c, siteId, "submissions") == ApiBase + "/sites/" + EffectiveSiteId(c, siteId) + "/submissions";
    DoGet(c, BuildUrl(c, SubmissionsTemplate, siteId), net, decode)
  }

  /** `GetSites`: GET `/sites`, with no site id. */
  function GetSites<R>(c: Client, net: Request -> Exchange, decode: string -> Result<seq<R>, string>)
    : (r: Result<seq<R>, Error>)
    ensures r == DoGet(c, "https://api.netlify.com/api/v1/sites", net, decode)
  {
    assert ApiBase + "/sites" == "https://api.netlify.com/api/v1/sites";
    DoGet(c, ApiBase + "/sites", net, decode)
  }

  /** `GetBuildAccountDetails`: GET `/<account id>/builds/status`; the reply is one record. */
  function GetBuildAccountDetails<R>(c: Client, net: Request -> Exchange, decode: string -> Result<R, string>)
    : (r: Result<R, Error>)
    ensures r == DoGet(c, "https://api.netlify.com/api/v1/" + c.accountId + "/builds/status", net, decode)
  {
    assert ApiBase + "/" == "https://api.netlify.com/api/v1/";
    assert ApiBase + "/" + c.accountId + "/builds/status"
        == "https://api.netlify.com/api/v1/" + c.accountId + "/builds/status";
    DoGet(c, ApiBase + "/" + c.accountId + "/builds/status", net, decode)
  }

  /** `GetAccounts`: GET `/accounts`. */
  function GetAccounts<R>(c: Client, net: Request -> Exchange, decode: string -> Result<seq<R>, string>)
    : (r: Result<seq<R>, Error>)
    ensures r == DoGet(c, "https://api.netlify.com/api/v1/accounts", net, decode)
  {
    assert ApiBase + "/accounts" == "https://api.netlify.com/api/v1/accounts";
    DoGet(c, ApiBase + "/accounts", net, decode)
  }
}
