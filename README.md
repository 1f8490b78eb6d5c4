# Netlify datasource backend — a Dafny model

This project models the two Go files that carry the logic of the Netlify datasource plugin's
backend, and proves properties of that model.

* **The query dispatcher** (`pkg/plugin/query/query.go`). A query names an `entity` and a
  site-id expression. The expression is either one id or a braced, comma-separated list such as
  `{a,b,c}`. Four entities are per site: `builds`, `deployments`, `forms` and `form-submissions`.
  For these the dispatcher fans the matching client call out over the site ids. If any site
  failed, the whole query fails with the first error that arrived. Otherwise it concatenates the
  per-site record lists and turns them into one frame. Three entities are account-scoped:
  `builds-account`, `sites` and `accounts`. Each calls its one client accessor. An empty or
  unknown entity is an error. `HandleQueries` answers every query of a request and files each
  answer under its RefID.
* **The API client** (`pkg/plugin/client/client.go`). `NewClient` copies the settings.
  `buildUrl` fills the `{site_id}` placeholder of an endpoint template, falling back to the
  configured site id. `doGet` sends one authenticated GET, classifies the reply and decodes a
  successful body. `DoGets` runs one fetch per argument and splits the outcomes into results and
  errors.

Modules:

* `Wrappers`: `Result` and `Option`.
* `Strings`: the Go `strings` and `fmt` behaviour the code relies on: `Split`, `Replace` with
  n = -1, and `%d`. It also defines `Join`, which the source never calls. `Join` is the
  specification partner of both: `Split` undoes it (the round trip), and `Replace` of a
  separator re-joins the pieces with another.
* `Client`: the client, its requests, its error kinds and their messages, `DoGet`, `BuildUrl` and
  the seven accessors.
* `FanOut`: `DoGets`, with the `Successes`/`Failures` partition it is specified by.
* `Query`: the dispatcher.

Records and frames are type parameters that the model never looks inside (`R`, `F`). Things the
model cannot see are function-valued parameters: the HTTP layer (`net`, which maps a request to
an `Exchange`), the JSON decoders and `framestruct.ToDataFrame`. For the dispatcher they are
bundled in `Query.Env`. Each of them may fail.

Concurrency in `DoGets`: the Go code starts one goroutine per argument. Each goroutine sends its
outcome on one of two buffered channels. There are no locks and no cancellation. Results are
received as they arrive, while other goroutines may still be running. Both lists are complete
only after every goroutine has finished: a closer goroutine waits for all of them and then
closes the channels. The model fetches the arguments one after
another, in a loop. Its contract keeps only what the goroutines guarantee: every argument gives
exactly one outcome, and each returned list is its outcomes in some order (equal as multisets).
So downstream contracts quantify over the arrival order. For the per-site handlers,
`Query.PerSiteAllowed` describes every response the handler may give under any scheduling, and
`Query.QueryAllowed` does the same for a whole query.

What the code does, and the model with it:

* `parseSiteIdsAsVariables` never fails and never yields an empty list: `{}` parses to `[""]`.
* Every failure, whether upstream, transport, decode or frame conversion, is reported as
  `StatusBadRequest` with a formatted message.
* The empty-entity and unknown-entity branches of `Query` format a nil error and panic (see
  Findings). `Query.Query` and `Query.HandleQueries` use the corrected branches, `Query.EntityError`,
  instead. That response is a `StatusBadRequest` error carrying the source's own message text
  (`missing query param entity`, `Unidentified query param entity`) without the `: <err>` suffix
  the source would append.

## Model

| member | source | states |
|---|---|---|
| `Query.ParseSiteIds` | pkg/plugin/query/query.go:49-62 | never fails and never yields an empty list; braced input: the result joined with `,` and braced again is the input, and no piece contains a comma; any other input yields exactly `[input]` |
| `Query.ParseJoinedSiteIds` | pkg/plugin/query/query.go:52-56 | the converse round trip: bracing the comma-join of a non-empty list of comma-free ids parses back to that list |
| `Query.ParseSiteIdsExamples` | pkg/plugin/query/query.go:49-62 | `"abc"` → `["abc"]`, `""` → `[""]`, `"{a,b,c}"` → `["a","b","c"]`, `"{}"` → `[""]`, `"{a, b}"` → `["a"," b"]` (pieces are not trimmed) |
| `Strings.Split` | pkg/plugin/query/query.go:55 | `strings.Split` on `,` yields at least one piece and no piece contains the separator |
| `Strings.JoinSplit` | pkg/plugin/query/query.go:55 | joining the pieces of a split gives back the split string |
| `Strings.SplitJoin` | pkg/plugin/query/query.go:55 | splitting the join of non-empty, separator-free pieces gives back the pieces |
| `Query.RouteOf` | pkg/plugin/query/query.go:83-102 | the switch is total: a per-site or account-scoped route only for exactly that entity's name; the missing-entity route exactly for `""`; the unknown route exactly for a non-empty name that is none of the seven |
| `Query.RouteOfName` | pkg/plugin/query/query.go:83-97 | each of the seven entity names routes to its own entity |
| `Query.Contains` | pkg/plugin/query/query.go:105-112 | returns true iff `item` occurs in `slice` (so false for an empty slice) |
| `Query.FlattenRecords` | pkg/plugin/query/query.go:122-125 | the append loop computes the in-order concatenation of the per-site lists |
| `Query.FlattenLength` | pkg/plugin/query/query.go:122-125 | the flattened list's length is the sum of the per-site lengths |
| `Query.FlattenBlock` | pkg/plugin/query/query.go:122-125 | each per-site list appears as one contiguous block, in its own order, right after the blocks of the lists before it |
| `Query.FlattenPermutation` | pkg/plugin/query/query.go:117-125 | for any arrival order of the per-site lists, the flattened records are the same multiset |
| `Query.HandlePerSiteQuery` | pkg/plugin/query/query.go:114-166 | for builds, deployments (168-189), forms (210-232) and form submissions (234-258): if any site's fetch failed, the response is a `StatusBadRequest` error built from one of the failures and carries no frames; otherwise it is the frame response for the per-site lists concatenated in some arrival order of the successful fetches |
| `Query.TwoSitesFlatten` | pkg/plugin/query/query.go:117-125 | two sites that both answer, with lists `a` and `b`: the response is for `a + b` or `b + a`, so each site's records stay together and in order |
| `Query.SecondSiteFails` | pkg/plugin/query/query.go:117-120 | one site answers and the other gets status 500 with body `boom`: the response is exactly the error `failed to get …: error: code: 500, response: boom`, and the successful site's data is dropped |
| `Query.Respond` | pkg/plugin/query/query.go:156-165 | common handler tail: frames (exactly one) iff the fetch and the frame conversion both succeed; a fetch or conversion failure is a `StatusBadRequest` error carrying that failure's message after the handler's prefix |
| `Query.HandleBuildAccountDetails` | pkg/plugin/query/query.go:260-276 | one call of the build-usage accessor; one frame iff it and the conversion succeed; an accessor error is the `StatusBadRequest` error `failed to get build account details: ` plus its message; a conversion error is the `StatusBadRequest` error `failed Build Account to frame conversion: ` plus its message |
| `Query.HandleSitesQuery` | pkg/plugin/query/query.go:191-208 | the same for the sites accessor, with the source's prefixes `failed to get deploys: ` and `failed Sites to frame conversion: ` |
| `Query.HandleAccounts` | pkg/plugin/query/query.go:278-294 | the same for the accounts accessor, with the prefixes `failed to get accounts: ` and (as in the source) `failed Build Account to frame conversion: ` |
| `Query.AccountScopedIgnoresSiteIds` | pkg/plugin/query/query.go:92-97 | for `builds-account`, `sites` and `accounts` the response does not depend on the site-id expression: it is that entity's single accessor call, framed |
| `Query.EntityError` | pkg/plugin/query/query.go:98-101 | corrected: an empty or unrecognised entity gives a `StatusBadRequest` error response, never data; the message is `missing query param entity` exactly when the entity is empty |
| `Query.EntityErrorAsWritten` | pkg/plugin/query/query.go:98-101 | as written, the two branches panic exactly when `err` is nil |
| `Query.EntityErrorAgreesWithSource` | pkg/plugin/query/query.go:98-101 | wherever the branch as written does respond (a non-nil `err`), its response is the corrected one with `: <err>` appended to the message |
| `Query.EntityErrorPanicsAsWritten` | pkg/plugin/query/query.go:76-101 | since parsing never fails, `err` is nil in those branches for every site-id input, so as written they always panic |
| `Query.Query` | pkg/plugin/query/query.go:64-103 | a payload that fails to decode is the bad-request error `json unmarshal failed on query: ` plus the decoder's message; otherwise the site ids are parsed (the parse-error branch at 77-79 is unreachable) and the response is the one its route allows: per-site handler, account-scoped handler, or the corrected entity error |
| `Query.LastIndex` | pkg/plugin/query/query.go:30-36 | for a RefID that occurs, the index of its last occurrence: it carries that RefID and no later query does |
| `Query.HandleQueries` | pkg/plugin/query/query.go:25-39 | the response map has exactly one key per distinct RefID, and each key's value is a response allowed for the last query with that RefID |
| `FanOut.DoGets` | pkg/plugin/client/client.go:96-132 | `|results| + |errors| == |variables|`; results are a permutation of the successful fetch values and errors a permutation of the fetch errors (no positional link to the arguments); an empty argument list gives two empty lists |
| `FanOut.PartitionSnoc` | pkg/plugin/client/client.go:85-93 | one more outcome extends either the successes or the errors, never both |
| `FanOut.PartitionCount` | pkg/plugin/client/client.go:85-93 | every outcome lands in exactly one of the two lists |
| `FanOut.PartitionMembers` | pkg/plugin/client/client.go:119-128 | a value is among the results iff some fetch succeeded with it; an error is among the errors iff some fetch failed with it |
| `FanOut.AllSucceed` | pkg/plugin/client/client.go:119-128 | when every fetch succeeds: no errors and one result per argument |
| `FanOut.AllFail` | pkg/plugin/client/client.go:119-128 | when every fetch fails: no results and one error per argument |
| `Client.NewClient` | pkg/plugin/client/client.go:22-32 | `BaseUrl`, `AccessToken`, `AccountId` and `SiteId` are copied unchanged from the settings |
| `Client.DoGet` | pkg/plugin/client/client.go:39-78 | success iff the server replied with status < 400, the body was read and it decoded, and then the value is the decoded body; status ≥ 400 is always an error carrying the status and the raw body (or the read error); below 400, a failed body read or decode is returned unchanged, with that failure's message; a request or transport failure is an error with that failure's message |
| `Client.ErrorStatusIgnoresDecoder` | pkg/plugin/client/client.go:53-63 | with status ≥ 400 the outcome is the same whatever decoder is supplied, so the body is never decoded |
| `Client.Message` | pkg/plugin/client/client.go:42-74 | request, transport, body-read and decode errors pass their own message through unchanged (lines 42, 49, 67, 74); an error status gives `error: code: …` followed by the raw body verbatim (line 61); an unreadable error body gives `error reading error body code: …` followed by the read error (line 57) |
| `Client.ServerErrorMessage` | pkg/plugin/client/client.go:61 | the message for status 500 is `error: code: 500, response: ` followed by the body |
| `Client.BuildUrl` | pkg/plugin/client/client.go:134-145 | a pattern with no `{site_id}` comes back unchanged |
| `Client.BuildUrlFallback` | pkg/plugin/client/client.go:135-140 | an empty site id behaves exactly as the configured `SiteId` |
| `Client.BuildUrlSubstitutes` | pkg/plugin/client/client.go:134-145 | every placeholder is replaced: brace-free parts joined by `{site_id}` become the same parts joined by the given site id, or by the configured one when the given id is empty |
| `Strings.ReplaceAll` | pkg/plugin/client/client.go:142 | `strings.Replace` with n = -1: a string without the pattern's first character is unchanged, and a replacement as long as the pattern keeps the length |
| `Strings.ReplaceAllAbsent` | pkg/plugin/client/client.go:142 | a string without any occurrence of the pattern comes back unchanged |
| `Strings.ReplaceAllJoined` | pkg/plugin/client/client.go:142 | replacing a pattern that occurs only as the separator between pieces re-joins those pieces with the replacement, for any number of pieces |
| `Client.GetBuilds` | pkg/plugin/client/client.go:188-200 | GETs `https://api.netlify.com/api/v1/sites/<site id>/builds`, where the site id is the given one or else the configured default |
| `Client.GetDeployments` | pkg/plugin/client/client.go:163-173 | the same for `/sites/<site id>/deploys` |
| `Client.GetForms` | pkg/plugin/client/client.go:324-334 | the same for `/sites/<site id>/forms` |
| `Client.GetSites` | pkg/plugin/client/client.go:304-313 | GETs `https://api.netlify.com/api/v1/sites`, independent of any site id |
| `Client.GetBuildAccountDetails` | pkg/plugin/client/client.go:380-389 | GETs `https://api.netlify.com/api/v1/<account id>/builds/status` and decodes one record |
| `Client.GetAccounts` | pkg/plugin/client/client.go:419-428 | GETs `https://api.netlify.com/api/v1/accounts` |
| `Client.GetFormSubmissions` | pkg/plugin/client/client.go:351-361 | the same for `/sites/<site id>/submissions` (the source names it `GetFormSubmittions`) |

## Findings

| source | as written | input that shows it | evidently intended | confidence | as-written member | corrected member |
|---|---|---|---|---|---|---|
| pkg/plugin/query/query.go:98-101 | the empty-entity and unknown-entity branches format `err.Error()`, but `err` is the nil error returned by `parseSiteIdsAsVariables`, so the call dereferences a nil interface and panics | a query with `"entity": ""` or `"entity": "unknown-kind"`, with any `siteId` | a `StatusBadRequest` error response saying the entity is missing or unrecognised | not executed | `Query.EntityErrorAsWritten` (with `Query.EntityErrorPanicsAsWritten`) | `Query.EntityError` |

## Left out

- Network I/O: `http.NewRequest`, `client.Do` and `io.ReadAll` are modelled only by their outcome, an `Exchange` returned by the `net` parameter. The request the model builds carries the method, URL and bearer header.
- JSON decoding (`json.Unmarshal`, in `doGet` and at the start of `Query`) is a decoder parameter that may fail. The response record structs only shape decoding, so records are an opaque type.
- `framestruct.ToDataFrame`, `backend.ErrDataResponse` and all `backend.Logger` calls are foreign SDK code. Frame conversion is an opaque, possibly failing parameter. Logging is omitted.
- `FanOut.DoGets`: the goroutines, the `WaitGroup`, the two channels and the closer goroutine are replaced by a sequential loop. The contract states the order of each list only up to permutation. That "`doer` is never called" on empty input is not expressible, because fetches are pure functions here.
- The `context.Context` arguments are never consulted by the source, so they are absent.
- `selectedFields` (the `parsingOptions` field) is passed to two handlers but never used there (only in commented-out code), so the model does not carry it.
- `Strings.ReplaceAll` requires a non-empty pattern. Go's behaviour for an empty pattern is not modelled, because the only pattern used is `{site_id}`.
- `net` is a fixed function of the request. So a site id repeated in one fan-out (`{a,a}`) always gets the same outcome twice, while two real requests could differ (one success, one failure).
- Status codes are unbounded integers. Go's `int` width plays no role in the comparisons made.
- Response bodies are strings. The source's `string(b)` byte-to-string conversion is taken as the identity.
- `BaseUrl` is copied into the client but never read. Every endpoint is hard-coded under `https://api.netlify.com/api/v1`, as in the source.
- `pkg/plugin/models/settings.go` (settings loading) is not part of this model. Neither are `pkg/plugin/resources/resources.go` (the resource HTTP handler), `pkg/plugin/datasource.go` (SDK wiring and the health check) or the TypeScript frontend under `src/`.
