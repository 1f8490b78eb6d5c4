/** The query dispatcher of pkg/plugin/query/query.go: site-id parsing, routing on the entity,
    the per-site handlers (fan-out, collapse on error, flatten), the account-scoped handlers and
    the request loop that files one response per RefID.
    Records and frames are opaque (`R`, `F`); the network, the JSON decoders and the frame
    conversion are the functions bundled in `Env`. */
module Query {
  import opened Wrappers
  import opened Strings
  import opened Client
  import opened FanOut

  /** `backend.StatusBadRequest`. */
  const StatusBadRequest := 400

  /** The fields of a query's JSON that the dispatcher reads. */
  datatype QueryModel = QueryModel(entity: string, siteId: string)

  /** One query of a request: its RefID and its JSON payload. */
  datatype DataQuery = DataQuery(refId: string, json: string)

  /** `backend.DataResponse`: frames, or an error with a status (as `backend.ErrDataResponse` builds it). */
  datatype DataResponse<F> = Frames(frames: seq<F>) | ErrorResponse(status: int, message: string)

  /** The collaborators the dispatcher cannot see into: the HTTP layer, the JSON decoders
      (one per response shape) and `framestruct.ToDataFrame`, each of which may fail. */
  datatype Env<!R, F> = Env(
    net: Request -> Exchange,
    decodeQuery: string -> Result<QueryModel, string>,
    decodeSiteRecords: PerSiteEntity -> string -> Result<seq<R>, string>,
    decodeSites: string -> Result<seq<R>, string>,
    decodeBuildAccount: string -> Result<R, string>,
    decodeAccounts: string -> Result<seq<R>, string>,
    recordsFrame: (string, seq<R>) -> Result<F, string>,
    recordFrame: (string, R) -> Result<F, string>)

  // ---------------------------------------------------------------------------------------------
  // Site-id expressions

  /** `strings.HasPrefix(s, "{") && strings.HasSuffix(s, "}")`. */
  predicate Braced(s: string)
  {
    |s| >= 1 && s[0] == '{' && s[|s| - 1] == '}'
  }

  /** `parseSiteIdsAsVariables`: a braced list `{a,b,c}` is split on commas (pieces are not
      trimmed, `{}` gives one empty id); anything else is a single id. It never fails and never
      yields an empty list. */
  function ParseSiteIds(siteIds: string): (r: Result<seq<string>, string>)
    ensures r.Success? && |r.value| >= 1
    ensures Braced(siteIds) ==> "{" + Join(r.value, ",") + "}" == siteIds
    ensures Braced(siteIds) ==> forall i :: 0 <= i < |r.value| ==> ',' !in r.value[i]
    ensures !Braced(siteIds) ==> r.value == [siteIds]
  {
    if Braced(siteIds) then
      var inner := siteIds[1..][..|siteIds| - 2];
      JoinSplit(inner, ',');
      assert "{" + inner + "}" == siteIds;
      Success(Split(inner, ','))
    else
      Success([siteIds])
  }

  /** The inverse direction: bracing the join of comma-free ids parses back to those ids. */
  lemma ParseJoinedSiteIds(ids: seq<string>)
    requires |ids| >= 1
    requires forall i :: 0 <= i < |ids| ==> ',' !in ids[i]
    ensures ParseSiteIds("{" + Join(ids, ",") + "}") == Success(ids)
  {
    var j := Join(ids, ",");
    var s := "{" + j + "}";
    assert |s| == |j| + 2 && s[0] == '{' && s[|s| - 1] == '}';
    assert s[1..][..|s| - 2] == j;
    SplitJoin(ids, ',');
  }

  /** The documented examples: a plain id, a braced list, an empty list, an untrimmed piece. */
  lemma ParseSiteIdsExamples()
    ensures ParseSiteIds("abc") == Success(["abc"])
    ensures ParseSiteIds("") == Success([""])
    ensures ParseSiteIds("{a,b,c}") == Success(["a", "b", "c"])
    ensures ParseSiteIds("{}") == Success([""])
    ensures ParseSiteIds("{a, b}") == Success(["a", " b"])
  {
    ParseJoinedSiteIds(["a", "b", "c"]);
    assert "{" + Join(["a", "b", "c"], ",") + "}" == "{a,b,c}";
    ParseJoinedSiteIds([""]);
    assert "{" + Join([""], ",") + "}" == "{}";
    ParseJoinedSiteIds(["a", " b"]);
    assert "{" + Join(["a", " b"], ",") + "}" == "{a, b}";
  }

  // ---------------------------------------------------------------------------------------------
  // Routing

  /** The entities whose data is partitioned by site. */
  datatype PerSiteEntity = Builds | Deployments | Forms | FormSubmissions

  /** The entities scoped to the account. */
  datatype AccountEntity = BuildsAccount | Sites | Accounts

  /** Where `Query`'s switch sends an entity. */
  datatype Route = PerSite(kind: PerSiteEntity) | AccountScoped(scope: AccountEntity) | MissingEntity | UnknownEntity

  function PerSiteName(k: PerSiteEntity): string
  {
    match k
    case Builds => "builds"
    case Deployments => "deployments"
    case Forms => "forms"
    case FormSubmissions => "form-submissions"
  }

  function AccountName(a: AccountEntity): string
  {
    match a
    case BuildsAccount => "builds-account"
    case Sites => "sites"
    case Accounts => "accounts"
  }

  /** The `switch qm.Entity` of `Query`: the seven names, the empty name, and everything else. */
  function RouteOf(entity: string): (r: Route)
    ensures r.PerSite? ==> PerSiteName(r.kind) == entity
    ensures r.AccountScoped? ==> AccountName(r.scope) == entity
    ensures r == MissingEntity <==> entity == ""
    ensures r == UnknownEntity <==>
      entity != "" && (forall k :: PerSiteName(k) != entity) && (forall a :: AccountName(a) != entity)
  {
    match entity
    case "builds" => PerSite(Builds)
    case "deployments" => PerSite(Deployments)
    case "forms" => PerSite(Forms)
    case "form-submissions" => PerSite(FormSubmissions)
    case "builds-account" => AccountScoped(BuildsAccount)
    case "sites" => AccountScoped(Sites)
    case "accounts" => AccountScoped(Accounts)
    case "" => MissingEntity
    case _ => UnknownEntity
  }

  /** Every entity's name routes back to that entity. */
  lemma RouteOfName(k: PerSiteEntity, a: AccountEntity)
    ensures RouteOf(PerSiteName(k)) == PerSite(k)
    ensures RouteOf(AccountName(a)) == AccountScoped(a)
  {
  }

  // ---------------------------------------------------------------------------------------------
  // `contains`

  /** `contains`: a linear scan that stops at the first match. */
  method Contains(slice: seq<string>, item: string) returns (found: bool)
    ensures found <==> item in slice
  {
    for i := 0 to |slice|
      invariant item !in slice[..i]
    {
      if slice[i] == item {
        return true;
      }
    }
    assert slice[..|slice|] == slice;
    return false;
  }

  // ---------------------------------------------------------------------------------------------
  // Flattening per-site record lists

  /** The per-site lists concatenated in order, as the handlers' `append(xs, r...)` loop builds them. */
  function Flatten<T>(xss: seq<seq<T>>): seq<T>
  {
    if xss == [] then [] else Flatten(xss[..|xss| - 1]) + xss[|xss| - 1]
  }

  /** The number of records over all per-site lists. */
  function TotalLength<T>(xss: seq<seq<T>>): nat
  {
    if xss == [] then 0 else |xss[0]| + TotalLength(xss[1..])
  }

  /** The handlers' flattening loop. */
  method FlattenRecords<T>(res: seq<seq<T>>) returns (records: seq<T>)
    ensures records == Flatten(res)
  {
    records := [];
    for i := 0 to |res|
      invariant records == Flatten(res[..i])
    {
      assert res[..i + 1][..i] == res[..i];
      records := records + res[i];
    }
    assert res[..|res|] == res;
  }

  lemma {:induction false} FlattenConcat<T>(a: seq<seq<T>>, b: seq<seq<T>>)
    ensures Flatten(a + b) == Flatten(a) + Flatten(b)
    decreases |b|
  {
    if b == [] {
      assert a + b == a;
    } else {
      var b' := b[..|b| - 1];
      assert (a + b)[..|a + b| - 1] == a + b';
      FlattenConcat(a, b');
    }
  }

  /** The flattened list holds exactly as many records as all per-site lists together. */
  lemma {:induction false} FlattenLength<T>(xss: seq<seq<T>>)
    ensures |Flatten(xss)| == TotalLength(xss)
    decreases |xss|
  {
    if xss != [] {
      FlattenConcat([xss[0]], xss[1..]);
      assert [xss[0]] + xss[1..] == xss;
      assert Flatten([xss[0]]) == xss[0] by {
        assert [xss[0]][..0] == [];
      }
      FlattenLength(xss[1..]);
    }
  }

  /** Each per-site list is one contiguous block of the flattened list, in its own order, after
      the blocks of the lists before it. */
  lemma FlattenBlock<T>(xss: seq<seq<T>>, j: int)
    requires 0 <= j < |xss|
    ensures Flatten(xss) == Flatten(xss[..j]) + xss[j] + Flatten(xss[j + 1..])
    ensures var start := |Flatten(xss[..j])|;
      Flatten(xss)[start..start + |xss[j]|] == xss[j]
  {
    assert xss == xss[..j] + [xss[j]] + xss[j + 1..];
    FlattenConcat(xss[..j] + [xss[j]], xss[j + 1..]);
    FlattenConcat(xss[..j], [xss[j]]);
    assert Flatten([xss[j]]) == xss[j] by {
      assert [xss[j]][..0] == [];
    }
  }

  /** Whatever order the per-site lists arrive in, the flattened list holds the same records. */
  lemma {:induction false} FlattenPermutation<T>(a: seq<seq<T>>, b: seq<seq<T>>)
    requires multiset(a) == multiset(b)
    ensures multiset(Flatten(a)) == multiset(Flatten(b))
    decreases |a|
  {
    if a == [] {
      assert |b| == |multiset(b)| == 0;
    } else {
      var x := a[|a| - 1];
      var a' := a[..|a| - 1];
      assert a == a' + [x];
      assert x in multiset(b);
      var i :| 0 <= i < |b| && b[i] == x;
      var b' := b[..i] + b[i + 1..];
      assert b == b[..i] + [x] + b[i + 1..];
      assert multiset(b') == multiset(a') by {
        assert multiset(b) == multiset(b[..i]) + multiset{x} + multiset(b[i + 1..]);
        assert multiset(b') == multiset(b[..i]) + multiset(b[i + 1..]);
        assert multiset(a) == multiset(a') + multiset{x};
        assert multiset(a') == multiset(a) - multiset{x};
        assert multiset(b') == multiset(b) - multiset{x};
      }
      FlattenPermutation(a', b');
      FlattenBlock(b, i);
      FlattenConcat(b[..i], b[i + 1..]);
    }
  }

  /** The only arrival orders of two per-site lists are the two orders. */
  lemma TwoListsArrive<T>(res: seq<seq<T>>, x: seq<T>, y: seq<T>)
    requires multiset(res) == multiset([x, y])
    ensures res == [x, y] || res == [y, x]
  {
    assert |res| == |multiset(res)| == 2;
    assert res[0] in multiset([x, y]) && res[1] in multiset(res);
    if res[0] == x {
      assert multiset([res[1]]) == multiset(res) - multiset{x};
    } else {
      assert multiset([res[1]]) == multiset(res) - multiset{y};
    }
  }

  // ---------------------------------------------------------------------------------------------
  // Handlers

  /** The common tail of every handler: report a fetch error, or convert the data to one frame
      and report a conversion error. Both errors are `StatusBadRequest` with the given prefixes. */
  function Respond<V, F>(fetched: Result<V, Error>, fetchFailed: string, name: string,
                         convert: (string, V) -> Result<F, string>, convertFailed: string)
    : (r: DataResponse<F>)
    ensures r.Frames? <==> fetched.Success? && convert(name, fetched.value).Success?
    ensures r.Frames? ==> r.frames == [convert(name, fetched.value).value]
    ensures r.ErrorResponse? ==> r.status == StatusBadRequest
    ensures fetched.Failure? ==> r.message == fetchFailed + Message(fetched.error)
    ensures fetched.Success? && r.ErrorResponse? ==>
      r.message == convertFailed + convert(name, fetched.value).error
  {
    match fetched
    case Failure(e) => ErrorResponse(StatusBadRequest, fetchFailed + Message(e))
    case Success(v) =>
      match convert(name, v)
      case Failure(m) => ErrorResponse(StatusBadRequest, convertFailed + m)
      case Success(frame) => Frames([frame])
  }

  function FetchFailed(k: PerSiteEntity): string
  {
    match k
    case Builds => "failed to get builds: "
    case Deployments => "failed to get deployments: "
    case Forms => "failed to get forms: "
    case FormSubmissions => "failed to get forms submissions: "
  }

  function FrameName(k: PerSiteEntity): string
  {
    match k
    case Builds => "builds"
    case Deployments => "deployments"
    case Forms => "forms"
    case FormSubmissions => "form_submissions"
  }

  function ConvertFailed(k: PerSiteEntity): string
  {
    match k
    case Builds => "failed Builds to frame conversion: "
    case Deployments => "failed deployments to frame conversion: "
    case Forms => "failed forms to frame conversion: "
    case FormSubmissions => "failed forms submissions to frame conversion: "
  }

  /** The client accessor a per-site handler fans out. */
  function SiteFetch<R, F>(env: Env<R, F>, c: Client, k: PerSiteEntity, siteId: string): Result<seq<R>, Error>
  {
    match k
    case Builds => GetBuilds(c, siteId, env.net, env.decodeSiteRecords(Builds))
    case Deployments => GetDeployments(c, siteId, env.net, env.decodeSiteRecords(Deployments))
    case Forms => GetForms(c, siteId, env.net, env.decodeSiteRecords(Forms))
    case FormSubmissions => GetFormSubmissions(c, siteId, env.net, env.decodeSiteRecords(FormSubmissions))
  }

  /** The accessor as the function value handed to `DoGets` (`q.client.GetBuilds` and so on). */
  function Fetcher<R, F>(env: Env<R, F>, c: Client, k: PerSiteEntity): string -> Result<seq<R>, Error>
  {
    s => SiteFetch(env, c, k, s)
  }

  /** The response a per-site handler gives for a flattened record list. */
  function RecordsResponse<R, F>(env: Env<R, F>, k: PerSiteEntity, records: seq<R>): DataResponse<F>
  {
    Respond(Success(records), FetchFailed(k), FrameName(k), env.recordsFrame, ConvertFailed(k))
  }

  /** The responses a per-site handler may give, whatever the arrival order of the fan-out:
      if any site failed, an error built from one of the failures (successful data is dropped);
      otherwise the response for the per-site lists flattened in some arrival order. */
  ghost function PerSiteAllowed<R(!new), F>(env: Env<R, F>, c: Client, k: PerSiteEntity, siteIds: seq<string>,
                                      resp: DataResponse<F>): bool
  {
    var outcomes := Outcomes(Fetcher(env, c, k), siteIds);
    if Failures(outcomes) != [] then
      exists e :: e in Failures(outcomes) &&
        resp == ErrorResponse(StatusBadRequest, FetchFailed(k) + Message(e))
    else
      exists arrival :: multiset(arrival) == multiset(Successes(outcomes)) &&
        resp == RecordsResponse(env, k, Flatten(arrival))
  }

  /** `HandleBuildsQuery`, `HandleDeploymentsQuery`, `HandleFormsQuery` and
      `HandleFormSubmissionsQuery`, which differ only in their accessor and their strings. */
  method HandlePerSiteQuery<R(!new), F>(env: Env<R, F>, c: Client, k: PerSiteEntity, siteIds: seq<string>)
    returns (resp: DataResponse<F>)
    ensures PerSiteAllowed(env, c, k, siteIds, resp)
    ensures Failures(Outcomes(Fetcher(env, c, k), siteIds)) != [] ==>
      resp.ErrorResponse? && resp.status == StatusBadRequest
  {
    ghost var outcomes := Outcomes(Fetcher(env, c, k), siteIds);
    var res, errors := DoGets(Fetcher(env, c, k), siteIds);
    if |errors| > 0 {
      assert errors[0] in multiset(Failures(outcomes));
      resp := ErrorResponse(StatusBadRequest, FetchFailed(k) + Message(errors[0]));
      return;
    }
    assert |Failures(outcomes)| == |multiset(Failures(outcomes))| == 0;
    var records := FlattenRecords(res);
    resp := Respond(Success(records), FetchFailed(k), FrameName(k), env.recordsFrame, ConvertFailed(k));
    assert multiset(res) == multiset(Successes(outcomes)) && resp == RecordsResponse(env, k, Flatten(res));
  }

  /** `HandleBuildAccountDetails`: one call of `GetBuildAccountDetails`, its record made into a frame. */
  function HandleBuildAccountDetails<R, F>(env: Env<R, F>, c: Client): (r: DataResponse<F>)
    ensures var fetched := GetBuildAccountDetails(c, env.net, env.decodeBuildAccount);
      && (r.Frames? <==> fetched.Success? && env.recordFrame("build_account_details", fetched.value).Success?)
      && (r.Frames? ==> r.frames == [env.recordFrame("build_account_details", fetched.value).value])
      && (fetched.Failure? ==> r == ErrorResponse(StatusBadRequest,
                                   "failed to get build account details: " + Message(fetched.error)))
      && (fetched.Success? && env.recordFrame("build_account_details", fetched.value).Failure? ==>
            r == ErrorResponse(StatusBadRequest, "failed Build Account to frame conversion: "
                                                 + env.recordFrame("build_account_details", fetched.value).error))
  {
    Respond(GetBuildAccountDetails(c, env.net, env.decodeBuildAccount), "failed to get build account details: ",
            "build_account_details", env.recordFrame, "failed Build Account to frame conversion: ")
  }

  /** `HandleSitesQuery`: one call of `GetSites`, the sites made into a frame. */
  function HandleSitesQuery<R, F>(env: Env<R, F>, c: Client): (r: DataResponse<F>)
    ensures var fetched := GetSites(c, env.net, env.decodeSites);
      && (r.Frames? <==> fetched.Success? && env.recordsFrame("sites", fetched.value).Success?)
      && (r.Frames? ==> r.frames == [env.recordsFrame("sites", fetched.value).value])
      && (fetched.Failure? ==> r == ErrorResponse(StatusBadRequest, "failed to get deploys: " + Message(fetched.error)))
      && (fetched.Success? && env.recordsFrame("sites", fetched.value).Failure? ==>
            r == ErrorResponse(StatusBadRequest, "failed Sites to frame conversion: " + env.recordsFrame("sites", fetched.value).error))
  {
    Respond(GetSites(c, env.net, env.decodeSites), "failed to get deploys: ",
            "sites", env.recordsFrame, "failed Sites to frame conversion: ")
  }

  /** `HandleAccounts`: one call of `GetAccounts`, the accounts made into a frame. */
  function HandleAccounts<R, F>(env: Env<R, F>, c: Client): (r: DataResponse<F>)
    ensures var fetched := GetAccounts(c, env.net, env.decodeAccounts);
      && (r.Frames? <==> fetched.Success? && env.recordsFrame("accounts", fetched.value).Success?)
      && (r.Frames? ==> r.frames == [env.recordsFrame("accounts", fetched.value).value])
      && (fetched.Failure? ==> r == ErrorResponse(StatusBadRequest, "failed to get accounts: " + Message(fetched.error)))
      && (fetched.Success? && env.recordsFrame("accounts", fetched.value).Failure? ==>
            r == ErrorResponse(StatusBadRequest, "failed Build Account to frame conversion: " + env.recordsFrame("accounts", fetched.value).error))
  {
    Respond(GetAccounts(c, env.net, env.decodeAccounts), "failed to get accounts: ",
            "accounts", env.recordsFrame, "failed Build Account to frame conversion: ")
  }

  function AccountResponse<R, F>(env: Env<R, F>, c: Client, a: AccountEntity): DataResponse<F>
  {
    match a
    case BuildsAccount => HandleBuildAccountDetails(env, c)
    case Sites => HandleSitesQuery(env, c)
    case Accounts => HandleAccounts(env, c)
  }

  // ---------------------------------------------------------------------------------------------
  // The empty and unrecognised entity

  /** The response for an empty or unrecognised entity: a `StatusBadRequest` error, never data,
      with the source's message text and its nil `: <err>` suffix dropped. (The source formats
      a nil error here; see `EntityErrorAsWritten`.) */
  function EntityError<F>(entity: string): (r: DataResponse<F>)
    ensures r.ErrorResponse? && r.status == StatusBadRequest
    ensures entity == "" <==> r.message == "missing query param entity"
  {
    if entity == "" then ErrorResponse(StatusBadRequest, "missing query param entity")
    else ErrorResponse(StatusBadRequest, "Unidentified query param entity")
  }

  /** What a branch of the source can end in: a response, or a run-time panic. */
  datatype Outcome<F> = Responded(response: DataResponse<F>) | Panicked(reason: string)

  /** The `err` that `Query` still holds after parsing the site ids. */
  function ParseError(r: Result<seq<string>, string>): Option<string>
  {
    match r
    case Success(_) => None
    case Failure(m) => Some(m)
  }

  /** The two error branches of `Query`'s switch as written: they format `err.Error()`, which
      panics when `err` is nil. */
  function EntityErrorAsWritten<F>(entity: string, err: Option<string>): (o: Outcome<F>)
    ensures o.Panicked? <==> err.None?
  {
    match err
    case None => Panicked("runtime error: invalid memory address or nil pointer dereference")
    case Some(m) =>
      Responded(ErrorResponse(StatusBadRequest,
        (if entity == "" then "missing query param entity: " else "Unidentified query param entity: ") + m))
  }

  /** As written, the empty-entity and unknown-entity branches panic for every site-id expression,
      because parsing never fails and so `err` is always nil there. */
  lemma EntityErrorPanicsAsWritten<F>(entity: string, siteId: string)
    ensures EntityErrorAsWritten<F>(entity, ParseError(ParseSiteIds(siteId))).Panicked?
  {
  }

  /** Where the branch as written does respond (a non-nil `err`), it gives the corrected response
      with `: <err>` appended to its message. */
  lemma EntityErrorAgreesWithSource<F>(entity: string, m: string)
    ensures var corrected := EntityError<F>(entity);
      EntityErrorAsWritten<F>(entity, Some(m))
        == Responded(ErrorResponse(corrected.status, corrected.message + ": " + m))
  {
    var corrected := EntityError<F>(entity);
    assert corrected.message + ": " + m
        == (if entity == "" then "missing query param entity: " else "Unidentified query param entity: ") + m;
  }

  // ---------------------------------------------------------------------------------------------
  // `Query` and `HandleQueries`

  /** The responses `Query` may give for a query payload. */
  ghost predicate QueryAllowed<R(!new), F>(env: Env<R, F>, c: Client, json: string, resp: DataResponse<F>)
  {
    match env.decodeQuery(json)
    case Failure(m) => resp == ErrorResponse(StatusBadRequest, "json unmarshal failed on query: " + m)
    case Success(qm) =>
      match RouteOf(qm.entity)
      case PerSite(k) => PerSiteAllowed(env, c, k, ParseSiteIds(qm.siteId).value, resp)
      case AccountScoped(a) => resp == AccountResponse(env, c, a)
      case MissingEntity => resp == EntityError(qm.entity)
      case UnknownEntity => resp == EntityError(qm.entity)
  }

  /** `Query`: decode the payload, parse the site ids, and dispatch on the entity. */
  method Query<R(!new), F>(env: Env<R, F>, c: Client, q: DataQuery) returns (resp: DataResponse<F>)
    ensures QueryAllowed(env, c, q.json, resp)
    ensures env.decodeQuery(q.json).Failure? ==> resp.ErrorResponse? && resp.status == StatusBadRequest
    ensures env.decodeQuery(q.json).Success? && RouteOf(env.decodeQuery(q.json).value.entity) in {MissingEntity, UnknownEntity}
      ==> resp.ErrorResponse? && resp.status == StatusBadRequest
  {
    var decoded := env.decodeQuery(q.json);
    if decoded.Failure? {
      resp := ErrorResponse(StatusBadRequest, "json unmarshal failed on query: " + decoded.error);
      return;
    }
    var qm := decoded.value;
    var siteIds := ParseSiteIds(qm.siteId).value;
    match RouteOf(qm.entity)
    case PerSite(k) =>
      resp := HandlePerSiteQuery(env, c, k, siteIds);
    case AccountScoped(a) =>
      resp := AccountResponse(env, c, a);
    case MissingEntity =>
      resp := EntityError(qm.entity);
    case UnknownEntity =>
      resp := EntityError(qm.entity);
  }

  /** An account-scoped entity gives the same response whatever site-id expression comes with it. */
  lemma AccountScopedIgnoresSiteIds<R(!new), F>(env: Env<R, F>, c: Client, json1: string, json2: string,
                                               resp1: DataResponse<F>, resp2: DataResponse<F>)
    requires env.decodeQuery(json1).Success? && env.decodeQuery(json2).Success?
    requires env.decodeQuery(json1).value.entity == env.decodeQuery(json2).value.entity
    requires RouteOf(env.decodeQuery(json1).value.entity).AccountScoped?
    requires QueryAllowed(env, c, json1, resp1) && QueryAllowed(env, c, json2, resp2)
    ensures resp1 == resp2 && resp1 == AccountResponse(env, c, RouteOf(env.decodeQuery(json1).value.entity).scope)
  {
  }

  /** The RefIDs of a request's queries. */
  function RefIds(queries: seq<DataQuery>): set<string>
  {
    if queries == [] then {} else RefIds(queries[..|queries| - 1]) + {queries[|queries| - 1].refId}
  }

  /** The position of the last query with a given RefID. */
  function LastIndex(queries: seq<DataQuery>, id: string): (i: nat)
    requires id in RefIds(queries)
    ensures i < |queries| && queries[i].refId == id
    ensures forall j :: i < j < |queries| ==> queries[j].refId != id
  {
    if queries[|queries| - 1].refId == id then |queries| - 1
    else LastIndex(queries[..|queries| - 1], id)
  }

  /** `HandleQueries`: answer each query in turn and file the answer under its RefID, so the map
      has one entry per distinct RefID and a repeated RefID keeps the last query's answer. */
  method HandleQueries<R(!new), F>(env: Env<R, F>, c: Client, queries: seq<DataQuery>)
    returns (responses: map<string, DataResponse<F>>)
    ensures responses.Keys == RefIds(queries)
    ensures forall id :: id in responses ==>
      QueryAllowed(env, c, queries[LastIndex(queries, id)].json, responses[id])
  {
    responses := map[];
    for i := 0 to |queries|
      invariant responses.Keys == RefIds(queries[..i])
      invariant forall id :: id in responses ==>
        QueryAllowed(env, c, queries[..i][LastIndex(queries[..i], id)].json, responses[id])
    {
      var res := Query(env, c, queries[i]);
      assert queries[..i + 1][..i] == queries[..i];
      responses := responses[queries[i].refId := res];
    }
    assert queries[..|queries|] == queries;
  }

  // ---------------------------------------------------------------------------------------------
  // Two-site scenarios

  /** Two sites that both answer: the response is for their records flattened with each site's
      records kept together and in order, the two blocks in either order. */
  lemma TwoSitesFlatten<R(!new), F>(env: Env<R, F>, c: Client, k: PerSiteEntity, siteIds: seq<string>,
                                    a: seq<R>, b: seq<R>, resp: DataResponse<F>)
    requires Outcomes(Fetcher(env, c, k), siteIds) == [Success(a), Success(b)]
    requires PerSiteAllowed(env, c, k, siteIds, resp)
    ensures resp == RecordsResponse(env, k, a + b) || resp == RecordsResponse(env, k, b + a)
  {
    TwoSuccesses<seq<R>, Error>(a, b);
    var arrival :| multiset(arrival) == multiset([a, b]) && resp == RecordsResponse(env, k, Flatten(arrival));
    TwoListsFlatten(arrival, a, b);
  }

  /** Two successful outcomes partition into two results and no error. */
  lemma TwoSuccesses<T, E>(a: T, b: T)
    ensures Failures<T, E>([Success(a), Success(b)]) == []
    ensures Successes<T, E>([Success(a), Success(b)]) == [a, b]
  {
    var sa: Result<T, E>, sb: Result<T, E> := Success(a), Success(b);
    assert [sa, sb] == [] + [sa] + [sb];
    PartitionSnoc<T, E>([], sa);
    PartitionSnoc<T, E>([sa], sb);
  }

  /** Any arrival order of two lists flattens to one of their two concatenations. */
  lemma TwoListsFlatten<T>(arrival: seq<seq<T>>, a: seq<T>, b: seq<T>)
    requires multiset(arrival) == multiset([a, b])
    ensures Flatten(arrival) == a + b || Flatten(arrival) == b + a
  {
    TwoListsArrive(arrival, a, b);
    FlattenPair(a, b);
    FlattenPair(b, a);
  }

  lemma FlattenPair<T>(x: seq<T>, y: seq<T>)
    ensures Flatten([x, y]) == x + y
  {
    assert [x, y][..1] == [x];
    assert [x][..0] == [];
    assert Flatten([x]) == Flatten([]) + x == x;
    assert Flatten([x, y]) == Flatten([x]) + y;
  }

  /** Two sites, the second answering with status 500: the whole query fails with a message that
      ends in the upstream body, and the first site's records are dropped. */
  lemma SecondSiteFails<R(!new), F>(env: Env<R, F>, c: Client, k: PerSiteEntity, siteIds: seq<string>,
                                    a: seq<R>, body: string, resp: DataResponse<F>)
    requires Outcomes(Fetcher(env, c, k), siteIds) == [Success(a), Failure(StatusError(500, body))]
    requires PerSiteAllowed(env, c, k, siteIds, resp)
    ensures resp == ErrorResponse(StatusBadRequest, FetchFailed(k) + "error: code: 500, response: " + body)
  {
    var outcomes := Outcomes(Fetcher(env, c, k), siteIds);
    assert outcomes == [] + [Success(a)] + [Failure(StatusError(500, body))];
    PartitionSnoc<seq<R>, Error>([], Success(a));
    PartitionSnoc<seq<R>, Error>([Success(a)], Failure(StatusError(500, body)));
    assert Failures(outcomes) == [StatusError(500, body)];
    ServerErrorMessage(body);
    var e :| e in Failures(outcomes) && resp == ErrorResponse(StatusBadRequest, FetchFailed(k) + Message(e));
    assert e == StatusError(500, body);
  }
}
