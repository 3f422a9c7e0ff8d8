/** The GitHub stars handler (api/slapdash/github-stars.ts): the viewer's
    starred repositories, a repository detail view, an access-token form,
    and the mapping of failures to envelopes. */
module GithubStars {
  import opened Wrappers
  import opened Text
  import opened Envelope
  import Compact

  const RepoParam := "repo"
  const AccessTokenHeader := "access-token"

  /** `PARAMS` and `CONFIG`: each logical key paired with the query
      parameter or header it is read from. */
  const Params: seq<(string, string)> := [("REPO", RepoParam)]
  const Config: seq<(string, string)> := [("ACCESS_TOKEN", AccessTokenHeader)]

  const ExpiredTokenMessage := "It looks like this access token isn't valid or has expired. Try creating a new one."
  const OopsMessage := "Oops! Sorry, something went wrong!"
  const ListPlaceholder := "Type to search your starred repos..."
  const TokenHelp := "\nTo create a new access token:\n\n- Go to [Developers Settings](https://github.com/settings/tokens/new).\n- Press **Generate token**.\n- Copy the token and paste it in the field above.\n"

  datatype Repository = Repository(
    id: string,
    name: string,
    description: Option<string>,
    url: string,
    stargazerCount: int,
    forkCount: int)

  datatype StarEdge = StarEdge(starredAt: string, node: Repository)

  datatype RepoNode = RepoNode(nameWithOwner: string, url: string, homepageUrl: Option<string>)

  /** The JSON body of a GraphQL reply: not JSON at all, JSON without
      `data`, or the `data` the query asked for. */
  datatype Body<T> = Malformed(error: string) | NoData | Data(data: T)

  /** A reply to the GraphQL POST, or the error `fetch` rejects with. */
  datatype Reply<T> = Unreachable(error: string) | Reply(status: int, body: Body<T>)

  /** What a request can throw: the `ApiError` for a non-200 reply, or any
      other error, by its description. */
  datatype Fault = ApiError(status: int) | Thrown(description: string)

  /** The replies of the GitHub GraphQL API, keyed by the access token (and
      the node id for the detail query; `None` is a `null` node), and the
      date and number formatters, which are library code. */
  datatype Upstream = Upstream(
    starred: string -> Reply<seq<StarEdge>>,
    node: (string, string) -> Reply<Option<RepoNode>>,
    formatDate: string -> string,
    formatNumber: int -> string)

  /** The value of the `Access-Control-Allow-Headers` response header. */
  function AllowHeaders(): (h: string)
    ensures h == AccessTokenHeader
  {
    Join(seq(|Config|, i requires 0 <= i < |Config| => Config[i].1), ", ")
  }

  // ---------------------------------------------------------------------
  // Reading the request: `getParams` and `getConfig`

  /** The `reduce` that builds `{ [key]: source[name] }`, later entries
      overriding earlier ones with the same key. */
  function Collect(entries: seq<(string, string)>, source: map<string, string>): (r: map<string, Option<string>>)
    ensures forall k :: k in r <==> exists e :: e in entries && e.0 == k
  {
    if entries == [] then map[]
    else
      var last := entries[|entries| - 1];
      var init := Collect(entries[..|entries| - 1], source);
      assert forall e :: e in entries <==> e in entries[..|entries| - 1] || e == last;
      init[last.0 := Lookup(source, last.1)]
  }

  /** An entry whose key no later entry repeats gives the value of its
      parameter or header. */
  lemma {:induction false} CollectReads(entries: seq<(string, string)>, source: map<string, string>, i: nat)
    requires i < |entries|
    requires forall j :: i < j < |entries| ==> entries[j].0 != entries[i].0
    ensures entries[i].0 in Collect(entries, source)
    ensures Collect(entries, source)[entries[i].0] == Lookup(source, entries[i].1)
  {
    if i < |entries| - 1 {
      CollectReads(entries[..|entries| - 1], source, i);
    }
  }

  /** A property of the collected object; a missing one is `undefined`. */
  function Get(m: map<string, Option<string>>, key: string): Option<string>
  {
    if key in m then m[key] else None
  }

  function AccessToken(req: Request): (token: Option<string>)
    ensures token == Header(req, AccessTokenHeader)
  {
    CollectReads(Config, req.headers, 0);
    Get(Collect(Config, req.headers), "ACCESS_TOKEN")
  }

  function RepoId(req: Request): (repo: Option<string>)
    ensures repo == Param(req, RepoParam)
  {
    CollectReads(Params, req.query, 0);
    Get(Collect(Params, req.query), "REPO")
  }

  // ---------------------------------------------------------------------
  // Dispatch and error mapping

  function Classify(token: Option<string>, repo: Option<string>): Mode
  {
    if !Truthy(token) then NeedsConfig else if Truthy(repo) then Detail else List
  }

  /** The handler: whatever the branch throws is turned into an envelope by
      `ErrorResponse`, so a response always results. */
  function Handle(req: Request, up: Upstream): Response
  {
    var token := AccessToken(req);
    var repo := RepoId(req);
    var attempt :=
      match Classify(token, repo)
      case NeedsConfig => Success(ConfigResponse(req, None))
      case Detail => RepoResponse(token.value, repo.value, up)
      case List => RootResponse(token.value, up);
    match attempt
    case Success(response) => response
    case Failure(fault) => ErrorResponse(req, fault)
  }

  /** Without an access token the form is shown, echoing the header as its
      default value, whatever else the request holds. */
  lemma HandleWithoutToken(req: Request, up: Upstream)
    requires !Truthy(Header(req, AccessTokenHeader))
    ensures Handle(req, up) == ConfigForm(None, [Single(TokenField(Header(req, AccessTokenHeader)))])
  {
  }

  /** With a token, a `repo` parameter selects the detail view, otherwise
      the starred list; a failure of either goes through `ErrorResponse`. */
  lemma HandleWithToken(req: Request, up: Upstream)
    requires Truthy(Header(req, AccessTokenHeader))
    ensures var token := Header(req, AccessTokenHeader).value;
            var attempt := if Truthy(Param(req, RepoParam))
                           then RepoResponse(token, Param(req, RepoParam).value, up)
                           else RootResponse(token, up);
            Handle(req, up) == (if attempt.Success? then attempt.value else ErrorResponse(req, attempt.error))
  {
  }

  /** The handler only ever answers with the form or a view. */
  lemma HandleAnswersFormOrView(req: Request, up: Upstream)
    ensures Handle(req, up).ConfigForm? || Handle(req, up).Show?
  {
  }

  /** A 401 becomes the token form carrying the expiry message; every other
      failure becomes the generic message view. */
  function ErrorResponse(req: Request, fault: Fault): (r: Response)
    ensures fault == ApiError(401) ==>
              r == ConfigForm(Some(ExpiredTokenMessage), [Single(TokenField(Header(req, AccessTokenHeader)))])
    ensures fault != ApiError(401) ==> r == Show(TextView(OopsMessage), None, None)
    ensures r.ConfigForm? ==> r.error.Some? && r.error.value != ""
  {
    if fault.ApiError? && fault.status == 401 then ConfigResponse(req, Some(ExpiredTokenMessage))
    else Show(TextView(OopsMessage), None, None)
  }

  /** The token field; its default value echoes the current header. */
  function TokenField(token: Option<string>): Field
  {
    Field(TextInput, AccessTokenHeader, "Github Access Token", false,
          Some("Paste your access token here"), Some(TokenHelp),
          if token.Some? then TextValue(token.value) else NoDefault, [])
  }

  function ConfigResponse(req: Request, error: Option<string>): (r: Response)
    ensures r.ConfigForm? && r.error == error && |r.rows| == 1 && r.rows[0].Single?
    ensures r.rows[0].field.id == AccessTokenHeader
    ensures Header(req, AccessTokenHeader).Some? ==>
              r.rows[0].field.defaultValue == TextValue(Header(req, AccessTokenHeader).value)
  {
    ConfigForm(error, [Single(TokenField(AccessToken(req)))])
  }

  /** `graphQLRequest`: the body is decoded first (and may throw), then any
      status other than 200 throws an `ApiError`, then `data` is returned
      (`None` when the body had none). */
  function GraphQLRequest<T>(reply: Reply<T>): (r: Result<Option<T>, Fault>)
    ensures (r.Failure? && r.error.ApiError?) <==>
              (reply.Reply? && !reply.body.Malformed? && reply.status != 200)
    ensures r.Failure? && r.error.ApiError? ==> r.error.status == reply.status
    ensures r.Success? <==> reply.Reply? && !reply.body.Malformed? && reply.status == 200
    ensures r.Success? ==> (r.value.Some? <==> reply.body.Data?)
    ensures r.Success? && r.value.Some? ==> r.value.value == reply.body.data
  {
    match reply
    case Unreachable(e) => Failure(Thrown(e))
    case Reply(status, body) =>
      if body.Malformed? then Failure(Thrown(body.error))
      else if status != 200 then Failure(ApiError(status))
      else Success(if body.Data? then Some(body.data) else None)
  }

  // ---------------------------------------------------------------------
  // Starred list

  /** `name`, or `name - description` when there is a description. */
  function RepoTitle(name: string, description: Option<string>): (title: string)
    ensures StartsWith(title, name)
    ensures title == name <==> !Truthy(description)
    ensures Truthy(description) ==> title[|name|..] == " - " + description.value
  {
    if Truthy(description) then name + " - " + description.value else name
  }

  function RepoOption(edge: StarEdge, up: Upstream): ListOption
  {
    var repo := edge.node;
    ListOption(
      RepoTitle(repo.name, repo.description),
      Lines([up.formatDate(edge.starredAt),
             "\U{2606}" + up.formatNumber(repo.stargazerCount),
             "\U{2442}" + up.formatNumber(repo.forkCount)]),
      Shared(GithubRepo),
      Labelled("Open", "Open on Github", Shared(Github), OpenUrl(repo.url)),
      Some(AddParam(RepoParam, repo.id)),
      None)
  }

  function RootResponse(token: string, up: Upstream): (r: Result<Response, Fault>)
    ensures r.Success? <==> GraphQLRequest(up.starred(token)).Success? && up.starred(token).body.Data?
    ensures r.Success? ==>
      var edges := up.starred(token).body.data;
      && r.value.Show? && r.value.inputPlaceholder == Some(ListPlaceholder) && r.value.tokens.None?
      && r.value.view.ListView? && r.value.view.ranking.None? && |r.value.view.options| == |edges|
      && forall i :: 0 <= i < |edges| ==>
           var option := r.value.view.options[i];
           && option.title == RepoTitle(edges[i].node.name, edges[i].node.description)
           && option.subtitle == Lines([up.formatDate(edges[i].starredAt),
                                        "\U{2606}" + up.formatNumber(edges[i].node.stargazerCount),
                                        "\U{2442}" + up.formatNumber(edges[i].node.forkCount)])
           && option.icon == Shared(GithubRepo)
           && option.action == Labelled("Open", "Open on Github", Shared(Github), OpenUrl(edges[i].node.url))
           && option.moveAction == Some(AddParam(RepoParam, edges[i].node.id))
  {
    var data :- GraphQLRequest(up.starred(token));
    if data.None? then Failure(Thrown(ReadOfUndefined("viewer")))
    else
      var edges := data.value;
      var options := seq(|edges|, i requires 0 <= i < |edges| => RepoOption(edges[i], up));
      Success(Show(ListView(options, None), Some(ListPlaceholder), None))
  }

  // ---------------------------------------------------------------------
  // Repository detail

  function OpenOnGithub(node: RepoNode): ListOption
  {
    ListOption("Open on Github", Lines([node.url]), Shared(Github), OpenUrl(node.url), None, None)
  }

  function OpenHomepage(home: string): ListOption
  {
    ListOption("Open Homepage", Lines([home]), NoIcon, OpenUrl(home), None, None)
  }

  function CopyGithubUrl(node: RepoNode): ListOption
  {
    ListOption("Copy Github URL", Lines([node.url]), NoIcon, Copy(node.url), None, None)
  }

  function CopyHomepageUrl(home: string): ListOption
  {
    ListOption("Copy Homepage URL", Lines([home]), NoIcon, Copy(home), None, None)
  }

  /** The detail options, before `compact` drops the homepage ones when
      there is no homepage. */
  function RepoCandidates(node: RepoNode): seq<Option<ListOption>>
  {
    var home := node.homepageUrl;
    [ Some(OpenOnGithub(node)),
      if Truthy(home) then Some(OpenHomepage(home.value)) else None,
      Some(CopyGithubUrl(node)),
      if Truthy(home) then Some(CopyHomepageUrl(home.value)) else None ]
  }

  /** Every option object is truthy. */
  predicate AnyOption(o: ListOption)
  {
    true
  }

  /** The options of the detail view. */
  function RepoOptions(node: RepoNode): seq<ListOption>
  {
    Compact.Compact(RepoCandidates(node), AnyOption)
  }

  function RepoResponse(token: string, repoId: string, up: Upstream): (r: Result<Response, Fault>)
    ensures var reply := up.node(token, repoId);
            r.Success? <==> GraphQLRequest(reply).Success? && reply.body.Data? && reply.body.data.Some?
    ensures r.Success? ==>
      var node := up.node(token, repoId).body.data.value;
      var home := node.homepageUrl;
      && r.value == Show(ListView(RepoOptions(node), None), None,
                         Some([Token(RepoParam, node.nameWithOwner, Shared(GithubRepo))]))
      && RepoOptions(node) ==
           if Truthy(home)
           then [OpenOnGithub(node), OpenHomepage(home.value), CopyGithubUrl(node), CopyHomepageUrl(home.value)]
           else [OpenOnGithub(node), CopyGithubUrl(node)]
  {
    var data :- GraphQLRequest(up.node(token, repoId));
    if data.None? then Failure(Thrown("TypeError: Cannot destructure property 'node' of undefined"))
    else if data.value.None? then Failure(Thrown(ReadOfNull("nameWithOwner")))
    else
      var node := data.value.value;
      RepoDetailOptions(node);
      Success(Show(
        ListView(RepoOptions(node), None),
        None,
        Some([Token(RepoParam, node.nameWithOwner, Shared(GithubRepo))])))
  }

  /** Without a homepage the detail view offers opening and copying the
      GitHub URL; with one it offers, in this order, opening GitHub, opening
      the homepage, copying the GitHub URL and copying the homepage URL. */
  lemma RepoDetailOptions(node: RepoNode)
    ensures var home := node.homepageUrl;
            RepoOptions(node) ==
              if Truthy(home)
              then [OpenOnGithub(node), OpenHomepage(home.value), CopyGithubUrl(node), CopyHomepageUrl(home.value)]
              else [OpenOnGithub(node), CopyGithubUrl(node)]
  {
    Compact.CompactOfFour(RepoCandidates(node), AnyOption);
  }

  /** The detail view of a resolved repository carries one breadcrumb, on
      the `repo` parameter, named after the repository. */
  lemma RepoDetailToken(token: string, repoId: string, up: Upstream)
    requires RepoResponse(token, repoId, up).Success?
    ensures var node := up.node(token, repoId).body.data.value;
            RepoResponse(token, repoId, up).value.tokens == Some([Token(RepoParam, node.nameWithOwner, Shared(GithubRepo))])
  {
  }

  /** An id that resolves to no node ends in the generic message view, not
      in a fault. */
  lemma UnknownRepoGivesOops(req: Request, up: Upstream)
    requires Truthy(Header(req, AccessTokenHeader)) && Truthy(Param(req, RepoParam))
    requires up.node(Header(req, AccessTokenHeader).value, Param(req, RepoParam).value) == Reply(200, Data(None))
    ensures Handle(req, up) == Show(TextView(OopsMessage), None, None)
  {
  }

  /** A rejected token, in either branch, brings the form back with the
      expiry message. */
  lemma UnauthorizedGivesForm(req: Request, up: Upstream)
    requires Truthy(Header(req, AccessTokenHeader))
    requires var token := Header(req, AccessTokenHeader).value;
             var reply := if Truthy(Param(req, RepoParam)) then ReplyStatus(up.node(token, Param(req, RepoParam).value))
                          else ReplyStatus(up.starred(token));
             reply == Some(401)
    ensures Handle(req, up) == ConfigForm(Some(ExpiredTokenMessage), [Single(TokenField(Header(req, AccessTokenHeader)))])
  {
  }

  /** The status of a reply whose body decoded. */
  function ReplyStatus<T>(reply: Reply<T>): Option<int>
  {
    if reply.Reply? && !reply.body.Malformed? then Some(reply.status) else None
  }
}
