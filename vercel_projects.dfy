/** The Vercel projects handler (api/slapdash/vercel-projects.ts): the
    account's projects with their framework, a project detail view with its
    domains, and the access-token form. */
module VercelProjects {
  import opened Wrappers
  import opened Text
  import opened Envelope

  const TokenHeader := "token"
  const ProjectParam := "project"

  /** The Vercel triangle, as an SVG the launcher may recolour. */
  const VercelIcon := Monochrome("<svg height=\"26\" viewBox=\"0 0 75 65\" fill=\"#000\" xmlns=\"http://www.w3.org/2000/svg\"><path d=\"M37.59.25l36.95 64H.64l36.95-64z\"></path></svg>")

  /** An entry of the framework catalogue; one entry has a `null` slug. */
  datatype Framework = Framework(name: string, slug: Option<string>, logo: string)

  /** A project; `framework` is the slug of its framework, or `null`. */
  datatype Project = Project(id: string, name: string, accountId: string, framework: Option<string>, updatedAt: int)

  datatype Domain = Domain(name: string)

  /** The Vercel REST API keyed by token (and project id), the framework
      catalogue, and the time formatter. A failure is the description of
      what `fetch` or `json()` rejected with. */
  datatype Upstream = Upstream(
    projects: string -> Result<seq<Project>, string>,
    project: (string, string) -> Result<Project, string>,
    domains: (string, string) -> Result<seq<Domain>, string>,
    frameworks: seq<Framework>,
    formatTime: int -> string)

  /** The value of the `Access-Control-Allow-Headers` response header. */
  const AllowHeaders := TokenHeader

  /** The handler; anything thrown becomes a toast. */
  function Handle(req: Request, up: Upstream): Response
  {
    var token := Header(req, TokenHeader);
    var projectId := Param(req, ProjectParam);
    var attempt :=
      if !Truthy(token) then Success(ConfigResponse())
      else if Truthy(projectId) then ProjectResponse(token.value, projectId.value, up)
      else ProjectsResponse(token.value, up);
    match attempt
    case Success(response) => response
    case Failure(e) => Act(ShowToast("Error: " + e))
  }

  /** Without a token the form is shown, whatever the upstream holds. */
  lemma HandleWithoutToken(req: Request, up: Upstream)
    requires !Truthy(Header(req, TokenHeader))
    ensures Handle(req, up) == ConfigResponse()
  {
  }

  /** A failing branch is reported as a toast carrying the error, and only
      a failing branch produces an action. */
  lemma HandleReportsFailures(req: Request, up: Upstream)
    requires Truthy(Header(req, TokenHeader))
    ensures var token := Header(req, TokenHeader).value;
            var attempt := if Truthy(Param(req, ProjectParam))
                           then ProjectResponse(token, Param(req, ProjectParam).value, up)
                           else ProjectsResponse(token, up);
            && (attempt.Failure? <==> Handle(req, up).Act?)
            && (attempt.Failure? ==> Handle(req, up) == Act(ShowToast("Error: " + attempt.error)))
            && (attempt.Success? ==> Handle(req, up) == attempt.value)
  {
  }

  function ConfigResponse(): (r: Response)
    ensures r.ConfigForm? && r.error.None? && |r.rows| == 1 && r.rows[0].Single?
    ensures r.rows[0].field.id == TokenHeader && r.rows[0].field.defaultValue == NoDefault
  {
    ConfigForm(None, [Single(Field(TextInput, TokenHeader, "Vercel Access Token", false, None,
      Some("Grab your personal access token on [Vercel](https://vercel.com/account/tokens)"), NoDefault, []))])
  }

  /** `getVercelProjectURL`. */
  function ProjectUrl(p: Project): (url: string)
    ensures StartsWith(url, "https://vercel.com/")
    ensures url[|"https://vercel.com/"|..] == p.accountId + "/" + p.name
  {
    "https://vercel.com/" + p.accountId + "/" + p.name
  }

  /** `frameworks.find`: the first entry whose slug equals `slug` (a `null`
      slug finds the entry whose slug is `null`). */
  function FindFramework(frameworks: seq<Framework>, slug: Option<string>): (r: Option<Framework>)
    ensures r.None? <==> forall i :: 0 <= i < |frameworks| ==> frameworks[i].slug != slug
    ensures r.Some? ==> exists i :: 0 <= i < |frameworks| && frameworks[i] == r.value
                          && frameworks[i].slug == slug
                          && forall j :: 0 <= j < i ==> frameworks[j].slug != slug
  {
    if frameworks == [] then None
    else if frameworks[0].slug == slug then Some(frameworks[0])
    else
      var r := FindFramework(frameworks[1..], slug);
      assert forall i :: 1 <= i < |frameworks| ==> frameworks[1..][i - 1] == frameworks[i];
      if r.Some? then
        var k :| 0 <= k < |frameworks[1..]| && frameworks[1..][k] == r.value && frameworks[1..][k].slug == slug
                 && forall j :: 0 <= j < k ==> frameworks[1..][j].slug != slug;
        assert frameworks[k + 1] == r.value;
        r
      else r
  }

  /** The entry found is the one a catalogue with unique slugs holds for
      that slug. */
  lemma FindFrameworkUnique(frameworks: seq<Framework>, i: nat)
    requires i < |frameworks|
    requires forall j, k :: 0 <= j < k < |frameworks| ==> frameworks[j].slug != frameworks[k].slug
    ensures FindFramework(frameworks, frameworks[i].slug) == Some(frameworks[i])
  {
    var r := FindFramework(frameworks, frameworks[i].slug);
    assert r.Some?;
  }

  // ---------------------------------------------------------------------
  // Project list

  /** The option of one project; a slug the catalogue lacks leaves
      `framework` undefined, and reading its name throws. */
  function ProjectOption(p: Project, up: Upstream): (r: Result<ListOption, string>)
    ensures r.Success? <==> FindFramework(up.frameworks, p.framework).Some?
    ensures r.Success? ==>
      var f := FindFramework(up.frameworks, p.framework).value;
      && r.value.title == p.name
      && r.value.subtitle == Lines([f.name, up.formatTime(p.updatedAt)])
      && r.value.icon == Plain(f.logo)
      && r.value.action == OpenUrl(ProjectUrl(p))
      && r.value.moveAction == Some(AddParam(ProjectParam, p.id))
  {
    match FindFramework(up.frameworks, p.framework)
    case None => Failure(ReadOfUndefined("name"))
    case Some(f) =>
      Success(ListOption(p.name, Lines([f.name, up.formatTime(p.updatedAt)]), Plain(f.logo),
                         OpenUrl(ProjectUrl(p)), Some(AddParam(ProjectParam, p.id)), None))
  }

  function ProjectsResponse(token: string, up: Upstream): (r: Result<Response, string>)
    ensures r.Success? <==>
      up.projects(token).Success?
      && forall p :: p in up.projects(token).value ==> FindFramework(up.frameworks, p.framework).Some?
    ensures r.Success? ==>
      var projects := up.projects(token).value;
      && r.value.Show? && r.value.view.ListView? && r.value.view.ranking.None?
      && r.value.inputPlaceholder.None? && r.value.tokens.None?
      && |r.value.view.options| == |projects|
      && forall i :: 0 <= i < |projects| ==> Success(r.value.view.options[i]) == ProjectOption(projects[i], up)
  {
    var projects :- up.projects(token);
    var options :- Traverse(projects, (p: Project) => ProjectOption(p, up));
    TraverseSucceedsIff(projects, (p: Project) => ProjectOption(p, up));
    Success(Show(ListView(options, None), None, None))
  }

  // ---------------------------------------------------------------------
  // Project detail

  function OpenApp(d: Domain): ListOption
  {
    ListOption("Open App", Lines([d.name]), NoIcon, OpenUrl("https://" + d.name), None, None)
  }

  function CopyAppUrl(d: Domain): ListOption
  {
    ListOption("Copy App URL", Lines([d.name]), NoIcon, Copy("https://" + d.name), None, None)
  }

  function ProjectResponse(token: string, projectId: string, up: Upstream): (r: Result<Response, string>)
    ensures r.Success? <==>
      && up.project(token, projectId).Success?
      && up.domains(token, projectId).Success?
      && FindFramework(up.frameworks, up.project(token, projectId).value.framework).Some?
    ensures r.Success? ==>
      var p := up.project(token, projectId).value;
      var domains := up.domains(token, projectId).value;
      var f := FindFramework(up.frameworks, p.framework).value;
      && r.value.Show? && r.value.inputPlaceholder.None?
      && r.value.tokens == Some([Token(ProjectParam, p.name, Plain(f.logo))])
      && r.value.view.ListView? && r.value.view.ranking.None?
      && r.value.view.options == DetailOptions(p, domains)
  {
    var p :- up.project(token, projectId);
    var domains :- up.domains(token, projectId);
    match FindFramework(up.frameworks, p.framework)
    case None => Failure(ReadOfUndefined("logo"))
    case Some(f) =>
      Success(Show(ListView(DetailOptions(p, domains), None), None,
                   Some([Token(ProjectParam, p.name, Plain(f.logo))])))
  }

  function DetailOptions(p: Project, domains: seq<Domain>): seq<ListOption>
  {
    [ListOption("Open in Vercel", NoSubtitle, VercelIcon, OpenUrl(ProjectUrl(p)), None, None)]
    + seq(|domains|, i requires 0 <= i < |domains| => OpenApp(domains[i]))
    + seq(|domains|, i requires 0 <= i < |domains| => CopyAppUrl(domains[i]))
  }

  /** The detail view opens the project in Vercel first, then offers to open
      each domain, then to copy each domain's URL, both in domain order; the
      open and copy options of one domain carry the same URL. */
  lemma DetailOptionsLayout(p: Project, domains: seq<Domain>)
    ensures var options := DetailOptions(p, domains);
      && |options| == 1 + 2 * |domains|
      && options[0].action == OpenUrl(ProjectUrl(p))
      && forall i :: 0 <= i < |domains| ==>
           && options[1 + i] == OpenApp(domains[i])
           && options[1 + |domains| + i] == CopyAppUrl(domains[i])
           && options[1 + i].action.url == options[1 + |domains| + i].action.value == "https://" + domains[i].name
  {
  }

  /** Following a project's move action opens that project's detail view. */
  lemma DrillDownOpensProject(p: Project, up: Upstream, req: Request)
    requires p.id != "" && Truthy(Header(req, TokenHeader))
    requires ProjectOption(p, up).Success?
    requires var move := ProjectOption(p, up).value.moveAction.value;
             Param(req, move.name) == Some(move.value)
    ensures var attempt := ProjectResponse(Header(req, TokenHeader).value, p.id, up);
            Handle(req, up) == if attempt.Success? then attempt.value else Act(ShowToast("Error: " + attempt.error))
  {
  }
}
