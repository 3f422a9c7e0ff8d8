/** The npm search handler (api/slapdash/search-npm.ts): a keyword search
    over the npms.io registry index, annotated with each package's scores,
    and a detail view of one package's links and install commands. */
module SearchNpm {
  import opened Wrappers
  import opened Text
  import opened Envelope
  import Compact

  const KeywordsParam := "keywords"
  const PackageParam := "package"
  const SearchPlaceholder := "Type to search NPM packages"
  const InstallGroup := "Install"

  datatype Links = Links(npm: string, homepage: Option<string>, repository: Option<string>, bugs: Option<string>)

  /** A search hit; `description` may be `null`. */
  datatype Package = Package(name: string, description: Option<string>, date: string, links: Links)

  datatype GithubStats = GithubStats(starsCount: int)
  datatype Scores = Scores(quality: real, popularity: real, maintenance: real)
  datatype Metadata = Metadata(name: string, links: Links)
  datatype PackageInfo = PackageInfo(github: Option<GithubStats>, metadata: Metadata, score: Scores)

  /** The npms.io endpoints (search keyed by the trimmed query, the bulk
      lookup keyed by the list of names, the single lookup keyed by the
      package name; a failure is a rejected fetch or an unparsable body),
      the host name `new URL` finds in a string (`None` when it throws), and
      the date and number formatters. */
  datatype Upstream = Upstream(
    search: string -> Result<seq<Package>, string>,
    mget: seq<string> -> Result<map<string, PackageInfo>, string>,
    lookup: string -> Result<PackageInfo, string>,
    hostname: string -> Option<string>,
    formatDate: string -> string,
    formatNumber: int -> string)

  /** The handler. It has no `catch`, so a failure is the error the
      serverless runtime receives. */
  function Handle(req: Request, up: Upstream): Result<Response, string>
  {
    var keywords := Param(req, KeywordsParam);
    var query := if keywords.Some? then Some(Trim(keywords.value)) else None;
    var packageName := Param(req, PackageParam);
    if Truthy(packageName) then PackageResponse(packageName.value, up) else RootResponse(query, up)
  }

  /** The list shown for an empty query. */
  const EmptyList := Show(ListView([], Some(false)), Some(SearchPlaceholder), None)

  /** A query that is missing or only white space gives the empty list and
      asks nothing of the registry. */
  lemma BlankQueryIsEmptyList(req: Request, up: Upstream)
    requires !Truthy(Param(req, PackageParam))
    requires Param(req, KeywordsParam).Some? ==> AllSpace(Param(req, KeywordsParam).value)
    ensures Handle(req, up) == Success(EmptyList)
  {
    if Param(req, KeywordsParam).Some? {
      TrimEmptyIff(Param(req, KeywordsParam).value);
    }
  }

  /** A non-blank query is sent trimmed. */
  lemma QueryIsTrimmed(req: Request, up: Upstream)
    requires !Truthy(Param(req, PackageParam))
    requires Param(req, KeywordsParam).Some? && !AllSpace(Param(req, KeywordsParam).value)
    ensures Handle(req, up) == RootResponse(Some(Trim(Param(req, KeywordsParam).value)), up)
    ensures Trim(Param(req, KeywordsParam).value) != ""
  {
    TrimEmptyIff(Param(req, KeywordsParam).value);
  }

  function Names(results: seq<Package>): (names: seq<string>)
    ensures |names| == |results| && forall i :: 0 <= i < |results| ==> names[i] == results[i].name
  {
    seq(|results|, i requires 0 <= i < |results| => results[i].name)
  }

  function RootResponse(query: Option<string>, up: Upstream): (r: Result<Response, string>)
    ensures !Truthy(query) ==> r == Success(EmptyList)
    ensures Truthy(query) ==>
      (r.Success? <==>
        && up.search(query.value).Success?
        && up.mget(Names(up.search(query.value).value)).Success?
        && forall p :: p in up.search(query.value).value ==> p.name in up.mget(Names(up.search(query.value).value)).value)
    ensures r.Success? ==> r.value.Show? && r.value.view.ListView? && r.value.view.ranking == Some(false)
    ensures r.Success? ==> r.value.inputPlaceholder == Some(SearchPlaceholder) && r.value.tokens.None?
    ensures r.Success? && Truthy(query) ==>
      var results := up.search(query.value).value;
      var infos := up.mget(Names(results)).value;
      && |r.value.view.options| == |results|
      && forall i :: 0 <= i < |results| ==>
           r.value.view.options[i] == PackageOption(results[i], infos[results[i].name], up)
  {
    if !Truthy(query) then Success(EmptyList)
    else
      var results :- up.search(query.value);
      var infos :- up.mget(Names(results));
      var options :- Traverse(results, (p: Package) => LookupOption(p, infos, up));
      TraverseSucceedsIff(results, (p: Package) => LookupOption(p, infos, up));
      Success(Show(ListView(options, Some(false)), Some(SearchPlaceholder), None))
  }

  /** The option of one hit; a hit the bulk lookup did not return makes
      `packageInfos[name].collected` throw. */
  function LookupOption(p: Package, infos: map<string, PackageInfo>, up: Upstream): (r: Result<ListOption, string>)
    ensures r.Success? <==> p.name in infos
    ensures r.Success? ==> r.value == PackageOption(p, infos[p.name], up)
  {
    if p.name in infos then Success(PackageOption(p, infos[p.name], up))
    else Failure(ReadOfUndefined("collected"))
  }

  function PackageOption(p: Package, info: PackageInfo, up: Upstream): (option: ListOption)
    ensures option.title == Title(p) && option.icon == Shared(Asset.Package)
    ensures var date := up.formatDate(p.date);
            option.subtitle == Lines((if date != "" then [date] else [])
                                     + (if info.github.Some? then [Stars(info, up)] else [])
                                     + ScoreItems(info))
    ensures option.moveAction == Some(AddParam(PackageParam, p.name))
    ensures option.action == OpenUrl(p.links.npm)
  {
    SubtitleItems(p, info, up);
    ListOption(Title(p), Lines(Subtitle(p, info, up)), Shared(Asset.Package), OpenUrl(p.links.npm),
               Some(AddParam(PackageParam, p.name)), None)
  }

  /** The name, followed by an en dash and the description when there is one. */
  function Title(p: Package): (title: string)
    ensures StartsWith(title, p.name)
    ensures title == p.name <==> !Truthy(p.description)
    ensures Truthy(p.description) ==> title[|p.name|..] == " \U{2013} " + p.description.value
  {
    p.name + (if Truthy(p.description) then " \U{2013} " + p.description.value else "")
  }

  function Stars(info: PackageInfo, up: Upstream): string
    requires info.github.Some?
  {
    "\U{2605}" + up.formatNumber(info.github.value.starsCount)
  }

  function Quality(info: PackageInfo): string { "Quality " + FormatScore(info.score.quality) }
  function Popularity(info: PackageInfo): string { "Popularity " + FormatScore(info.score.popularity) }
  function Maintenance(info: PackageInfo): string { "Maintenance " + FormatScore(info.score.maintenance) }

  function ScoreItems(info: PackageInfo): seq<string>
  {
    [Quality(info), Popularity(info), Maintenance(info)]
  }

  /** The subtitle items before `compact` drops the falsy ones. */
  function SubtitleCandidates(p: Package, info: PackageInfo, up: Upstream): seq<Option<string>>
  {
    [Some(up.formatDate(p.date)), if info.github.Some? then Some(Stars(info, up)) else None]
    + Compact.Lift(ScoreItems(info))
  }

  function Subtitle(p: Package, info: PackageInfo, up: Upstream): seq<string>
  {
    Compact.Compact(SubtitleCandidates(p, info, up), NonEmpty)
  }

  /** The subtitle is the date (when it renders non-empty), the star count
      (when the package has GitHub data), then the three scores. */
  lemma SubtitleItems(p: Package, info: PackageInfo, up: Upstream)
    ensures var date := up.formatDate(p.date);
            Subtitle(p, info, up) ==
              (if date != "" then [date] else [])
              + (if info.github.Some? then [Stars(info, up)] else [])
              + ScoreItems(info)
  {
    var head := [Some(up.formatDate(p.date)), if info.github.Some? then Some(Stars(info, up)) else None];
    Compact.CompactThenTruthy(head, ScoreItems(info), NonEmpty);
    Compact.CompactOfTwo(head, NonEmpty);
  }

  // ---------------------------------------------------------------------
  // Scores

  /** `Math.round` over the reals: the nearest integer, halves rounding up. */
  function Round(x: real): (n: int)
    ensures n as real - 0.5 <= x < n as real + 0.5
  {
    (x + 0.5).Floor
  }

  /** A score in [0, 1] as a whole percentage. */
  function FormatScore(score: real): string
  {
    IntToString(Round(score * 100.0)) + "%"
  }

  /** A score in [0, 1] renders as a whole number from 0 to 100 followed by
      "%", and that number is the score's nearest percentage. */
  lemma FormatScoreIsPercentage(score: real)
    requires 0.0 <= score <= 1.0
    ensures var s := FormatScore(score);
            && |s| >= 2 && s[|s| - 1] == '%'
            && ParseNat(s[..|s| - 1]).Some?
            && ParseNat(s[..|s| - 1]).value <= 100
            && ParseNat(s[..|s| - 1]).value as real - 0.5 <= score * 100.0 < ParseNat(s[..|s| - 1]).value as real + 0.5
  {
    var n := Round(score * 100.0);
    assert 0 <= n <= 100;
    var s := FormatScore(score);
    assert s[..|s| - 1] == NatToString(n);
    ParseNatToString(n);
  }

  /** Rounding is monotone, so a better score never shows a lower percentage. */
  lemma RoundMonotone(x: real, y: real)
    requires x <= y
    ensures Round(x) <= Round(y)
  {
  }

  lemma FormatScoreExamples()
    ensures FormatScore(0.0) == "0%"
    ensures FormatScore(1.0) == "100%"
    ensures FormatScore(0.865) == "87%"
    ensures FormatScore(0.285) == "29%"
  {
    assert Round(100.0) == 100;
    assert NatToString(100) == NatToString(10) + ['0'];
    assert Round(86.5) == 87;
    assert NatToString(87) == NatToString(8) + ['7'];
    assert Round(28.5) == 29;
    assert NatToString(29) == NatToString(2) + ['9'];
  }

  // ---------------------------------------------------------------------
  // Package detail

  /** The icon for a link: GitHub's for github.com, otherwise the host's
      favicon; a string `new URL` rejects throws. */
  function GetIcon(rawUrl: string, up: Upstream): (r: Result<Icon, string>)
    ensures r.Success? <==> up.hostname(rawUrl).Some?
    ensures r.Success? ==>
      (r.value == Shared(Github) <==> up.hostname(rawUrl) == Some("github.com"))
    ensures r.Success? && r.value != Shared(Github) ==>
      r.value == Plain("https://" + up.hostname(rawUrl).value + "/favicon.ico")
  {
    match up.hostname(rawUrl)
    case None => Failure("TypeError: Invalid URL")
    case Some(host) =>
      if host == "github.com" then Success(Shared(Github))
      else Success(Plain("https://" + host + "/favicon.ico"))
  }

  function LinkOption(title: string, url: string, icon: Icon): ListOption
  {
    ListOption(title, Line(url), icon, OpenUrl(url), None, None)
  }

  function NpmInstall(name: string): ListOption
  {
    ListOption("Copy NPM install command", Line("npm i " + name), NoIcon, Copy("npm i " + name), None, Some(InstallGroup))
  }

  function YarnInstall(name: string): ListOption
  {
    ListOption("Copy Yarn install command", Line("yarn add " + name), NoIcon, Copy("yarn add " + name), None, Some(InstallGroup))
  }

  /** The option for an optional link whose icon may need `getIcon`. */
  function IconLink(title: string, link: Option<string>, up: Upstream): (r: Result<Option<ListOption>, string>)
    ensures r.Success? <==> !Truthy(link) || up.hostname(link.value).Some?
    ensures r.Success? ==> (r.value.Some? <==> Truthy(link))
    ensures r.Success? && Truthy(link) ==>
              r.value == Some(LinkOption(title, link.value, GetIcon(link.value, up).value))
  {
    if !Truthy(link) then Success(None)
    else
      var icon :- GetIcon(link.value, up);
      Success(Some(LinkOption(title, link.value, icon)))
  }

  function PackageResponse(name: string, up: Upstream): (r: Result<Response, string>)
    ensures r.Success? <==>
      && up.lookup(name).Success?
      && IconLink("Open Homepage", up.lookup(name).value.metadata.links.homepage, up).Success?
      && IconLink("Open Bugs", up.lookup(name).value.metadata.links.bugs, up).Success?
    ensures r.Success? ==>
      var metadata := up.lookup(name).value.metadata;
      && r.value.Show? && r.value.tokens == Some([Token(PackageParam, metadata.name, Shared(Asset.Package))])
      && r.value.inputPlaceholder.None?
      && r.value.view == ListView(PackageOptions(metadata,
                                   IconLink("Open Homepage", metadata.links.homepage, up).value,
                                   IconLink("Open Bugs", metadata.links.bugs, up).value), None)
      && r.value.view.ListView?
      && 3 <= |r.value.view.options| <= 6
      && r.value.view.options[0] == LinkOption("Open on NPM", metadata.links.npm, Shared(Npm))
      && r.value.view.options[|r.value.view.options| - 2..] == [NpmInstall(metadata.name), YarnInstall(metadata.name)]
  {
    var info :- up.lookup(name);
    var metadata := info.metadata;
    var links := metadata.links;
    var home :- IconLink("Open Homepage", links.homepage, up);
    var bugs :- IconLink("Open Bugs", links.bugs, up);
    var options := PackageOptions(metadata, home, bugs);
    PackageOptionsShape(metadata, home, bugs);
    Success(Show(ListView(options, None), None, Some([Token(PackageParam, metadata.name, Shared(Asset.Package))])))
  }

  function PackageOptions(metadata: Metadata, home: Option<ListOption>, bugs: Option<ListOption>): seq<ListOption>
  {
    var links := metadata.links;
    var repo := if Truthy(links.repository) then Some(LinkOption("Open Repository", links.repository.value, Shared(GithubRepo))) else None;
    Compact.Compact([Some(LinkOption("Open on NPM", links.npm, Shared(Npm))), repo, home, bugs]
                    + Compact.Lift([NpmInstall(metadata.name), YarnInstall(metadata.name)]), AnyOption)
  }

  predicate AnyOption(o: ListOption)
  {
    true
  }

  function Present<T>(o: Option<T>): seq<T>
  {
    if o.Some? then [o.value] else []
  }

  /** The detail options are "Open on NPM", then the repository, homepage
      and bugs links that exist, in that order, then the two install
      commands. */
  lemma PackageOptionsShape(metadata: Metadata, home: Option<ListOption>, bugs: Option<ListOption>)
    ensures var links := metadata.links;
            var repo := if Truthy(links.repository) then Some(LinkOption("Open Repository", links.repository.value, Shared(GithubRepo))) else None;
            PackageOptions(metadata, home, bugs) ==
              [LinkOption("Open on NPM", links.npm, Shared(Npm))] + Present(repo) + Present(home) + Present(bugs)
              + [NpmInstall(metadata.name), YarnInstall(metadata.name)]
  {
    var links := metadata.links;
    var repo := if Truthy(links.repository) then Some(LinkOption("Open Repository", links.repository.value, Shared(GithubRepo))) else None;
    var links4 := [Some(LinkOption("Open on NPM", links.npm, Shared(Npm))), repo, home, bugs];
    Compact.CompactThenTruthy(links4, [NpmInstall(metadata.name), YarnInstall(metadata.name)], AnyOption);
    Compact.CompactOfFour(links4, AnyOption);
  }

  /** Following a hit's move action opens that package's detail view. */
  lemma DrillDownOpensPackage(p: Package, info: PackageInfo, up: Upstream, req: Request)
    requires p.name != ""
    requires var move := PackageOption(p, info, up).moveAction.value;
             Param(req, move.name) == Some(move.value)
    ensures Handle(req, up) == PackageResponse(p.name, up)
  {
  }
}
