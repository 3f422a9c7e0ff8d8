/** The Hacker News front page handler (api/slapdash/hn-front-page.ts): the
    stories of the front-page RSS feed, with author, points and comment
    count, and a detail view of one story. */
module HnFrontPage {
  import opened Wrappers
  import opened Text
  import opened Envelope

  const PageParam := "page"
  const OopsMessage := "Oops, something went wrong!"
  const PointsLabel := "Points:"
  const CommentsLabel := "Comments:"

  /** The Hacker News logo. */
  const HnLogo := "<svg width=\"48\" height=\"48\" fill=\"none\" xmlns=\"http://www.w3.org/2000/svg\"><path d=\"M48 48H0V0h48v48z\" fill=\"#FF6D00\"/><path d=\"M28 14l-4 8.1-4.1-8.1H16l5.9 12v8H26v-8l5.9-12H28z\" fill=\"#fff\"/></svg>"
  /** A page glyph, shown as a recolourable icon. */
  const PageIcon := Monochrome("<svg width=\"64\" height=\"64\" fill=\"none\" xmlns=\"http://www.w3.org/2000/svg\"><path d=\"M34.7273 0H8v64h49V22.8572L34.7273 0zm0 6.464l15.974 16.3932h-15.974V6.464zm17.8182 52.9645h-40.091V4.57147h17.8182V27.4285h22.2728v32zm-35.6364-22.857h31.1818V32H16.9091v4.5715zm0 9.1428h31.1818v-4.5715H16.9091v4.5715zm0 9.1429h31.1818v-4.5715H16.9091v4.5715z\" fill=\"#000\"/></svg>")

  /** A feed item as the RSS parser delivers it. */
  datatype Item = Item(title: string, link: string, guid: string, creator: string, contentSnippet: string)

  /** The parsed feed, or what the parser rejected with. */
  datatype Upstream = Upstream(feed: Result<seq<Item>, string>)

  /** The handler. It has no `catch`, so a failure is the error the
      serverless runtime receives. */
  function Handle(req: Request, up: Upstream): Result<Response, string>
  {
    var id := Param(req, PageParam);
    if Truthy(id) then PageResponse(id.value, up) else RootResponse(up)
  }

  /** Without a `page` the handler lists the front page: it succeeds exactly
      when the feed parses and every story has a subtitle, with one option
      per story, in feed order. */
  lemma HandleWithoutPage(req: Request, up: Upstream)
    requires !Truthy(Param(req, PageParam))
    ensures Handle(req, up).Success? <==>
              up.feed.Success? && forall item :: item in up.feed.value ==> Subtitle(item).Success?
    ensures Handle(req, up).Success? ==>
              var items := up.feed.value;
              var r := Handle(req, up).value;
              && r.Show? && r.view.ListView? && |r.view.options| == |items|
              && r.view.ranking.None? && r.inputPlaceholder.None? && r.tokens.None?
              && forall i :: 0 <= i < |items| ==> Success(r.view.options[i]) == StoryOption(items[i])
  {
  }

  /** A `page` that is the guid of no story in a parsed feed gives the
      apology text. */
  lemma HandleUnknownPage(req: Request, up: Upstream)
    requires Truthy(Param(req, PageParam)) && up.feed.Success?
    requires forall item :: item in up.feed.value ==> item.guid != Param(req, PageParam).value
    ensures Handle(req, up) == Success(Show(TextView(OopsMessage), None, None))
  {
    assert FindItem(up.feed.value, Param(req, PageParam).value).None?;
  }

  // ---------------------------------------------------------------------
  // The `prefix\s*(\d+)` scans of `getSubtitle`

  /** The end of the longest run of characters satisfying `p` from `j`. */
  function Span(s: string, j: nat, p: char -> bool): (k: nat)
    requires j <= |s|
    ensures j <= k <= |s|
    ensures forall m :: j <= m < k ==> p(s[m])
    ensures k < |s| ==> !p(s[k])
    decreases |s| - j
  {
    if j < |s| && p(s[j]) then Span(s, j + 1, p) else j
  }

  /** Whether `prefix\s*(\d+)` matches at position `i`. White space and
      digits are disjoint, so backing off the greedy `\s*` never helps: the
      pattern matches exactly when a digit follows the longest run of white
      space after the prefix. */
  predicate MatchesAt(prefix: string, s: string, i: nat)
  {
    && i + |prefix| <= |s|
    && s[i..i + |prefix|] == prefix
    && var k := Span(s, i + |prefix|, IsSpace);
       k < |s| && IsDigit(s[k])
  }

  /** The group `(\d+)` of a match at `i`: the longest run of digits after
      the white space. */
  function CaptureAt(prefix: string, s: string, i: nat): (c: string)
    requires MatchesAt(prefix, s, i)
    ensures c != [] && forall m :: 0 <= m < |c| ==> IsDigit(c[m])
  {
    var k := Span(s, i + |prefix|, IsSpace);
    s[k..Span(s, k, IsDigit)]
  }

  /** `s.match(/prefix\s*(\d+)/)` from position `from`: the group of the
      leftmost match, or `None` when the pattern does not occur. */
  function FirstMatch(prefix: string, s: string, from: nat): (r: Option<string>)
    requires from <= |s|
    ensures r.Some? ==> r.value != [] && forall m :: 0 <= m < |r.value| ==> IsDigit(r.value[m])
    decreases |s| - from
  {
    if MatchesAt(prefix, s, from) then Some(CaptureAt(prefix, s, from))
    else if from == |s| then None
    else FirstMatch(prefix, s, from + 1)
  }

  /** The scan finds nothing exactly when the pattern occurs nowhere from
      `from` on. */
  lemma {:induction false} FirstMatchNoneIff(prefix: string, s: string, from: nat)
    requires from <= |s|
    ensures FirstMatch(prefix, s, from).None? <==> forall i :: from <= i <= |s| ==> !MatchesAt(prefix, s, i)
    decreases |s| - from
  {
    if !MatchesAt(prefix, s, from) && from < |s| {
      FirstMatchNoneIff(prefix, s, from + 1);
    }
  }

  /** A match the scan finds is the group of the leftmost occurrence. */
  lemma {:induction false} FirstMatchSomeIsLeftmost(prefix: string, s: string, from: nat)
    requires from <= |s| && FirstMatch(prefix, s, from).Some?
    ensures exists i :: from <= i <= |s| && MatchesAt(prefix, s, i)
                        && (forall j :: from <= j < i ==> !MatchesAt(prefix, s, j))
                        && FirstMatch(prefix, s, from).value == CaptureAt(prefix, s, i)
    decreases |s| - from
  {
    if MatchesAt(prefix, s, from) {
      assert FirstMatch(prefix, s, from).value == CaptureAt(prefix, s, from);
    } else {
      assert from < |s|;
      FirstMatchSomeIsLeftmost(prefix, s, from + 1);
      var i :| from + 1 <= i <= |s| && MatchesAt(prefix, s, i)
               && (forall j :: from + 1 <= j < i ==> !MatchesAt(prefix, s, j))
               && FirstMatch(prefix, s, from + 1).value == CaptureAt(prefix, s, i);
      assert forall j :: from <= j < i ==> !MatchesAt(prefix, s, j);
    }
  }

  /** The scan finds a match exactly when the pattern occurs, and then it
      is the group of the leftmost occurrence. */
  lemma {:induction false} FirstMatchIsLeftmost(prefix: string, s: string, from: nat)
    requires from <= |s|
    ensures var r := FirstMatch(prefix, s, from);
      && (r.None? <==> forall i :: from <= i <= |s| ==> !MatchesAt(prefix, s, i))
      && (r.Some? ==> exists i :: from <= i <= |s| && MatchesAt(prefix, s, i)
                         && (forall j :: from <= j < i ==> !MatchesAt(prefix, s, j))
                         && r.value == CaptureAt(prefix, s, i))
  {
    FirstMatchNoneIff(prefix, s, from);
    if FirstMatch(prefix, s, from).Some? {
      FirstMatchSomeIsLeftmost(prefix, s, from);
    }
  }

  // ---------------------------------------------------------------------
  // Subtitle

  /** What `getSubtitle` returns: the author, then the points and the
      comment count; a snippet lacking either pattern makes `null[1]` throw. */
  function Subtitle(item: Item): (r: Result<seq<string>, string>)
    ensures r.Success? <==>
              FirstMatch(PointsLabel, item.contentSnippet, 0).Some?
              && FirstMatch(CommentsLabel, item.contentSnippet, 0).Some?
    ensures r.Failure? ==> r.error == ReadOfNull("1")
    ensures r.Success? ==>
              && |r.value| == 3 && r.value[0] == item.creator
              && r.value[1] == FirstMatch(PointsLabel, item.contentSnippet, 0).value + " Points"
              && r.value[2] == FirstMatch(CommentsLabel, item.contentSnippet, 0).value + " Comments"
  {
    match FirstMatch(PointsLabel, item.contentSnippet, 0)
    case None => Failure(ReadOfNull("1"))
    case Some(points) =>
      match FirstMatch(CommentsLabel, item.contentSnippet, 0)
      case None => Failure(ReadOfNull("1"))
      case Some(comments) => Success([item.creator, points + " Points", comments + " Comments"])
  }

  /** A story's subtitle can be built exactly when its snippet shows both
      a points count and a comment count. */
  lemma SubtitleNeedsBothCounts(item: Item)
    ensures var s := item.contentSnippet;
            Subtitle(item).Success? <==>
              (exists i :: 0 <= i <= |s| && MatchesAt(PointsLabel, s, i))
              && (exists i :: 0 <= i <= |s| && MatchesAt(CommentsLabel, s, i))
  {
    FirstMatchIsLeftmost(PointsLabel, item.contentSnippet, 0);
    FirstMatchIsLeftmost(CommentsLabel, item.contentSnippet, 0);
  }

  /** `getSubtitle`, step by step: read both counts, then push each that is
      non-empty after the author. */
  method GetSubtitle(item: Item) returns (r: Result<seq<string>, string>)
    ensures r == Subtitle(item)
  {
    var points := FirstMatch(PointsLabel, item.contentSnippet, 0);
    if points.None? {
      return Failure(ReadOfNull("1"));
    }
    var comments := FirstMatch(CommentsLabel, item.contentSnippet, 0);
    if comments.None? {
      return Failure(ReadOfNull("1"));
    }
    var pieces := [item.creator];
    if points.value != "" {
      pieces := pieces + [points.value + " Points"];
    }
    if comments.value != "" {
      pieces := pieces + [comments.value + " Comments"];
    }
    assert pieces == [item.creator, points.value + " Points", comments.value + " Comments"];
    return Success(pieces);
  }

  // ---------------------------------------------------------------------
  // Front page

  function StoryOption(item: Item): (r: Result<ListOption, string>)
    ensures r.Success? <==> Subtitle(item).Success?
    ensures r.Success? ==>
              && r.value.title == item.title
              && r.value.subtitle == Lines(Subtitle(item).value)
              && r.value.icon == PageIcon
              && r.value.action == OpenUrl(item.link)
              && r.value.moveAction == Some(AddParam(PageParam, item.guid))
  {
    var subtitle :- Subtitle(item);
    Success(ListOption(item.title, Lines(subtitle), PageIcon, OpenUrl(item.link), Some(AddParam(PageParam, item.guid)), None))
  }

  function RootResponse(up: Upstream): (r: Result<Response, string>)
    ensures r.Success? <==> up.feed.Success? && forall item :: item in up.feed.value ==> Subtitle(item).Success?
    ensures r.Success? ==>
              var items := up.feed.value;
              && r.value.Show? && r.value.view.ListView?
              && r.value.view.ranking.None? && r.value.inputPlaceholder.None? && r.value.tokens.None?
              && |r.value.view.options| == |items|
              && forall i :: 0 <= i < |items| ==> Success(r.value.view.options[i]) == StoryOption(items[i])
  {
    var items :- up.feed;
    var options :- Traverse(items, StoryOption);
    TraverseSucceedsIff(items, StoryOption);
    Success(Show(ListView(options, None), None, None))
  }

  // ---------------------------------------------------------------------
  // Story detail

  /** `items.find(i => i.guid === id)`. */
  function FindItem(items: seq<Item>, id: string): (r: Option<Item>)
    ensures r.None? <==> forall i :: 0 <= i < |items| ==> items[i].guid != id
    ensures r.Some? ==> exists i :: 0 <= i < |items| && items[i] == r.value
                          && forall j :: 0 <= j < i ==> items[j].guid != id
    ensures r.Some? ==> r.value.guid == id
  {
    if items == [] then None
    else if items[0].guid == id then Some(items[0])
    else
      var r := FindItem(items[1..], id);
      assert forall i :: 1 <= i < |items| ==> items[1..][i - 1] == items[i];
      if r.Some? then
        var k :| 0 <= k < |items[1..]| && items[1..][k] == r.value
                 && forall j :: 0 <= j < k ==> items[1..][j].guid != id;
        assert items[k + 1] == r.value;
        r
      else r
  }

  /** The detail view of a story. */
  function StoryView(item: Item): Response
  {
    Show(ListView([Entry("Open", OpenUrl(item.link)),
                   ListOption("Open on Hacker News", NoSubtitle, Plain(HnLogo), OpenUrl(item.guid), None, None)], None),
         None,
         Some([Token(PageParam, item.title, PageIcon)]))
  }

  function PageResponse(id: string, up: Upstream): (r: Result<Response, string>)
    ensures r.Success? <==> up.feed.Success?
    ensures r.Success? && FindItem(up.feed.value, id).None? ==> r.value == Show(TextView(OopsMessage), None, None)
    ensures r.Success? && FindItem(up.feed.value, id).Some? ==>
              var item := FindItem(up.feed.value, id).value;
              && r.value == StoryView(item)
              && r.value.view.options[1].action == OpenUrl(id)
  {
    var items :- up.feed;
    match FindItem(items, id)
    case None => Success(Show(TextView(OopsMessage), None, None))
    case Some(item) => Success(StoryView(item))
  }

  /** Following the move action of a story in a feed whose guids are
      distinct opens that story's detail view. */
  lemma DrillDownRoundTrip(req: Request, up: Upstream, i: nat)
    requires up.feed.Success? && i < |up.feed.value|
    requires forall j, k :: 0 <= j < k < |up.feed.value| ==> up.feed.value[j].guid != up.feed.value[k].guid
    requires up.feed.value[i].guid != ""
    requires StoryOption(up.feed.value[i]).Success?
    requires var move := StoryOption(up.feed.value[i]).value.moveAction.value;
             Param(req, move.name) == Some(move.value)
    ensures Handle(req, up) == Success(StoryView(up.feed.value[i]))
  {
    var items := up.feed.value;
    var found := FindItem(items, items[i].guid);
    assert found.Some?;
  }
}
