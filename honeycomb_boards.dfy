/** The Honeycomb boards handler (api/slapdash/honeycomb-boards.ts): the
    team's boards as a list, or the API-key form when no key is configured. */
module HoneycombBoards {
  import opened Wrappers
  import opened Text
  import opened Envelope
  import Compact

  const ApiKeyHeader := "api-key"
  const BoardUrlBase := "https://ui.honeycomb.io/slapdash/board/"
  const RejectedMessage := "The request to Honeycomb failed. Please make sure your API key is valid and has permissions to access Honeycomb Boards."

  const ApiKeyHelp := "You can generate a new API Key on your team's settings page in [Honeycomb](https://ui.honeycomb.io/teams). Please make sure to enable access to Honeycomb Boards when creating a new key."

  /** The board glyph (an SVG chart), shown as a recolourable icon. */
  const BoardIcon := Monochrome("<svg width=\"64\" height=\"64\" fill=\"none\" xmlns=\"http://www.w3.org/2000/svg\"><path fill-rule=\"evenodd\" clip-rule=\"evenodd\" d=\"M2.462 0c.652 0 1.278.306 1.74.852.462.546.721 1.286.721 2.057v55.273h56.615c.653 0 1.28.306 1.741.852.462.545.721 1.285.721 2.057 0 .771-.26 1.511-.721 2.057-.462.545-1.088.852-1.74.852H2.462c-.653 0-1.28-.306-1.741-.852C.259 62.602 0 61.862 0 61.091V2.909C0 2.138.26 1.398.721.852 1.183.306 1.809 0 2.461 0Z\" fill=\"#000\"/><path fill-rule=\"evenodd\" clip-rule=\"evenodd\" d=\"M63.39 20.953c.213.277.376.599.48.948a3.16 3.16 0 0 1-.125 2.14c-.144.33-.343.624-.587.866l-19.691 19.6a2.307 2.307 0 0 1-1.53.691 2.264 2.264 0 0 1-1.57-.559l-18.094-15.44-18.19 18.108a2.409 2.409 0 0 1-.833.546 2.185 2.185 0 0 1-1.88-.144 2.53 2.53 0 0 1-.761-.666 2.917 2.917 0 0 1-.48-.947 3.161 3.161 0 0 1 .126-2.14 2.79 2.79 0 0 1 .586-.865l19.692-19.6a2.308 2.308 0 0 1 1.528-.69 2.264 2.264 0 0 1 1.569.558l18.096 15.44 18.19-18.109c.492-.488 1.134-.734 1.784-.684.651.05 1.258.392 1.687.95l.003-.003Z\" fill=\"#000\"/></svg>")

  /** A saved query on a board; its caption may be missing or empty. */
  datatype Query = Query(caption: Option<string>)

  /** A board; `description` is `None` when it is `null` or missing. */
  datatype Board = Board(id: string, name: string, description: Option<string>, queries: seq<Query>)

  /** The reply to `GET /1/boards`: its status and its decoded body (a
      failure when `json()` rejects). */
  datatype Reply = Reply(status: int, body: Result<seq<Board>, string>)

  /** The Honeycomb API keyed by the API key; a failure is what `fetch`
      rejected with. */
  datatype Upstream = Upstream(boards: string -> Result<Reply, string>)

  /** The value of the `Access-Control-Allow-Headers` response header. */
  const AllowHeaders := ApiKeyHeader

  function ConfigResponse(): (r: Response)
    ensures r.ConfigForm? && r.error.None? && |r.rows| == 1 && r.rows[0].Single?
    ensures r.rows[0].field.id == ApiKeyHeader && r.rows[0].field.defaultValue == NoDefault
  {
    ConfigForm(None, [Single(Field(TextInput, ApiKeyHeader, "Honeycomb API Key", false,
      Some("Paste your Team API Key"),
      Some(ApiKeyHelp), NoDefault, []))])
  }

  /** The handler: the form without a key; otherwise the boards, a fixed
      toast for a non-200 reply, or a toast carrying whatever was thrown. */
  function Handle(req: Request, up: Upstream): (r: Response)
    ensures !Truthy(Header(req, ApiKeyHeader)) ==> r == ConfigResponse()
    ensures Truthy(Header(req, ApiKeyHeader)) ==> !r.ConfigForm?
  {
    var apiKey := Header(req, ApiKeyHeader);
    if !Truthy(apiKey) then ConfigResponse()
    else
      match up.boards(apiKey.value)
      case Failure(e) => Act(ShowToast("Error: " + e))
      case Success(reply) =>
        if reply.status != 200 then Act(ShowToast(RejectedMessage))
        else
          match reply.body
          case Failure(e) => Act(ShowToast("Error: " + e))
          case Success(boards) => Show(ListView(BoardOptions(boards), None), None, None)
  }

  /** A reply other than 200 gives the fixed toast, whatever its body. */
  lemma RejectedReplyGivesToast(req: Request, up: Upstream)
    requires Truthy(Header(req, ApiKeyHeader))
    requires up.boards(Header(req, ApiKeyHeader).value).Success?
    requires up.boards(Header(req, ApiKeyHeader).value).value.status != 200
    ensures Handle(req, up) == Act(ShowToast(RejectedMessage))
  {
  }

  /** A 200 reply whose body decodes lists every board, in order. */
  lemma AcceptedReplyListsBoards(req: Request, up: Upstream)
    requires Truthy(Header(req, ApiKeyHeader))
    requires var reply := up.boards(Header(req, ApiKeyHeader).value);
             reply.Success? && reply.value.status == 200 && reply.value.body.Success?
    ensures var boards := up.boards(Header(req, ApiKeyHeader).value).value.body.value;
            && Handle(req, up).Show? && Handle(req, up).view.ListView?
            && Handle(req, up).view.ranking.None?
            && Handle(req, up).inputPlaceholder.None? && Handle(req, up).tokens.None?
            && |Handle(req, up).view.options| == |boards|
            && forall i :: 0 <= i < |boards| ==> Handle(req, up).view.options[i] == BoardOption(boards[i])
  {
  }

  /** A fetch that rejects, or a body that does not decode, becomes a toast
      quoting the error. */
  lemma ThrownErrorGivesToast(req: Request, up: Upstream, e: string)
    requires Truthy(Header(req, ApiKeyHeader))
    requires var reply := up.boards(Header(req, ApiKeyHeader).value);
             reply == Failure(e) || (reply.Success? && reply.value.status == 200 && reply.value.body == Failure(e))
    ensures Handle(req, up) == Act(ShowToast("Error: " + e))
  {
  }

  function BoardOptions(boards: seq<Board>): seq<ListOption>
  {
    seq(|boards|, i requires 0 <= i < |boards| => BoardOption(boards[i]))
  }

  function BoardOption(board: Board): (option: ListOption)
    ensures option.title == board.name && option.icon == BoardIcon
    ensures option.subtitle == BoardSubtitle(board)
    ensures option.action == OpenUrl(BoardUrl(board.id))
  {
    ListOption(board.name, BoardSubtitle(board), BoardIcon, OpenUrl(BoardUrl(board.id)), None, None)
  }

  function BoardUrl(id: string): (url: string)
    ensures StartsWith(url, BoardUrlBase) && url[|BoardUrlBase|..] == id
  {
    BoardUrlBase + id
  }

  function Captions(queries: seq<Query>): (captions: seq<Option<string>>)
    ensures |captions| == |queries| && forall i :: 0 <= i < |queries| ==> captions[i] == queries[i].caption
  {
    seq(|queries|, i requires 0 <= i < |queries| => queries[i].caption)
  }

  /** The description when there is one, even an empty one (`??` only
      replaces `null` and `undefined`); otherwise the non-empty query
      captions. */
  function BoardSubtitle(board: Board): (s: Subtitle)
    ensures board.description.Some? ==> s == Line(board.description.value)
    ensures board.description.None? ==> s.Lines?
  {
    if board.description.Some? then Line(board.description.value)
    else Lines(Compact.Compact(Captions(board.queries), NonEmpty))
  }

  /** Without a description, the subtitle lists exactly the non-empty
      captions, in query order. */
  lemma CaptionSubtitle(board: Board, c: string)
    requires board.description.None?
    ensures c in BoardSubtitle(board).items <==>
              c != "" && exists i :: 0 <= i < |board.queries| && board.queries[i].caption == Some(c)
    ensures |BoardSubtitle(board).items| == |board.queries| <==>
              forall i :: 0 <= i < |board.queries| ==> Truthy(board.queries[i].caption)
  {
    var captions := Captions(board.queries);
    Compact.CompactMembership(captions, NonEmpty, c);
    Compact.CompactLength(captions, NonEmpty);
    assert Some(c) in captions <==> exists i :: 0 <= i < |board.queries| && board.queries[i].caption == Some(c) by {
      if Some(c) in captions {
        var i :| 0 <= i < |captions| && captions[i] == Some(c);
        assert board.queries[i].caption == Some(c);
      }
    }
  }

  /** Without a description, two non-empty captions appear in the subtitle
      in the order of their queries. */
  lemma CaptionOrder(board: Board, i: nat, j: nat)
    requires board.description.None?
    requires i < j < |board.queries|
    requires Truthy(board.queries[i].caption) && Truthy(board.queries[j].caption)
    ensures var items := BoardSubtitle(board).items;
            exists k, l :: 0 <= k < l < |items|
                           && items[k] == board.queries[i].caption.value
                           && items[l] == board.queries[j].caption.value
  {
    var captions := Captions(board.queries);
    var items := BoardSubtitle(board).items;
    Compact.CompactOrder(captions, NonEmpty, i);
    Compact.CompactOrder(captions, NonEmpty, j);
    Compact.CompactKeepsRelativeOrder(captions, NonEmpty, i, j);
    var k, l := |Compact.Compact(captions[..i], NonEmpty)|, |Compact.Compact(captions[..j], NonEmpty)|;
    assert items[k] == board.queries[i].caption.value && items[l] == board.queries[j].caption.value;
  }
}
