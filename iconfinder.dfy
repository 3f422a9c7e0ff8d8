/** The Iconfinder handler (api/slapdash/iconfinder.ts): icon search with a
    preference form, an icon detail view, and the SVG preview heuristic. */
module Iconfinder {
  import opened Wrappers
  import opened Text
  import opened Envelope

  const CountHeader := "count"
  const PremiumHeader := "premium"
  const TypeHeader := "type"
  const StyleHeader := "style"
  const KeywordsParam := "keywords"
  const IdParam := "id"

  /** Every endpoint the handler reads lives under this prefix. */
  const ApiBase := "https://api.iconfinder.com/v4/icons/"

  datatype VectorFormat = VectorFormat(downloadUrl: string)
  datatype VectorSize = VectorSize(formats: seq<VectorFormat>)
  datatype RasterFormat = RasterFormat(previewUrl: string)
  datatype RasterSize = RasterSize(formats: seq<RasterFormat>)

  /** An icon as the Iconfinder API describes it; `kind` is its `type`
      ("vector" or "raster"). */
  datatype IconRecord = IconRecord(
    iconId: nat,
    kind: string,
    isPremium: bool,
    vectorSizes: Option<seq<VectorSize>>,
    rasterSizes: seq<RasterSize>,
    tags: seq<string>)

  datatype Style = Style(name: string, identifier: string)

  /** What the handler's requests return. `search` and `lookup` are keyed by
      the URL requested; `download` gives the text body at a download URL.
      A `Failure` is the error the request (or the JSON decoding) throws. */
  datatype Upstream = Upstream(
    styles: Result<seq<Style>, string>,
    search: string -> Result<seq<IconRecord>, string>,
    lookup: string -> Result<IconRecord, string>,
    download: string -> Result<string, string>)

  /** The search preferences after defaulting. */
  datatype Settings = Settings(count: string, vector: string, premium: string, style: string)

  /** The value of the `Access-Control-Allow-Headers` response header. */
  function AllowHeaders(): (h: string)
    ensures h == "count, premium, type, style"
  {
    var names := [CountHeader, PremiumHeader, TypeHeader, StyleHeader];
    assert Join(names[3..], ", ") == "style";
    assert Join(names[2..], ", ") == "type, style" by {
      assert names[2..][1..] == names[3..];
    }
    assert Join(names[1..], ", ") == "premium, type, style" by {
      assert names[1..][1..] == names[2..];
    }
    Join(names, ", ")
  }

  // ---------------------------------------------------------------------
  // Dispatch

  /** No `count` preference means the form; then a non-empty `id` means the
      detail view, and anything else the search. */
  function Classify(count: Option<string>, id: string): Mode
  {
    if !Truthy(count) then NeedsConfig else if id != "" then Detail else List
  }

  /** The handler. It has no `catch`, so a `Failure` is an unhandled throw. */
  function Handle(req: Request, up: Upstream): Result<Response, string>
  {
    var count := Header(req, CountHeader);
    var keywords := GetOr(Param(req, KeywordsParam), "");
    var id := GetOr(Param(req, IdParam), "");
    match Classify(count, id)
    case NeedsConfig => ConfigResponse(up.styles)
    case Detail => IconResponse(id, up)
    case List =>
      var settings := DefaultSettings(count.value, Header(req, PremiumHeader),
                                      Header(req, TypeHeader), Header(req, StyleHeader));
      RootResponse(keywords, settings, up)
  }

  /** Without a `count` preference the form is shown, whatever the query says. */
  lemma HandleWithoutCount(req: Request, up: Upstream)
    requires !Truthy(Header(req, CountHeader))
    ensures Handle(req, up) == ConfigResponse(up.styles)
  {
  }

  /** With a `count` preference, a non-empty `id` selects the detail view
      and an empty or absent one the search, with absent keywords read as "". */
  lemma HandleWithCount(req: Request, up: Upstream)
    requires Truthy(Header(req, CountHeader))
    ensures var id := GetOr(Param(req, IdParam), "");
            id != "" ==> Handle(req, up) == IconResponse(id, up)
    ensures var id := GetOr(Param(req, IdParam), "");
            id == "" ==> Handle(req, up) == RootResponse(
              GetOr(Param(req, KeywordsParam), ""),
              DefaultSettings(Header(req, CountHeader).value, Header(req, PremiumHeader),
                              Header(req, TypeHeader), Header(req, StyleHeader)),
              up)
  {
  }

  // ---------------------------------------------------------------------
  // Preference form

  function ConfigResponse(styles: Result<seq<Style>, string>): (r: Result<Response, string>)
    ensures r.Success? <==> styles.Success?
    ensures r.Success? ==> r.value.ConfigForm? && r.value.error.None? && |r.value.rows| == 2
    ensures r.Success? ==> r.value.rows[0] == Row([CountField, PremiumField])
    ensures r.Success? ==> r.value.rows[1].Row? && |r.value.rows[1].fields| == 2
                           && r.value.rows[1].fields[0] == TypeField
    ensures r.Success? ==> var style := r.value.rows[1].fields[1];
            style.kind == SelectInput && style.id == StyleHeader && style.caption == "Style"
            && !style.required && style.defaultValue == TextValue("")
            && |style.choices| == |styles.value|
            && forall i :: 0 <= i < |styles.value| ==>
                 style.choices[i] == Choice(styles.value[i].name, styles.value[i].identifier)
  {
    var styles :- styles;
    var choices := seq(|styles|, i requires 0 <= i < |styles| => Choice(styles[i].name, styles[i].identifier));
    Success(ConfigForm(None, [
      Row([CountField, PremiumField]),
      Row([TypeField, Field(SelectInput, StyleHeader, "Style", false, None, None, TextValue(""), choices)])
    ]))
  }

  const CountField := Field(TextInput, CountHeader, "Count", true, None, None, TextValue("10"), [])
  const PremiumField := Field(ToggleInput, PremiumHeader, "Include Premium", false, None, None, Flag(false), [])
  const TypeField := Field(SelectInput, TypeHeader, "Type", false, None, None, TextValue("all"),
                           [Choice("All", "all"), Choice("Raster Only", "0"), Choice("Vector Only", "1")])

  // ---------------------------------------------------------------------
  // Search

  /** `premium` is "all" only for the header value "true"; absent `type` and
      `style` become "". */
  function DefaultSettings(count: string, premium: Option<string>, kind: Option<string>, style: Option<string>): (s: Settings)
    ensures s.count == count
    ensures s.premium == "all" <==> premium == Some("true")
    ensures s.premium == "all" || s.premium == "0"
    ensures s.vector == (if kind.Some? then kind.value else "")
    ensures s.style == (if style.Some? then style.value else "")
  {
    Settings(count, GetOr(kind, ""), if premium == Some("true") then "all" else "0", GetOr(style, ""))
  }

  /** The search endpoint's path; the query is not URL-encoded. */
  function SearchPath(query: string, s: Settings): string
  {
    "search?query=" + query + "&count=" + s.count + "&vector=" + s.vector
    + "&premium=" + s.premium + "&style=" + s.style
  }

  function RootResponse(query: string, settings: Settings, up: Upstream): (r: Result<Response, string>)
    ensures var found := up.search(ApiBase + SearchPath(query, settings));
            r.Success? <==> found.Success? && forall icon :: icon in found.value ==> IconOption(icon, up.download).Success?
    ensures var found := up.search(ApiBase + SearchPath(query, settings));
            r.Success? ==> found.Success? && r.value.Show? && r.value.tokens.None? && r.value.inputPlaceholder.None?
                           && r.value.view.ListView? && r.value.view.ranking == Some(false)
                           && |r.value.view.options| == |found.value|
                           && forall i :: 0 <= i < |found.value| ==>
                                IconOption(found.value[i], up.download) == Success(r.value.view.options[i])
  {
    var icons :- up.search(ApiBase + SearchPath(query, settings));
    var options :- Traverse(icons, icon => IconOption(icon, up.download));
    TraverseSucceedsIff(icons, icon => IconOption(icon, up.download));
    Success(Show(ListView(options, Some(false)), None, None))
  }

  /** The icon's page on the Iconfinder site. */
  function IconPage(iconId: nat): string
  {
    "https://www.iconfinder.com/icons/" + NatToString(iconId) + "/"
  }

  /** One search result. */
  function IconOption(icon: IconRecord, download: string -> Result<string, string>): (r: Result<ListOption, string>)
    ensures r.Success? <==> GetIconPreview(icon, download).Success?
    ensures r.Success? ==> r.value.title == Join(icon.tags, " ")
    ensures r.Success? ==> r.value.subtitle == Lines([icon.kind, if icon.isPremium then "Premium" else "Free"])
    ensures r.Success? ==> r.value.icon == GetIconPreview(icon, download).value
    ensures r.Success? ==> r.value.moveAction == Some(AddParam(IdParam, NatToString(icon.iconId)))
    ensures r.Success? ==> var svg := GetSvg(icon, download).value;
            (svg.Some? ==> r.value.action == Paste(svg.value))
            && (svg.None? ==> r.value.action == OpenUrl(IconPage(icon.iconId)))
  {
    var svg :- GetSvg(icon, download);
    var preview :- GetIconPreview(icon, download);
    var action := if Truthy(svg) then Paste(svg.value) else OpenUrl(IconPage(icon.iconId));
    Success(ListOption(
      Join(icon.tags, " "),
      Lines([icon.kind, if icon.isPremium then "Premium" else "Free"]),
      preview,
      action,
      Some(AddParam(IdParam, NatToString(icon.iconId))),
      None))
  }

  /** A drill-down id emitted by the search is the icon's decimal id: it reads
      back as that id, and the detail request it triggers looks the icon up
      by that id. */
  lemma DrillDownRoundTrip(req: Request, up: Upstream, icon: IconRecord)
    requires Truthy(Header(req, CountHeader))
    requires Param(req, IdParam) == Some(NatToString(icon.iconId))
    ensures ParseNat(Param(req, IdParam).value) == Some(icon.iconId)
    ensures Handle(req, up) == IconResponse(NatToString(icon.iconId), up)
    ensures Handle(req, up).Success? ==> up.lookup(ApiBase + NatToString(icon.iconId)).Success?
  {
    ParseNatToString(icon.iconId);
    HandleWithCount(req, up);
  }

  // ---------------------------------------------------------------------
  // Detail

  function IconResponse(id: string, up: Upstream): (r: Result<Response, string>)
    ensures r.Success? <==> up.lookup(ApiBase + id).Success?
                            && GetSvg(up.lookup(ApiBase + id).value, up.download).Success?
                            && GetIconPreview(up.lookup(ApiBase + id).value, up.download).Success?
    ensures r.Success? ==>
      var icon := up.lookup(ApiBase + id).value;
      var svg := GetSvg(icon, up.download).value;
      var page := IconPage(icon.iconId);
      && r.value.Show? && r.value.view.ListView? && r.value.view.ranking.None? && r.value.inputPlaceholder.None?
      && r.value.tokens == Some([Token(IdParam, Join(icon.tags, " "), GetIconPreview(icon, up.download).value)])
      && |r.value.view.options| == (if svg.Some? then 4 else 2)
      && r.value.view.options[0] == Entry("Open in Iconfinder", OpenUrl(page))
      && r.value.view.options[1] == Entry("Copy URL", Copy(page))
      && (svg.Some? ==> r.value.view.options[2] == Entry("Copy SVG", Copy(svg.value))
                        && r.value.view.options[3] == Entry("Paste SVG", Paste(svg.value)))
  {
    var icon :- up.lookup(ApiBase + id);
    var svg :- GetSvg(icon, up.download);
    var preview :- GetIconPreview(icon, up.download);
    var page := IconPage(icon.iconId);
    var svgOptions := if Truthy(svg) then [Entry("Copy SVG", Copy(svg.value)), Entry("Paste SVG", Paste(svg.value))] else [];
    Success(Show(
      ListView([Entry("Open in Iconfinder", OpenUrl(page)), Entry("Copy URL", Copy(page))] + svgOptions, None),
      None,
      Some([Token(IdParam, Join(icon.tags, " "), preview)])))
  }

  // ---------------------------------------------------------------------
  // SVG download and preview

  /** Only SVG documents are used; anything else downloaded is discarded. */
  predicate IsSvgText(text: string)
  {
    StartsWith(text, "<svg ") || StartsWith(text, "<?xml ")
  }

  /** The SVG of a vector icon: the first format of its last vector size,
      downloaded, kept only if it looks like SVG. */
  function GetSvg(icon: IconRecord, download: string -> Result<string, string>): (r: Result<Option<string>, string>)
    ensures r.Success? && r.value.Some? ==> IsSvgText(r.value.value) && r.value.value != ""
    ensures r.Success? && r.value.Some? ==> icon.kind == "vector" && icon.vectorSizes.Some?
    ensures icon.kind != "vector" || icon.vectorSizes.None? ==> r == Success(None)
    ensures icon.kind == "vector" && icon.vectorSizes.Some? && icon.vectorSizes.value != []
            && Last(icon.vectorSizes.value).formats != [] ==>
              var text := download(Last(icon.vectorSizes.value).formats[0].downloadUrl);
              && (r.Success? <==> text.Success?)
              && (text.Success? && IsSvgText(text.value) ==> r == Success(Some(text.value)))
              && (text.Success? && !IsSvgText(text.value) ==> r == Success(None))
              && (text.Failure? ==> r == Failure(text.error))
    ensures (icon.kind == "vector" && icon.vectorSizes.Some?
             && (icon.vectorSizes.value == [] || Last(icon.vectorSizes.value).formats == [])) ==> r.Failure?
  {
    if icon.kind == "vector" && icon.vectorSizes.Some? then
      var sizes := icon.vectorSizes.value;
      if sizes == [] then Failure(ReadOfUndefined("formats"))
      else if Last(sizes).formats == [] then Failure(ReadOfUndefined("download_url"))
      else
        var text :- download(Last(sizes).formats[0].downloadUrl);
        Success(if IsSvgText(text) then Some(text) else None)
    else Success(None)
  }

  function Last<T>(s: seq<T>): T
    requires s != []
  {
    s[|s| - 1]
  }

  /** The icon shown for a result: its SVG, marked monochrome when it uses
      fewer than two distinct fill colours; without an SVG, the preview of
      the first format of the last raster size. */
  function GetIconPreview(icon: IconRecord, download: string -> Result<string, string>): (r: Result<Icon, string>)
    ensures GetSvg(icon, download).Failure? ==> r.Failure?
    ensures GetSvg(icon, download) == Success(None) && icon.rasterSizes != []
            && Last(icon.rasterSizes).formats != [] ==>
              r == Success(Plain(Last(icon.rasterSizes).formats[0].previewUrl))
    ensures GetSvg(icon, download) == Success(None) && (icon.rasterSizes == [] || Last(icon.rasterSizes).formats == []) ==>
              r.Failure?
    ensures GetSvg(icon, download).Success? && GetSvg(icon, download).value.Some? ==>
              var svg := GetSvg(icon, download).value.value;
              r.Success? && (r.value == Monochrome(svg) <==> |Colors(svg)| < 2)
              && (r.value == Plain(svg) <==> |Colors(svg)| >= 2)
  {
    match GetSvg(icon, download)
    case Failure(e) => Failure(e)
    case Success(svg) =>
      if Truthy(svg) then
        Success(if |Colors(svg.value)| < 2 then Monochrome(svg.value) else Plain(svg.value))
      else if icon.rasterSizes == [] then Failure(ReadOfUndefined("formats"))
      else if Last(icon.rasterSizes).formats == [] then Failure(ReadOfUndefined("preview_url"))
      else Success(Plain(Last(icon.rasterSizes).formats[0].previewUrl))
  }

  // ---------------------------------------------------------------------
  // Colour counting: the captures of `/fill="(#\w+)"/gm` and `/fill:(#\w+)/gm`

  datatype Pattern = FillAttribute | FillStyle

  /** The literal text a pattern starts with, up to and including `#`. */
  function Opening(p: Pattern): string
  {
    match p
    case FillAttribute => "fill=\"#"
    case FillStyle => "fill:#"
  }

  /** The longest run of `\w` characters starting at `i`. */
  function WordRun(s: string, i: nat): (w: string)
    requires i <= |s|
    ensures i + |w| <= |s| && w == s[i..i + |w|]
    ensures forall k :: 0 <= k < |w| ==> IsWordChar(w[k])
    ensures i + |w| == |s| || !IsWordChar(s[i + |w|])
    decreases |s| - i
  {
    if i < |s| && IsWordChar(s[i]) then [s[i]] + WordRun(s, i + 1) else []
  }

  /** A run of `\w` characters from `i` up to a non-word character or the end
      is the run `WordRun` finds. */
  lemma WordRunTo(s: string, i: nat, k: nat)
    requires i <= k <= |s|
    requires forall j :: i <= j < k ==> IsWordChar(s[j])
    requires k == |s| || !IsWordChar(s[k])
    ensures WordRun(s, i) == s[i..k]
  {
  }

  /** The pattern tried at position `i`: its capture and the index just past
      the match. `\w+` is greedy and `\w` excludes `"`, so backtracking
      never finds a shorter run followed by `"`. */
  function MatchAt(p: Pattern, s: string, i: nat): (m: Option<(string, nat)>)
    requires i <= |s|
    ensures m.Some? ==> i < m.value.1 <= |s| && IsColor(m.value.0)
  {
    if !StartsWith(s[i..], Opening(p)) then None
    else
      var start := i + |Opening(p)|;
      var w := WordRun(s, start);
      var stop := start + |w|;
      if w == [] then None
      else if p == FillStyle then Some(("#" + w, stop))
      else if stop < |s| && s[stop] == '"' then Some(("#" + w, stop + 1))
      else None
  }

  /** A capture: `#` followed by one or more `\w` characters. */
  predicate IsColor(c: string)
  {
    |c| >= 2 && c[0] == '#' && forall k :: 1 <= k < |c| ==> IsWordChar(c[k])
  }

  /** `s.matchAll(p)` from index `i`: after a match the search resumes where
      the match ended, otherwise one character further on. */
  function MatchAll(p: Pattern, s: string, i: nat): (captures: seq<string>)
    requires i <= |s|
    ensures forall c :: c in captures ==> IsColor(c)
    decreases |s| - i
  {
    if i == |s| then []
    else
      match MatchAt(p, s, i)
      case Some((c, next)) => [c] + MatchAll(p, s, next)
      case None => MatchAll(p, s, i + 1)
  }

  /** The distinct colours the heuristic counts. */
  function Colors(svg: string): (colors: set<string>)
    ensures forall c :: c in colors ==> IsColor(c)
  {
    set c | c in MatchAll(FillAttribute, svg, 0) + MatchAll(FillStyle, svg, 0)
  }

  /** A `fill="none"` attribute or a `fill:none` style declaration is no
      match of either pattern, so it contributes no colour (every reported
      colour comes from a match, by `MatchAllSound`); neither "none" nor a
      bare "#" is ever a colour. */
  lemma NoneIsNotAColor(svg: string)
    ensures forall i :: 0 <= i <= |svg| && (StartsWith(svg[i..], "fill=\"none\"") || StartsWith(svg[i..], "fill:none")) ==>
              MatchAt(FillAttribute, svg, i).None? && MatchAt(FillStyle, svg, i).None?
    ensures "none" !in Colors(svg) && "#" !in Colors(svg)
  {
    forall i | 0 <= i <= |svg| && (StartsWith(svg[i..], "fill=\"none\"") || StartsWith(svg[i..], "fill:none"))
      ensures MatchAt(FillAttribute, svg, i).None? && MatchAt(FillStyle, svg, i).None?
    {
      var rest := svg[i..];
      if StartsWith(rest, "fill=\"none\"") {
        assert rest[4] == '=' && rest[6] == 'n';
      } else {
        assert rest[4] == ':' && rest[5] == 'n';
      }
      assert !StartsWith(rest, Opening(FillAttribute)) && !StartsWith(rest, Opening(FillStyle));
    }
  }

  /** Every reported colour is the capture of a match of its pattern at some
      position at or after `i`. */
  lemma {:induction false} MatchAllSound(p: Pattern, s: string, i: nat, c: string)
    requires i <= |s| && c in MatchAll(p, s, i)
    ensures exists j :: i <= j <= |s| && MatchAt(p, s, j).Some? && MatchAt(p, s, j).value.0 == c
    decreases |s| - i
  {
    if i < |s| {
      match MatchAt(p, s, i)
      case Some((c', next)) =>
        if c != c' {
          MatchAllSound(p, s, next, c);
        }
      case None =>
        MatchAllSound(p, s, i + 1, c);
    }
  }

  /** A `fill="#…"` match never overlaps the start of another one. */
  lemma AttributeMatchesDoNotOverlap(s: string, i: nat, j: nat)
    requires i <= |s| && MatchAt(FillAttribute, s, i).Some?
    requires i < j < MatchAt(FillAttribute, s, i).value.1
    ensures MatchAt(FillAttribute, s, j).None?
  {
    var open := Opening(FillAttribute);
    var w := WordRun(s, i + 7);
    var stop := i + 7 + |w|;
    assert s[i..i + 7] == open;
    assert forall k :: i + 7 <= k < stop ==> IsWordChar(s[k]) by {
      assert forall k :: i + 7 <= k < stop ==> s[k] == w[k - i - 7];
    }
    assert stop < |s| && s[stop] == '"';
    if j < i + 7 {
      assert s[j] == open[j - i] && open[j - i] != 'f';
    } else if j + 4 < stop {
      assert IsWordChar(s[j + 4]);
    } else if j < stop {
      assert s[stop] == '"' && stop - j <= 4;
    } else {
      assert s[j] == '"';
    }
  }

  /** For `fill="#…"` the scan is exact: every match at or after `i` is
      reported. */
  lemma {:induction false} AttributeScanComplete(s: string, i: nat, j: nat)
    requires i <= j <= |s| && MatchAt(FillAttribute, s, j).Some?
    ensures MatchAt(FillAttribute, s, j).value.0 in MatchAll(FillAttribute, s, i)
    decreases |s| - i
  {
    if i < j {
      match MatchAt(FillAttribute, s, i)
      case Some((c, next)) =>
        if j < next {
          AttributeMatchesDoNotOverlap(s, i, j);
        } else {
          AttributeScanComplete(s, next, j);
        }
      case None =>
        AttributeScanComplete(s, i + 1, j);
    }
  }


  /** For `fill:#…` the scan is not exact: a run of `\w` that ends in `fill`
      swallows the start of the next match, so "fill:#abcfill:#def" yields
      only "#abcfill" although a match of the pattern starts at index 9. */
  lemma StyleScanCanHideAMatch()
    ensures MatchAt(FillStyle, "fill:#abcfill:#def", 9) == Some(("#def", 18))
    ensures MatchAll(FillStyle, "fill:#abcfill:#def", 0) == ["#abcfill"]
  {
    HiddenStyleMatch();
    StyleScanOfExample();
  }

  lemma HiddenStyleMatch()
    ensures MatchAt(FillStyle, "fill:#abcfill:#def", 9) == Some(("#def", 18))
  {
    var s := "fill:#abcfill:#def";
    assert StartsWith(s[9..], Opening(FillStyle)) by {
      assert s[9..][..6] == "fill:#";
    }
    WordRunTo(s, 15, 18);
    assert s[15..18] == "def";
    assert "#" + "def" == "#def";
  }

  lemma StyleScanOfExample()
    ensures MatchAll(FillStyle, "fill:#abcfill:#def", 0) == ["#abcfill"]
  {
    StyleMatchAtStart();
    StyleScanAfterFirstMatch();
  }

  lemma StyleMatchAtStart()
    ensures MatchAt(FillStyle, "fill:#abcfill:#def", 0) == Some(("#abcfill", 13))
  {
    var s := "fill:#abcfill:#def";
    assert s[0..] == s;
    assert StartsWith(s, Opening(FillStyle)) by {
      assert s[..6] == "fill:#";
    }
    WordRunTo(s, 6, 13);
    assert MatchAt(FillStyle, s, 0) == Some(("#" + s[6..13], 13));
    assert "#" + s[6..13] == "#abcfill";
  }

  lemma StyleScanAfterFirstMatch()
    ensures MatchAll(FillStyle, "fill:#abcfill:#def", 13) == []
  {
    var s := "fill:#abcfill:#def";
    assert MatchAll(FillStyle, s, 17) == [];
    assert MatchAll(FillStyle, s, 16) == [];
    assert MatchAll(FillStyle, s, 15) == [];
    assert MatchAll(FillStyle, s, 14) == [];
  }
}
