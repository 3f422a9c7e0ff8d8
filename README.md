# slapdash-commands in Dafny

slapdash-commands is a set of serverless handlers for the Slapdash command
palette. Each handler reads a request (query parameters and header
fields), may call an upstream API, and answers with a command-response
envelope. The envelope holds exactly one of three things: a configuration
form, a view (a list of options or a text) or an action. This project
models the decision and shaping logic of seven handlers, plus the
`compact` utility they share, as total Dafny functions. It proves what each
handler answers for every request and every upstream reply.

Layout, one module per file:

- `wrappers.dfy` (`Wrappers`): `Option`, `Result` and `Traverse`. `Traverse` is the
  `Promise.all` over a `map`: it fails with the first failing element in list order.
- `compact.dfy` (`Compact`): `utils/compact.ts`.
- `text.dfy` (`Text`): JavaScript truthiness of strings, the `\s`, `\w` and `\d`
  classes, `trim`, `join`, and decimal rendering of numbers with its inverse.
- `envelope.dfy` (`Envelope`): the response envelope, the request, and the
  TypeError messages of failed property reads. The envelope's `label` fields are called `caption`,
  because `label` is a Dafny keyword.
- One module per handler: `iconfinder.dfy`, `github_stars.dfy`, `search_npm.dfy`,
  `vercel_projects.dfy`, `honeycomb_boards.dfy`, `hn_front_page.dfy`,
  `parse_user_agent.dfy`.

Each handler gets a `Handle` function. What the handler fetches becomes an
`Upstream` value: a function from the request key (URL, token, id) to the
decoded reply, or to the error `fetch` or `json()` throws. Library code is
also part of `Upstream`: the date and number formatters, the user-agent
parser, the framework catalogue and the URL host parser. A handler without a
`catch` (Iconfinder, npm search, Hacker News) returns
`Result<Response, string>`, where a `Failure` is the unhandled exception. A
handler with a `catch` (GitHub stars, Vercel projects, Honeycomb boards)
returns a `Response`, and the proofs show how every failure is turned into
an envelope.

`getSubtitle` in the Hacker News handler builds its result by pushing onto
an array. It is therefore modelled as the method `HnFrontPage.GetSubtitle`,
proved equal to the function `HnFrontPage.Subtitle` that the list view
uses. Everything else in the core is expression code and is modelled as
functions.

## Model

| member | source | states |
|---|---|---|
| Compact.Compact | utils/compact.ts:4-6 | the result is never longer than the input, and every element it keeps is a truthy element of the input |
| Compact.CompactMembership | utils/compact.ts:4-6 | a value survives exactly when it occurs in the input and is truthy |
| Compact.CompactLength | utils/compact.ts:4-6 | nothing is dropped exactly when every element is truthy |
| Compact.CompactConcat | utils/compact.ts:4-6 | filtering a concatenation is the concatenation of the filtered parts |
| Compact.CompactIdempotent | utils/compact.ts:4-6 | compacting a compacted array changes nothing |
| Compact.CompactAllTruthy | utils/compact.ts:4-6 | an array of truthy values is returned whole |
| Compact.CompactOrder | utils/compact.ts:4-6 | a kept element lands at the index given by the number of kept elements before it |
| Compact.CompactKeepsRelativeOrder | utils/compact.ts:4-6 | two kept elements keep their relative order |
| Wrappers.Traverse | api/slapdash/iconfinder.ts:115-138 | on success there is one result per element, each the element's own result; on failure the error is that of the first failing element, and every earlier element succeeded |
| Wrappers.TraverseSucceedsIff | api/slapdash/iconfinder.ts:115-138 | the traversal succeeds exactly when every element does |
| Text.TrimEmptyIff | api/slapdash/parse-user-agent.ts:21 | a string trims to "" exactly when it is all white space |
| Text.NatToString | api/slapdash/iconfinder.ts:134 | `toString` of an id is a non-empty run of digits with no leading zero |
| Text.ParseNatToString | api/slapdash/iconfinder.ts:134 | reading the rendered id back gives the id |
| Text.NatToStringInjective | api/slapdash/iconfinder.ts:134 | distinct ids render distinctly |
| Iconfinder.AllowHeaders | api/slapdash/iconfinder.ts:34-37 | the allowed headers are "count, premium, type, style" |
| Iconfinder.HandleWithoutCount | api/slapdash/iconfinder.ts:28-32 | without a `count` preference the preference form is the answer, whatever the query holds |
| Iconfinder.HandleWithCount | api/slapdash/iconfinder.ts:26-32 | with a `count`, a non-empty `id` gives the icon detail and an empty or absent one gives the search with the defaulted settings; absent keywords read as "" |
| Iconfinder.ConfigResponse | api/slapdash/iconfinder.ts:41-94 | the form succeeds exactly when the style list loads; it has the rows [Count, Include Premium] and [Type, Style]; the style choices are the loaded styles in order, by name and identifier |
| Iconfinder.DefaultSettings | api/slapdash/iconfinder.ts:105-107 | `premium` becomes "all" exactly for the header value "true" and "0" otherwise; absent `type` and `style` become "" |
| Iconfinder.RootResponse | api/slapdash/iconfinder.ts:108-141 | the search succeeds exactly when the search request succeeds and every icon's option does; there is one option per icon, in order, ranking is off, and there is no placeholder and no breadcrumb |
| Iconfinder.IconOption | api/slapdash/iconfinder.ts:116-136 | the title is the tags joined by spaces; the subtitle is the type and Premium or Free; the icon is the preview; the action pastes the SVG when there is one and opens the icon page otherwise; the move action adds `id` set to the decimal id |
| Iconfinder.DrillDownRoundTrip | api/slapdash/iconfinder.ts:131-135 | the `id` a search option emits reads back as the icon's id and leads to the detail lookup of that id |
| Iconfinder.IconResponse | api/slapdash/iconfinder.ts:144-187 | the detail succeeds exactly when the lookup, the SVG and the preview do; its breadcrumb carries the tags and preview; it offers Open in Iconfinder and Copy URL, plus Copy SVG and Paste SVG exactly when an SVG exists |
| Iconfinder.GetSvg | api/slapdash/iconfinder.ts:204-218 | only a vector icon with vector sizes is downloaded, from the first format of its last size; the result is the downloaded text itself when it starts with "<svg " or "<?xml ", nothing otherwise, and the download's error when it fails; empty size or format arrays throw |
| Iconfinder.GetIconPreview | api/slapdash/iconfinder.ts:189-202 | with an SVG, the icon is that SVG, marked monochrome exactly when it has fewer than two distinct fill colours; without one, it is the preview URL of the first format of the last raster size, and empty raster arrays throw |
| Iconfinder.MatchAt | api/slapdash/iconfinder.ts:194-195 | a match ends after its start and captures "#" followed by one or more word characters |
| Iconfinder.Colors | api/slapdash/iconfinder.ts:192-197 | every colour counted is "#" followed by word characters |
| Iconfinder.NoneIsNotAColor | api/slapdash/iconfinder.ts:194-195 | at a `fill="none"` attribute or a `fill:none` declaration neither colour pattern matches, and neither "none" nor a bare "#" is ever counted as a colour |
| Iconfinder.MatchAll | api/slapdash/iconfinder.ts:192-197 | every capture of a global `matchAll` scan is a colour: "#" followed by word characters |
| Iconfinder.MatchAllSound | api/slapdash/iconfinder.ts:194-195 | every capture of the global scan is the capture of a match at some position |
| Iconfinder.AttributeMatchesDoNotOverlap | api/slapdash/iconfinder.ts:194 | a `fill="#…"` match never contains the start of another one |
| Iconfinder.AttributeScanComplete | api/slapdash/iconfinder.ts:194 | the `fill="#…"` scan reports every match in the string |
| Iconfinder.StyleScanCanHideAMatch | api/slapdash/iconfinder.ts:195 | the `fill:#…` scan can miss a match: in "fill:#abcfill:#def" it reports only "#abcfill", although "#def" matches at index 9 |
| GithubStars.AllowHeaders | api/slapdash/github-stars.ts:26-30 | the allowed header is "access-token" |
| GithubStars.Collect | api/slapdash/github-stars.ts:219-237 | the collected object has exactly the keys of the parameter or header table |
| GithubStars.CollectReads | api/slapdash/github-stars.ts:219-237 | a key that no later entry repeats holds the value of its parameter or header |
| GithubStars.AccessToken | api/slapdash/github-stars.ts:229-237 | `getConfig(req).ACCESS_TOKEN` is the `access-token` header |
| GithubStars.RepoId | api/slapdash/github-stars.ts:219-227 | `getParams(req).REPO` is the `repo` query parameter |
| GithubStars.HandleWithoutToken | api/slapdash/github-stars.ts:17-21 | without a token the token form is the answer, and its default value echoes the header |
| GithubStars.HandleWithToken | api/slapdash/github-stars.ts:12-24 | with a token, `repo` selects the repository detail and its absence the starred list; a failure of either goes through the error mapping |
| GithubStars.HandleAnswersFormOrView | api/slapdash/github-stars.ts:16-24 | every request is answered with a form or a view, never an unhandled error |
| GithubStars.ErrorResponse | api/slapdash/github-stars.ts:185-203 | an API error with status 401 gives the token form with the expiry message; every other error gives "Oops! Sorry, something went wrong!" |
| GithubStars.ConfigResponse | api/slapdash/github-stars.ts:34-62 | the form has a single access-token field, carries the given error, and defaults to the current header |
| GithubStars.GraphQLRequest | api/slapdash/github-stars.ts:205-217 | an API error is raised exactly when the body decodes and the status is not 200; success means status 200 with a decoded body, and yields `data` when it is present |
| GithubStars.RepoTitle | api/slapdash/github-stars.ts:102-104 | the title starts with the name; it is the name alone exactly when there is no description, and otherwise continues with " - " and the description |
| GithubStars.RootResponse | api/slapdash/github-stars.ts:64-124 | the list succeeds exactly when the request succeeds with data; it carries the search placeholder; one option per starred edge, with the title, the subtitle [starred date, ☆ stars, ⑂ forks] through the formatters, the repository icon, an Open on Github action and a move action that adds `repo` set to the repository id |
| GithubStars.RepoResponse | api/slapdash/github-stars.ts:126-183 | the detail succeeds exactly when the request succeeds with a non-null node; it is the list of the detail options with a `repo` breadcrumb named after the repository, and those options are Open on Github, Copy Github URL and, with a homepage, Open Homepage and Copy Homepage URL in source order |
| GithubStars.RepoDetailOptions | api/slapdash/github-stars.ts:158-180 | without a homepage the options are Open on Github and Copy Github URL; with one they are Open on Github, Open Homepage, Copy Github URL and Copy Homepage URL, in that order |
| GithubStars.RepoDetailToken | api/slapdash/github-stars.ts:149-155 | the detail carries one breadcrumb on `repo`, named after the repository |
| GithubStars.UnknownRepoGivesOops | api/slapdash/github-stars.ts:130-153 | an id that resolves to a null node ends in the generic message view |
| GithubStars.UnauthorizedGivesForm | api/slapdash/github-stars.ts:190-196 | a 401 in either branch brings back the token form with the expiry message |
| SearchNpm.BlankQueryIsEmptyList | api/slapdash/search-npm.ts:12-37 | a missing or all-white-space query gives the empty list without consulting the registry |
| SearchNpm.QueryIsTrimmed | api/slapdash/search-npm.ts:12-16 | a non-blank query is searched for trimmed, and the trimmed query is not empty |
| SearchNpm.RootResponse | api/slapdash/search-npm.ts:21-77 | the list succeeds exactly when the search and the bulk lookup succeed and every hit has package info; one option per hit, in order, with ranking off; the answer carries the search placeholder and no breadcrumb |
| SearchNpm.LookupOption | api/slapdash/search-npm.ts:53-66 | a hit has an option exactly when the bulk lookup returned its package |
| SearchNpm.PackageOption | api/slapdash/search-npm.ts:43-73 | the title is the package title; the subtitle is the date when it renders non-empty, the stars when GitHub data exists, then the three scores; the icon is the package icon; the option opens the npm page and its move action adds `package` set to the package name |
| SearchNpm.Title | api/slapdash/search-npm.ts:44-46 | the title starts with the name; it is the name alone exactly when there is no description, and otherwise continues with " – " and the description |
| SearchNpm.SubtitleItems | api/slapdash/search-npm.ts:47-66 | the subtitle is the date when it renders non-empty, then the stars when GitHub data exists, then Quality, Popularity and Maintenance |
| SearchNpm.Round | api/slapdash/search-npm.ts:140 | the result is the nearest integer, with halves rounding up |
| SearchNpm.FormatScoreIsPercentage | api/slapdash/search-npm.ts:139-141 | a score in [0, 1] renders as a whole number from 0 to 100 followed by "%", and that number is the nearest percentage |
| SearchNpm.RoundMonotone | api/slapdash/search-npm.ts:140 | a higher score never shows a lower percentage |
| SearchNpm.FormatScoreExamples | api/slapdash/search-npm.ts:139-141 | 0 shows "0%", 1 shows "100%", 0.865 shows "87%" and 0.285 shows "29%" |
| SearchNpm.GetIcon | api/slapdash/search-npm.ts:154-161 | a parsable URL gets the GitHub icon exactly when its host is github.com, and the host's favicon otherwise; an unparsable URL throws |
| SearchNpm.IconLink | api/slapdash/search-npm.ts:110-121 | an optional link gives an option exactly when it is truthy, and fails only when its URL is unparsable; the option has the given title, shows and opens the link, and has the icon `getIcon` gives for it |
| SearchNpm.PackageResponse | api/slapdash/search-npm.ts:79-137 | the detail succeeds exactly when the lookup and the homepage and bugs icons succeed; it carries one breadcrumb on `package`; its options are the detail options built from the metadata and those two links, 3 to 6 of them, opening npm first and ending with the npm and yarn install commands |
| SearchNpm.PackageOptionsShape | api/slapdash/search-npm.ts:97-134 | the options are Open on NPM, then the repository, homepage and bugs links that exist in that order, then the two install commands |
| SearchNpm.DrillDownOpensPackage | api/slapdash/search-npm.ts:13-15 | following a hit's move action opens that package's detail |
| VercelProjects.HandleWithoutToken | api/slapdash/vercel-projects.ts:22-26 | without a token the token form is the answer, whatever the upstream holds |
| VercelProjects.HandleReportsFailures | api/slapdash/vercel-projects.ts:21-34 | a failing branch becomes the toast "Error: " followed by the error, a succeeding one is answered as is, and only failures produce an action |
| VercelProjects.ConfigResponse | api/slapdash/vercel-projects.ts:143-159 | the form has a single token field with no default and no error |
| VercelProjects.ProjectUrl | api/slapdash/vercel-projects.ts:161-163 | the project URL is https://vercel.com/ followed by account id, "/" and project name |
| VercelProjects.FindFramework | api/slapdash/vercel-projects.ts:165-167 | no framework is found exactly when no entry has the slug; otherwise the result is the first entry with that slug |
| VercelProjects.FindFrameworkUnique | api/slapdash/vercel-projects.ts:165-167 | in a catalogue with unique slugs, looking up an entry's slug finds that entry |
| VercelProjects.ProjectOption | api/slapdash/vercel-projects.ts:50-74 | an option exists exactly when the framework is found; it shows the name, the framework name and update time, and the logo, opens the project URL and adds `project` set to the project id |
| VercelProjects.ProjectsResponse | api/slapdash/vercel-projects.ts:41-78 | the list succeeds exactly when the request succeeds and every project's framework is found; one option per project, in order, with no ranking, placeholder or breadcrumb |
| VercelProjects.ProjectResponse | api/slapdash/vercel-projects.ts:80-141 | the detail succeeds exactly when both requests succeed and the framework is found; its breadcrumb carries the name and logo |
| VercelProjects.DetailOptionsLayout | api/slapdash/vercel-projects.ts:109-138 | the detail has 1 + 2n options for n domains: Open in Vercel, then an open option per domain, then a copy option per domain, the two for a domain sharing its https URL |
| VercelProjects.DrillDownOpensProject | api/slapdash/vercel-projects.ts:19-25 | following a project's move action opens that project's detail, or its error toast |
| HoneycombBoards.Handle | api/slapdash/honeycomb-boards.ts:7-68 | without an API key the form is the answer, and with one it never is |
| HoneycombBoards.RejectedReplyGivesToast | api/slapdash/honeycomb-boards.ts:16-22 | a reply other than 200 gives the fixed toast, whatever its body |
| HoneycombBoards.AcceptedReplyListsBoards | api/slapdash/honeycomb-boards.ts:23-42 | a 200 reply with a decodable body lists every board, in order, with no ranking, placeholder or breadcrumb |
| HoneycombBoards.ThrownErrorGivesToast | api/slapdash/honeycomb-boards.ts:44-50 | a rejected fetch or an undecodable body becomes the toast "Error: " followed by the error |
| HoneycombBoards.ConfigResponse | api/slapdash/honeycomb-boards.ts:52-68 | the form has a single API-key field with no default and no error |
| HoneycombBoards.BoardOption | api/slapdash/honeycomb-boards.ts:28-39 | a board's option shows its name, the board subtitle and the board icon, and opens the board URL |
| HoneycombBoards.BoardUrl | api/slapdash/honeycomb-boards.ts:38 | the board URL is the fixed prefix followed by the board id |
| HoneycombBoards.BoardSubtitle | api/slapdash/honeycomb-boards.ts:30-34 | a present description is the subtitle, even an empty one; otherwise the subtitle is a list |
| HoneycombBoards.CaptionSubtitle | api/slapdash/honeycomb-boards.ts:31-34 | without a description the subtitle holds exactly the non-empty query captions, and drops none exactly when every caption is non-empty |
| HoneycombBoards.CaptionOrder | api/slapdash/honeycomb-boards.ts:31-34 | without a description, two non-empty captions appear in the subtitle in the order of their queries |
| HnFrontPage.HandleWithoutPage | api/slapdash/hn-front-page.ts:11-13 | without a `page` the handler lists the front page: it succeeds exactly when the feed parses and every story has a subtitle, with one option per story in feed order and no ranking, placeholder or breadcrumb |
| HnFrontPage.HandleUnknownPage | api/slapdash/hn-front-page.ts:55-83 | a `page` that is the guid of no story in a parsed feed gives "Oops, something went wrong!" |
| HnFrontPage.CaptureAt | api/slapdash/hn-front-page.ts:43-44 | the group of a match is a non-empty run of digits |
| HnFrontPage.FirstMatch | api/slapdash/hn-front-page.ts:43-44 | what `match` captures is a non-empty run of digits |
| HnFrontPage.FirstMatchNoneIff | api/slapdash/hn-front-page.ts:43-44 | `match` returns null exactly when the pattern occurs at no position |
| HnFrontPage.FirstMatchSomeIsLeftmost | api/slapdash/hn-front-page.ts:43-44 | a group `match` returns is that of an occurrence with no occurrence before it |
| HnFrontPage.FirstMatchIsLeftmost | api/slapdash/hn-front-page.ts:43-44 | the scan finds nothing exactly when the pattern occurs nowhere, and otherwise returns the group of the leftmost occurrence |
| HnFrontPage.Subtitle | api/slapdash/hn-front-page.ts:42-53 | the subtitle succeeds exactly when both counts are found; it is the author, the points with " Points" and the comments with " Comments"; otherwise reading `[1]` of null throws |
| HnFrontPage.SubtitleNeedsBothCounts | api/slapdash/hn-front-page.ts:43-44 | the subtitle can be built exactly when the snippet contains both a points pattern and a comments pattern |
| HnFrontPage.GetSubtitle | api/slapdash/hn-front-page.ts:42-53 | the step-by-step pushes give exactly the subtitle |
| HnFrontPage.StoryOption | api/slapdash/hn-front-page.ts:24-37 | a story's option exists exactly when its subtitle does; it shows the title and the page icon, opens the link and adds `page` set to the guid |
| HnFrontPage.RootResponse | api/slapdash/hn-front-page.ts:19-40 | the list succeeds exactly when the feed parses and every story has a subtitle; one option per story, in order, with no ranking, placeholder or breadcrumb |
| HnFrontPage.FindItem | api/slapdash/hn-front-page.ts:57 | no story is found exactly when no guid equals the id; otherwise the result is the first story with that guid |
| HnFrontPage.PageResponse | api/slapdash/hn-front-page.ts:55-83 | the detail succeeds exactly when the feed parses; an unknown id gives "Oops, something went wrong!", a known one the story view, whose second option opens the guid |
| HnFrontPage.DrillDownRoundTrip | api/slapdash/hn-front-page.ts:32-36 | in a feed with distinct guids, following a story's move action opens that story's detail |
| ParseUserAgent.Handle | api/slapdash/parse-user-agent.ts:5-31 | the answer is always a text view with the fixed placeholder: the prompt without keywords; with keywords, the report when the parser recognised something and the apology otherwise |
| ParseUserAgent.ReportBlankIff | api/slapdash/parse-user-agent.ts:10-23 | the report trims to nothing, and is empty, exactly when the parser named no OS, browser, device vendor or CPU architecture |
| ParseUserAgent.ReportShape | api/slapdash/parse-user-agent.ts:10-20 | a non-empty report ends with a blank line and starts with the OS section when there is one |

## Left out

- Network and process I/O: `fetch`, `res.setHeader` and `res.json` are not modelled. The API keys read from the environment, the request headers sent upstream and the request URLs' query encoding are left out as well. Each upstream reply is an `Upstream` parameter keyed by what identifies the request.
- Response headers: only the `Access-Control-Allow-Headers` values are modelled. The `Access-Control-Allow-Origin: *` header that every handler sets and Hacker News' `Cache-Control` policy are left out, as they do not depend on the request. The Hacker News feed URL is left out too, because the parsed feed is an `Upstream` value.
- `Promise.all` timing: when several concurrent requests fail, the error reported is the first in list order, not the first in time. For the Vercel detail, the project request comes before the domains request.
- Iconfinder downloads the SVG twice per icon, once in `getSVG` and once inside `getIconPreview`. The model's download function returns the same text both times.
- `encodeURIComponent`: the npm search and package lookups are keyed by the raw (trimmed) query and name.
- Library code is modelled as parameters: `formatNumber`, `fecha`'s `format`, `toLocaleDateString` and `toLocaleTimeString`, ua-parser-js, rss-parser, the `@vercel/frameworks` catalogue, and the host name that `new URL` extracts.
- Upstream JSON is assumed to have the declared field types. The only malformed replies modelled are these:
  - a missing bulk-lookup entry;
  - a missing `data` or a null node in GraphQL;
  - empty size or format arrays;
  - an unknown framework slug;
  - a snippet without counts;
  - a body that does not decode.
- A GraphQL id that names a node which is not a repository returns an empty object, not null. That case is not modelled.
- SearchNpm.FormatScoreExamples: `Math.round` is modelled over exact reals, not IEEE doubles. The two agree on 0, 1 and 0.865, since 0.865 * 100 is exactly 86.5 in doubles. They differ on 0.285: in doubles 0.285 * 100 is 28.499999999999996 and renders "28%", while the real-number model gives "29%". 0.145, 0.565 and 0.575 differ the same way.
- Iconfinder.IconOption: `icon_id` is modelled as a natural number rendered in decimal. The JavaScript rendering of fractional or huge numbers is not modelled.
- Requests: query parameters and headers are modelled as a map from name to one string. An array-valued parameter or header, which `?.toString()` would join with commas, cannot be represented. No handler's logic depends on that case.
- TypeError messages are placeholders that name the property read. The destructuring failures in GitHub stars (`viewer`, `node`) do not reproduce V8's wording. Only the messages that reach a toast (Vercel) are observable, and the GitHub handler replaces every thrown message with its generic view.
- `console.log` in the GitHub error handler is not modelled.
- api/slapdash/unsplash-search.ts and utils/formatNumber.ts are not part of this model.
