/** The response envelope the launcher understands (the
    `CommandResponse` type every handler returns), the request each handler
    reads, and the three-way request classification they share. The
    envelope's `label` fields are named `caption` here, because `label` is a
    Dafny keyword. */
module Envelope {
  import opened Wrappers

  /** Icon assets exported by the repository's shared icons module, which
      is not part of this model. */
  datatype Asset = Github | GithubRepo | Package | Npm

  /** An icon: a plain string (an image URL or inline SVG markup), an SVG
      the launcher may recolour (`{ monochrome: svg }`), or a shared asset. */
  datatype Icon = NoIcon | Plain(source: string) | Monochrome(svg: string) | Shared(asset: Asset)

  datatype Action =
    | OpenUrl(url: string)
    | Copy(value: string)
    | Paste(value: string)
    | ShowToast(message: string)
      /** An action wrapped with a label, tooltip and icon. */
    | Labelled(caption: string, tooltip: string, icon: Icon, inner: Action)

  /** The secondary action that re-invokes the handler with one more
      query parameter (the drill-down identifier). */
  datatype MoveAction = AddParam(name: string, value: string)

  /** A subtitle is absent, a single string, or an ordered list of strings. */
  datatype Subtitle = NoSubtitle | Line(text: string) | Lines(items: seq<string>)

  datatype ListOption = ListOption(
    title: string,
    subtitle: Subtitle,
    icon: Icon,
    action: Action,
    moveAction: Option<MoveAction>,
    group: Option<string>)

  /** An option with only a title and a primary action. */
  function Entry(title: string, action: Action): ListOption
  {
    ListOption(title, NoSubtitle, NoIcon, action, None, None)
  }

  /** A breadcrumb naming the current drill-down target. */
  datatype Token = Token(paramName: string, caption: string, icon: Icon)

  /** `{ type: "list", options, ranking? }` or a plain text view. */
  datatype View = ListView(options: seq<ListOption>, ranking: Option<bool>) | TextView(text: string)

  datatype FieldKind = TextInput | ToggleInput | SelectInput
  datatype FieldDefault = NoDefault | TextValue(text: string) | Flag(on: bool)
  datatype Choice = Choice(caption: string, value: string)

  datatype Field = Field(
    kind: FieldKind,
    id: string,
    caption: string,
    required: bool,
    placeholder: Option<string>,
    helpText: Option<string>,
    defaultValue: FieldDefault,
    choices: seq<Choice>)

  /** A form's `fields` array holds fields, or arrays of fields laid out on one row. */
  datatype FieldRow = Single(field: Field) | Row(fields: seq<Field>)

  /** Exactly one of `config`, `view` and `action` is populated. */
  datatype Response =
    | ConfigForm(error: Option<string>, rows: seq<FieldRow>)
    | Show(view: View, inputPlaceholder: Option<string>, tokens: Option<seq<Token>>)
    | Act(action: Action)

  /** A request: its query parameters and its header fields. */
  datatype Request = Request(query: map<string, string>, headers: map<string, string>)

  function Lookup(m: map<string, string>, name: string): Option<string>
  {
    if name in m then Some(m[name]) else None
  }

  /** `req.query[name]?.toString()` */
  function Param(req: Request, name: string): Option<string>
  {
    Lookup(req.query, name)
  }

  /** `req.headers[name]?.toString()` */
  function Header(req: Request, name: string): Option<string>
  {
    Lookup(req.headers, name)
  }

  /** Which branch a credentialed handler takes. */
  datatype Mode = NeedsConfig | List | Detail

  /** V8's message for reading a property of `undefined`. */
  function ReadOfUndefined(property: string): string
  {
    "TypeError: Cannot read properties of undefined (reading '" + property + "')"
  }

  /** V8's message for reading a property of `null`. */
  function ReadOfNull(property: string): string
  {
    "TypeError: Cannot read properties of null (reading '" + property + "')"
  }
}
