/** The user-agent handler (api/slapdash/parse-user-agent.ts): reports the
    operating system, browser, device and CPU a User-Agent string names. */
module ParseUserAgent {
  import opened Wrappers
  import opened Text
  import opened Envelope

  const KeywordsParam := "keywords"
  const InputPlaceholder := "Paste a User-Agent string"
  const Prompt := "Paste a User-Agent string in the input field above."
  const NotAUserAgent := "Sorry, this doesn't look like a valid User-Agent string."

  /** The fields of a parse result the report reads; each may be missing. */
  datatype Os = Os(name: Option<string>, version: Option<string>)
  datatype Browser = Browser(name: Option<string>, version: Option<string>)
  datatype Device = Device(vendor: Option<string>, model: Option<string>, deviceType: Option<string>)
  datatype Cpu = Cpu(architecture: Option<string>)
  datatype UserAgent = UserAgent(os: Os, browser: Browser, device: Device, cpu: Cpu)

  /** The user-agent parser, which is library code. */
  datatype Upstream = Upstream(parse: string -> UserAgent)

  const Gap := "\n\n"

  function OsSection(os: Os): string
  {
    if Truthy(os.name) then "OS: " + os.name.value + " " + Interpolate(os.version) + Gap else ""
  }

  function BrowserSection(browser: Browser): string
  {
    if Truthy(browser.name) then "Browser: " + browser.name.value + " " + Interpolate(browser.version) + Gap else ""
  }

  function DeviceSection(device: Device): string
  {
    if Truthy(device.vendor)
    then "Device: " + device.vendor.value + " " + Interpolate(device.model) + " " + Interpolate(device.deviceType) + Gap
    else ""
  }

  function CpuSection(cpu: Cpu): string
  {
    if Truthy(cpu.architecture) then "CPU Architecture: " + cpu.architecture.value + Gap else ""
  }

  /** The report: one section per part the parser named, in the order OS,
      browser, device, CPU. */
  function Report(ua: UserAgent): string
  {
    OsSection(ua.os) + BrowserSection(ua.browser) + DeviceSection(ua.device) + CpuSection(ua.cpu)
  }

  /** Whether the parser named any of the parts the report shows. */
  predicate Recognised(ua: UserAgent)
  {
    Truthy(ua.os.name) || Truthy(ua.browser.name) || Truthy(ua.device.vendor) || Truthy(ua.cpu.architecture)
  }

  /** The view text: a prompt without keywords; otherwise the report, or
      the apology when the report trims to nothing. */
  function ViewText(keywords: Option<string>, up: Upstream): string
  {
    if !Truthy(keywords) then Prompt
    else
      var report := Report(up.parse(keywords.value));
      if |Trim(report)| == 0 then NotAUserAgent else report
  }

  /** The handler always answers with a text view: the prompt without
      keywords; with them, the report when the parser recognised anything
      and the apology otherwise. */
  function Handle(req: Request, up: Upstream): (r: Response)
    ensures r.Show? && r.view.TextView? && r.inputPlaceholder == Some(InputPlaceholder) && r.tokens.None?
    ensures var keywords := Param(req, KeywordsParam);
            r.view.text ==
              if !Truthy(keywords) then Prompt
              else if Recognised(up.parse(keywords.value)) then Report(up.parse(keywords.value))
              else NotAUserAgent
  {
    var keywords := Param(req, KeywordsParam);
    ReportBlankIff(up.parse(GetOr(keywords, "")));
    Show(TextView(ViewText(keywords, up)), Some(InputPlaceholder), None)
  }

  lemma AllSpaceSplit(a: string, b: string)
    requires AllSpace(a + b)
    ensures AllSpace(a) && AllSpace(b)
  {
    assert forall i :: 0 <= i < |a| ==> (a + b)[i] == a[i];
    assert forall i :: 0 <= i < |b| ==> (a + b)[|a| + i] == b[i];
  }

  /** The report trims to nothing exactly when the parser named none of
      the parts it shows: every section starts with a letter. */
  lemma ReportBlankIff(ua: UserAgent)
    ensures Trim(Report(ua)) == "" <==> !Recognised(ua)
    ensures Report(ua) == "" <==> !Recognised(ua)
  {
    TrimEmptyIff(Report(ua));
    var os, browser, device, cpu := OsSection(ua.os), BrowserSection(ua.browser), DeviceSection(ua.device), CpuSection(ua.cpu);
    assert os == "" || os[0] == 'O';
    assert browser == "" || browser[0] == 'B';
    assert device == "" || device[0] == 'D';
    assert cpu == "" || cpu[0] == 'C';
    if AllSpace(Report(ua)) {
      AllSpaceSplit(os + browser + device, cpu);
      AllSpaceSplit(os + browser, device);
      AllSpaceSplit(os, browser);
    }
  }

  /** A recognised user agent's report starts with its first named part
      and ends with a blank line. */
  lemma ReportShape(ua: UserAgent)
    requires Recognised(ua)
    ensures |Report(ua)| >= 2 && Report(ua)[|Report(ua)| - 2..] == Gap
    ensures Truthy(ua.os.name) ==> StartsWith(Report(ua), "OS: " + ua.os.name.value + " ")
  {
    var os, browser, device, cpu := OsSection(ua.os), BrowserSection(ua.browser), DeviceSection(ua.device), CpuSection(ua.cpu);
    var last := if cpu != "" then cpu else if device != "" then device else if browser != "" then browser else os;
    assert last != "" && last[|last| - 2..] == Gap;
  }
}
