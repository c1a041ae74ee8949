/** Asset builders (`builders/base.py`, `builders/raw.py`,
    `builders/tailwind.py`): the raw concatenating builder and the Tailwind
    builder's branches, fallback, input stylesheet, command line and CLI
    resolution. Running the Tailwind CLI is an abstract call that may raise. */
module Builders {
  import opened Text
  import opened Conf

  /** The exceptions a build step can raise. `FileNotFoundError` is a
      subclass of `OSError` and the CLI's timeout is a `SubprocessError`. */
  datatype Exception =
    | SubprocessError
    | FileNotFoundError
    | OSError
    | OtherError(name: string)

  datatype Result<T> = Ok(value: T) | Err(error: Exception)

  /** A builder as the orchestrator sees it: the class attribute
      `requires_html_content` and `build(html_content, extracted_content,
      asset_type)`, which returns the built text or raises. */
  datatype AssetBuilder = AssetBuilder(
    requiresHtmlContent: bool,
    build: (Option<string>, seq<string>, string) -> Result<string>)

  const Separator := "\n\n"

  /** Items in order with the separator between each two. */
  function JoinedContent(items: seq<string>): string {
    if items == [] then "" else Join(items, Separator)
  }

  /** `RawAssetBuilder.build`: the extracted items joined by a blank line;
      the page markup and the asset type are not consulted. */
  function RawBuild(html: Option<string>, extracted: seq<string>, assetType: string): (r: string)
    ensures extracted == [] ==> r == ""
    ensures |extracted| == 1 ==> r == extracted[0]
    ensures extracted != [] ==> |r| == SumLengths(extracted) + 2 * (|extracted| - 1)
    ensures extracted != [] && (forall i :: 0 <= i < |extracted| ==> extracted[i] != "") ==> r != ""
  {
    if extracted == [] then ""
    else
      JoinLength(extracted, Separator);
      JoinedContent(extracted)
  }

  /** The raw build depends on nothing but the extracted items. */
  lemma RawIgnoresPageAndType(h1: Option<string>, h2: Option<string>, extracted: seq<string>, t1: string, t2: string)
    ensures RawBuild(h1, extracted, t1) == RawBuild(h2, extracted, t2)
  {
  }

  /** The join spelled out left to right: the first item, then separator and
      item for every further item. */
  function Interleaved(items: seq<string>): string
    requires items != []
  {
    items[0] + Concat(seq(|items| - 1, i requires 0 <= i < |items| - 1 => Separator + items[i + 1]))
  }

  /** The recursive join equals the flat reading: items in order, separated
      by exactly one blank line. */
  lemma {:induction false} JoinIsInterleaved(items: seq<string>)
    requires items != []
    ensures JoinedContent(items) == Interleaved(items)
    decreases |items|
  {
    var tail := seq(|items| - 1, i requires 0 <= i < |items| - 1 => Separator + items[i + 1]);
    if |items| == 1 {
      assert tail == [];
    } else {
      var rest := items[1..];
      JoinIsInterleaved(rest);
      var restTail := seq(|rest| - 1, i requires 0 <= i < |rest| - 1 => Separator + rest[i + 1]);
      assert tail == [Separator + items[1]] + restTail;
      assert Concat(tail) == Separator + items[1] + Concat(restTail);
      StringAssoc(items[0], Separator, items[1]);
      SeqAssoc(items[0] + Separator, items[1], Concat(restTail));
      SeqAssoc(items[0], Separator + items[1], Concat(restTail));
      assert Join(items, Separator) == items[0] + Separator + Join(rest, Separator);
    }
  }

  /** `requires_html_content` on the base class, which the raw builder
      inherits. */
  const RawBuilder := AssetBuilder(false, (h, e, t) => Ok(RawBuild(h, e, t)))

  /** What `_run_tailwind(html, custom_css)` does, left abstract: the CLI
      output, or the exception it raised. */
  type TailwindRun = (string, string) -> Result<string>

  /** The exceptions `build` catches around the CLI run. */
  predicate Caught(e: Exception) {
    e.SubprocessError? || e.FileNotFoundError? || e.OSError?
  }

  /** `TailwindCSSBuilder.build`. */
  function TailwindBuild(html: Option<string>, extracted: seq<string>, assetType: string, run: TailwindRun): Result<string> {
    if assetType != "css" then
      Ok(JoinedContent(extracted))
    else
      var customCss := JoinedContent(extracted);
      var page := if html.Some? then html.value else "";
      if page == "" && customCss == "" then Ok("")
      else
        match run(page, customCss)
        case Ok(css) => Ok(css)
        case Err(e) =>
          if Caught(e) then Ok(if customCss != "" then Trim(customCss) else "")
          else Err(e)
  }

  /** Non-CSS assets are joined like the raw builder does and never reach
      the CLI: the result is the same whatever the CLI would do. */
  lemma TailwindJoinsNonCss(html: Option<string>, extracted: seq<string>, assetType: string, run: TailwindRun, other: TailwindRun)
    requires assetType != "css"
    ensures TailwindBuild(html, extracted, assetType, run) == Ok(RawBuild(html, extracted, assetType))
    ensures TailwindBuild(html, extracted, assetType, run) == TailwindBuild(html, extracted, assetType, other)
  {
  }

  /** CSS with no page markup and nothing extracted is empty, again without
      running the CLI. */
  lemma TailwindNothingToScan(html: Option<string>, run: TailwindRun, other: TailwindRun)
    requires html.None? || html == Some("")
    ensures TailwindBuild(html, [], "css", run) == Ok("")
    ensures TailwindBuild(html, [], "css", other) == Ok("")
  {
  }

  /** With page markup or custom styles to work on, the CLI's output is the
      result; a caught failure falls back to the custom stylesheet (the
      extracted items joined as the raw builder joins them) with surrounding
      whitespace removed, which is `""` when there is none; any other
      exception propagates. */
  lemma TailwindFallback(html: Option<string>, extracted: seq<string>, run: TailwindRun)
    requires (html.Some? && html.value != "") || RawBuild(html, extracted, "css") != ""
    ensures var page := if html.Some? then html.value else "";
      var customCss := RawBuild(html, extracted, "css");
      match run(page, customCss)
      case Ok(css) => TailwindBuild(html, extracted, "css", run) == Ok(css)
      case Err(e) =>
        TailwindBuild(html, extracted, "css", run) ==
          if Caught(e) then Ok(Trim(customCss)) else Err(e)
  {
    assert Trim("") == "";
  }

  /** `TailwindCSSBuilder`, for a given behaviour of the CLI run. */
  function TailwindBuilder(run: TailwindRun): (b: AssetBuilder)
    ensures b.requiresHtmlContent
  {
    AssetBuilder(true, (h, e, t) => TailwindBuild(h, e, t, run))
  }

  const DefaultTailwindInput := "@import \"tailwindcss\";\n"

  /** `_build_input_css(custom_css)`: the base stylesheet, read from
      `TAILWIND_BASE_CSS` when that is set (`readFile` stands for
      `Path.read_text`, which may raise), then the custom styles on lines of
      their own when there are any. */
  function BuildInputCss(settings: Settings, readFile: string -> Result<string>, customCss: string): (r: Result<string>)
    requires IsOptionalString(GetSetting(settings, "TAILWIND_BASE_CSS"))
  {
    var basePath := GetSetting(settings, "TAILWIND_BASE_CSS");
    var base := if Truthy(basePath) then readFile(basePath.s) else Ok(DefaultTailwindInput);
    match base
    case Err(e) => Err(e)
    case Ok(inputCss) => Ok(if customCss != "" then inputCss + "\n" + customCss + "\n" else inputCss)
  }

  /** The input stylesheet starts with its base, and the custom styles, when
      present, follow on lines of their own; with no project setting the
      base is `@import "tailwindcss";`. */
  lemma InputCssShape(settings: Settings, readFile: string -> Result<string>, customCss: string)
    requires IsOptionalString(GetSetting(settings, "TAILWIND_BASE_CSS"))
    ensures var basePath := GetSetting(settings, "TAILWIND_BASE_CSS");
      var base := if Truthy(basePath) then readFile(basePath.s) else Ok(DefaultTailwindInput);
      var r := BuildInputCss(settings, readFile, customCss);
      (base.Err? <==> r.Err?) &&
      (base.Ok? ==> StartsWith(r.value, base.value)) &&
      (base.Ok? && customCss == "" ==> r.value == base.value) &&
      (base.Ok? && customCss != "" ==> r.value[|base.value|..] == "\n" + customCss + "\n")
    ensures settings.None? ==>
      BuildInputCss(settings, readFile, customCss).Ok? &&
      StartsWith(BuildInputCss(settings, readFile, customCss).value, DefaultTailwindInput)
  {
    var basePath := GetSetting(settings, "TAILWIND_BASE_CSS");
    var base := if Truthy(basePath) then readFile(basePath.s) else Ok(DefaultTailwindInput);
    if base.Ok? && customCss != "" {
      var r := base.value + "\n" + customCss + "\n";
      SeqAssoc(base.value, "\n", customCss);
      SeqAssoc(base.value, "\n" + customCss, "\n");
      assert r == base.value + ("\n" + customCss + "\n");
    }
    if settings.None? {
      assert basePath == NoneValue;
    }
  }

  /** `_build_command(cli_path, input_file, output_file, content_file)`. */
  function BuildCommand(settings: Settings, cliPath: string, inputFile: string, outputFile: string, contentFile: string): (cmd: seq<string>)
    requires IsOptionalString(GetSetting(settings, "TAILWIND_CONFIG"))
    ensures |cmd| == 8 || |cmd| == 10
    ensures cmd[..8] == [cliPath, "--input", inputFile, "--output", outputFile, "--content", contentFile, "--minify"]
    ensures |cmd| == 10 <==> Truthy(GetSetting(settings, "TAILWIND_CONFIG"))
    ensures |cmd| == 10 ==> cmd[8..] == ["--config", GetSetting(settings, "TAILWIND_CONFIG").s]
  {
    var cmd := [cliPath, "--input", inputFile, "--output", outputFile, "--content", contentFile, "--minify"];
    var configPath := GetSetting(settings, "TAILWIND_CONFIG");
    if Truthy(configPath) then cmd + ["--config", configPath.s] else cmd
  }

  /** `_get_cli_path()`: the configured `TAILWIND_CLI_PATH`, else the path the
      optional django-tailwind-cli package reports (`None` when its import or
      configuration fails), else `tailwindcss` looked up on the PATH. */
  function GetCliPath(settings: Settings, packagePath: Option<string>): (r: string)
    requires IsOptionalString(GetSetting(settings, "TAILWIND_CLI_PATH"))
    ensures var user := UserSettings(settings);
      if "TAILWIND_CLI_PATH" in user && Truthy(user["TAILWIND_CLI_PATH"]) then r == user["TAILWIND_CLI_PATH"].s
      else if packagePath.Some? then r == packagePath.value
      else r == "tailwindcss"
  {
    var configured := GetSetting(settings, "TAILWIND_CLI_PATH");
    if Truthy(configured) then configured.s
    else if packagePath.Some? then packagePath.value
    else "tailwindcss"
  }

}
