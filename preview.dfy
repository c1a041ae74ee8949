/** Preview helpers (`preview.py`): whether the configured CSS builder is the
    Tailwind one, and the CDN script tag injected into previews. */
module Preview {
  import opened Text
  import opened Conf

  const TailwindWord := "tailwind"

  /** The builder-path test, case-insensitive: the lower-cased path contains
      `tailwind` somewhere. */
  function IsTailwindPath(path: string): (r: bool)
    ensures r <==> exists j :: OccursAt(Lower(path), TailwindWord, j)
  {
    var found := Find(Lower(path), TailwindWord);
    assert found.Some? ==> OccursAt(Lower(path), TailwindWord, found.value);
    found.Some?
  }

  /** `is_tailwind_builder()`; the `CSS_BUILDER` setting is a dotted path,
      tested by `IsTailwindPath`. */
  function IsTailwindBuilder(settings: Settings): bool
    requires GetSetting(settings, "CSS_BUILDER").Str?
  {
    IsTailwindPath(GetSetting(settings, "CSS_BUILDER").s)
  }

  /** Any spelling of the word, in any mix of upper and lower case, makes the
      path a Tailwind builder path. */
  lemma CaseInsensitive(path: string, j: nat)
    requires j + |TailwindWord| <= |path|
    requires Lower(path[j..j + |TailwindWord|]) == TailwindWord
    ensures IsTailwindPath(path)
  {
    var low := Lower(path);
    var piece := path[j..j + |TailwindWord|];
    forall k | 0 <= k < |TailwindWord|
      ensures low[j..j + |TailwindWord|][k] == TailwindWord[k]
    {
      assert low[j + k] == LowerChar(path[j + k]) == LowerChar(piece[k]) == Lower(piece)[k];
    }
    assert OccursAt(low, TailwindWord, j);
  }

  /** The upper-case spelling used by a project's own builder class. */
  lemma UpperCaseNameIsTailwind(before: string, after: string)
    ensures IsTailwindPath(before + "TAILWIND" + after)
  {
    var path := before + "TAILWIND" + after;
    assert path[|before|..|before| + 8] == "TAILWIND";
    CaseInsensitive(path, |before|);
  }

  /** The text of a setting as an f-string renders it. */
  function Show(v: SettingValue): string
    requires !v.StrList?
  {
    match v
    case Str(s) => s
    case Int(i) => IntToString(i)
    case Bool(b) => if b then "True" else "False"
    case NoneValue => "None"
  }

  /** The script tag loading the Tailwind browser runtime from `url`; the URL
      goes in verbatim, without attribute escaping. */
  function CdnScriptTag(url: string): (r: string)
    ensures StartsWith(r, "<script src=\"") && EndsWith(r, "\"></script>")
    ensures |r| == |url| + 24 && r[13..|r| - 11] == url
  {
    "<script src=\"" + url + "\"></script>"
  }

  /** Different URLs give different tags. */
  lemma CdnScriptTagInjective(u: string, v: string)
    requires CdnScriptTag(u) == CdnScriptTag(v)
    ensures u == v
  {
    assert u == CdnScriptTag(u)[13..|CdnScriptTag(u)| - 11];
  }

  /** `get_tailwind_cdn_script()`. */
  function TailwindCdnScript(settings: Settings): (r: string)
    requires !GetSetting(settings, "TAILWIND_CDN_URL").StrList?
    ensures |r| == |Show(GetSetting(settings, "TAILWIND_CDN_URL"))| + 24
    ensures r[13..|r| - 11] == Show(GetSetting(settings, "TAILWIND_CDN_URL"))
  {
    CdnScriptTag(Show(GetSetting(settings, "TAILWIND_CDN_URL")))
  }

  /** With no project setting the tag points at the package's CDN default. */
  lemma DefaultCdnScript()
    ensures TailwindCdnScript(None) == CdnScriptTag("https://unpkg.com/@tailwindcss/browser@4")
  {
  }
}
