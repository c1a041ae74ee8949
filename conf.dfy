/** Settings lookup (`conf.py`): the package's defaults and the priority
    lookup over the project's `WAGTAIL_ASSET_PUBLISHER` dictionary. */
module Conf {
  import opened Text

  /** The values a setting takes in this package. */
  datatype SettingValue =
    | Str(s: string)
    | Int(i: int)
    | Bool(b: bool)
    | StrList(items: seq<string>)
    | NoneValue

  /** The project's `WAGTAIL_ASSET_PUBLISHER` attribute on Django's settings
      object, `None` when the project does not define it. */
  type Settings = Option<map<string, SettingValue>>

  const RawBuilderPath := "wagtail_asset_publisher.builders.raw.RawAssetBuilder"

  const DEFAULTS: map<string, SettingValue> := map[
    "CSS_BUILDER" := Str(RawBuilderPath),
    "JS_BUILDER" := Str(RawBuilderPath),
    "STORAGE_BACKEND" := Str("wagtail_asset_publisher.storage.django_storage.DjangoStorageBackend"),
    "CSS_PREFIX" := Str("page-assets/css/"),
    "JS_PREFIX" := Str("page-assets/js/"),
    "TAILWIND_CLI_PATH" := NoneValue,
    "TAILWIND_CONFIG" := NoneValue,
    "TAILWIND_BASE_CSS" := NoneValue,
    "OBFUSCATE_JS" := Bool(false),
    "MINIFY_CSS" := Bool(true),
    "TERSER_PATH" := NoneValue,
    "TERSER_OPTIONS" := StrList(["-c", "-m"]),
    "HASH_LENGTH" := Int(8),
    "MINIFY_HTML" := Bool(true),
    "TAILWIND_CDN_URL" := Str("https://unpkg.com/@tailwindcss/browser@4")
  ]

  /** The dictionary `get_setting` reads: a missing attribute reads as `{}`. */
  function UserSettings(settings: Settings): (r: map<string, SettingValue>)
    ensures settings.None? ==> r == map[]
    ensures settings.Some? ==> r == settings.value
  {
    if settings.Some? then settings.value else map[]
  }

  /** `get_setting(key, default)`; `default` is `None` where the caller left
      the parameter at its `_UNSET` sentinel, and `Some(NoneValue)` where it
      passed Python's `None`. */
  function GetSetting(settings: Settings, key: string, default: Option<SettingValue> := None): (r: SettingValue)
    ensures key in UserSettings(settings) ==> r == UserSettings(settings)[key]
    ensures key !in UserSettings(settings) && default.Some? ==> r == default.value
    ensures key !in UserSettings(settings) && default.None? && key in DEFAULTS ==> r == DEFAULTS[key]
    ensures key !in UserSettings(settings) && default.None? && key !in DEFAULTS ==> r == NoneValue
  {
    var user := UserSettings(settings);
    var fallback := if default.None? then (if key in DEFAULTS then DEFAULTS[key] else NoneValue) else default.value;
    if key in user then user[key] else fallback
  }

  /** Python truthiness of a setting value. */
  predicate Truthy(v: SettingValue) {
    match v
    case Str(s) => s != ""
    case Int(i) => i != 0
    case Bool(b) => b
    case StrList(items) => items != []
    case NoneValue => false
  }

  /** A value typed `str | None` in the source. */
  predicate IsOptionalString(v: SettingValue) {
    v.Str? || v.NoneValue?
  }

  /** A user value wins even when it is falsy, so `""` or `0` in the project's
      settings overrides both an explicit default and the package default. */
  lemma UserValueWins(settings: Settings, key: string, default: Option<SettingValue>)
    requires settings.Some? && key in settings.value
    ensures GetSetting(settings, key, default) == settings.value[key]
  {
  }

  /** Without the project attribute, lookups behave as with an empty
      dictionary. */
  lemma MissingSettingsAreEmpty(key: string, default: Option<SettingValue>)
    ensures GetSetting(None, key, default) == GetSetting(Some(map[]), key, default)
  {
  }

  /** The package defaults that fix the layout of published artifacts. */
  lemma DefaultLayout()
    ensures GetSetting(None, "HASH_LENGTH") == Int(8)
    ensures GetSetting(None, "CSS_PREFIX") == Str("page-assets/css/")
    ensures GetSetting(None, "JS_PREFIX") == Str("page-assets/js/")
    ensures GetSetting(None, "CSS_BUILDER") == Str(RawBuilderPath)
    ensures !Truthy(GetSetting(None, "OBFUSCATE_JS")) && Truthy(GetSetting(None, "MINIFY_CSS"))
  {
  }
}
