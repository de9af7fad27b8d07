/**
  The static module's settings. Each one is read from the build configuration,
  falls back to the global configuration and then to a built-in default, once,
  when the settings object is constructed.
 */
module StaticConfiguration {
  import opened Common

  /** A configuration value: whatever JSON the host configuration holds under a key. */
  datatype Json = JNull | JBool(b: bool) | JNum(n: int) | JStr(s: string) | JArr(items: seq<Json>) | JObj(fields: map<string, Json>)

  /** One configuration layer (global or build) as a key-value store. */
  type Configuration = map<string, Json>

  /** The host's `configuration.get(key, default)`: the stored value when the key is present. */
  function Get(c: Configuration, key: string, default: Json): Json {
    if key in c then c[key] else default
  }

  /** The fourteen settings the module exposes through getters. */
  datatype Setting =
    | ExportPath
    | ImageDirectoryTemplate | ImageUrlTemplate
    | VideoDirectoryTemplate | VideoUrlTemplate
    | AssetDirectoryTemplate | AssetUrlTemplate
    | SvgDirectoryTemplate | SvgUrlTemplate
    | CssDirectoryTemplate | CssUrlTemplate
    | JsDirectoryTemplate | JsUrlTemplate
    | CopyAssets
  {
    predicate IsDirectoryTemplate() {
      ImageDirectoryTemplate? || VideoDirectoryTemplate? || AssetDirectoryTemplate? ||
      SvgDirectoryTemplate? || CssDirectoryTemplate? || JsDirectoryTemplate?
    }

    predicate IsUrlTemplate() {
      ImageUrlTemplate? || VideoUrlTemplate? || AssetUrlTemplate? ||
      SvgUrlTemplate? || CssUrlTemplate? || JsUrlTemplate?
    }
  }

  /** The key a setting is stored under in both layers. */
  function Key(s: Setting): string {
    match s
    case ExportPath => "static.exportPath"
    case ImageDirectoryTemplate => "static.imageDirectoryTemplate"
    case ImageUrlTemplate => "static.imageUrlTemplate"
    case VideoDirectoryTemplate => "static.videoDirectoryTemplate"
    case VideoUrlTemplate => "static.videoUrlTemplate"
    case AssetDirectoryTemplate => "static.assetDirectoryTemplate"
    case AssetUrlTemplate => "static.assetUrlTemplate"
    case SvgDirectoryTemplate => "static.svgDirectoryTemplate"
    case SvgUrlTemplate => "static.svgUrlTemplate"
    case CssDirectoryTemplate => "static.cssDirectoryTemplate"
    case CssUrlTemplate => "static.cssUrlTemplate"
    case JsDirectoryTemplate => "static.jsDirectoryTemplate"
    case JsUrlTemplate => "static.jsUrlTemplate"
    case CopyAssets => "static.copyAssets"
  }

  /** The source glob and target folder of the fonts entry of the default `copyAssets`. */
  const FontsGlob := "base/global/assets/fonts/*.*"
  const FontsTarget := "assets/fonts"

  /** The value used when neither layer holds the key. */
  function Default(s: Setting): Json {
    match s
    case ExportPath => JStr("${cache}/static/export")
    case ImageDirectoryTemplate => JStr("images")
    case VideoDirectoryTemplate => JStr("videos")
    case AssetDirectoryTemplate => JStr("assets")
    case SvgDirectoryTemplate => JStr("assets")
    case CssDirectoryTemplate => JStr("css")
    case JsDirectoryTemplate => JStr("js")
    case CopyAssets => JObj(map[FontsGlob := JStr(FontsTarget), "base/global/assets/images/*.*" := JStr("assets/images")])
    case _ => JStr("")
  }

  /** `build.get(key, global.get(key, default))`, the value a setting receives. */
  function Layered(build: Configuration, global: Configuration, s: Setting): (v: Json)
    ensures Key(s) in build ==> v == build[Key(s)]
    ensures Key(s) !in build && Key(s) in global ==> v == global[Key(s)]
    ensures Key(s) !in build && Key(s) !in global ==> v == Default(s)
  {
    Get(build, Key(s), Get(global, Key(s), Default(s)))
  }

  /** The settings object; its fields are the values its getters return. */
  datatype StaticModuleConfiguration = StaticModuleConfiguration(
    exportPath: Json,
    imageDirectoryTemplate: Json, imageUrlTemplate: Json,
    videoDirectoryTemplate: Json, videoUrlTemplate: Json,
    assetDirectoryTemplate: Json, assetUrlTemplate: Json,
    svgDirectoryTemplate: Json, svgUrlTemplate: Json,
    cssDirectoryTemplate: Json, cssUrlTemplate: Json,
    jsDirectoryTemplate: Json, jsUrlTemplate: Json,
    copyAssets: Json)
  {
    /** The getter of a setting. */
    function Value(s: Setting): Json {
      match s
      case ExportPath => exportPath
      case ImageDirectoryTemplate => imageDirectoryTemplate
      case ImageUrlTemplate => imageUrlTemplate
      case VideoDirectoryTemplate => videoDirectoryTemplate
      case VideoUrlTemplate => videoUrlTemplate
      case AssetDirectoryTemplate => assetDirectoryTemplate
      case AssetUrlTemplate => assetUrlTemplate
      case SvgDirectoryTemplate => svgDirectoryTemplate
      case SvgUrlTemplate => svgUrlTemplate
      case CssDirectoryTemplate => cssDirectoryTemplate
      case CssUrlTemplate => cssUrlTemplate
      case JsDirectoryTemplate => jsDirectoryTemplate
      case JsUrlTemplate => jsUrlTemplate
      case CopyAssets => copyAssets
    }
  }

  /** The error `assertParameter` raises for a missing constructor argument. */
  datatype ConfigurationError = MissingParameter(name: string)

  /** The settings object built from the layered value of each setting, in field order. */
  function Resolve(build: Configuration, global: Configuration): StaticModuleConfiguration {
    StaticModuleConfiguration(
      Layered(build, global, ExportPath),
      Layered(build, global, ImageDirectoryTemplate), Layered(build, global, ImageUrlTemplate),
      Layered(build, global, VideoDirectoryTemplate), Layered(build, global, VideoUrlTemplate),
      Layered(build, global, AssetDirectoryTemplate), Layered(build, global, AssetUrlTemplate),
      Layered(build, global, SvgDirectoryTemplate), Layered(build, global, SvgUrlTemplate),
      Layered(build, global, CssDirectoryTemplate), Layered(build, global, CssUrlTemplate),
      Layered(build, global, JsDirectoryTemplate), Layered(build, global, JsUrlTemplate),
      Layered(build, global, CopyAssets))
  }

  /** Each getter of the resolved object returns the layered value of its own setting. */
  lemma ResolvedGetters(build: Configuration, global: Configuration)
    ensures forall s :: Resolve(build, global).Value(s) == Layered(build, global, s)
  {
    forall s ensures Resolve(build, global).Value(s) == Layered(build, global, s) {
      match s
      case ExportPath =>
      case ImageDirectoryTemplate =>
      case ImageUrlTemplate =>
      case VideoDirectoryTemplate =>
      case VideoUrlTemplate =>
      case AssetDirectoryTemplate =>
      case AssetUrlTemplate =>
      case SvgDirectoryTemplate =>
      case SvgUrlTemplate =>
      case CssDirectoryTemplate =>
      case CssUrlTemplate =>
      case JsDirectoryTemplate =>
      case JsUrlTemplate =>
      case CopyAssets =>
    }
  }

  /**
    The constructor: both layers must be given (the global one is checked
    first); every setting is then fixed to its layered value.
   */
  function NewStaticModuleConfiguration(global: Option<Configuration>, build: Option<Configuration>)
    : (r: Result<StaticModuleConfiguration, ConfigurationError>)
    ensures r.Success? <==> global.Some? && build.Some?
    ensures global.None? ==> r == Failure(MissingParameter("globalConfiguration"))
    ensures global.Some? && build.None? ==> r == Failure(MissingParameter("buildConfiguration"))
    ensures r.Success? ==> forall s :: r.value.Value(s) == Layered(build.value, global.value, s)
  {
    if global.None? then Failure(MissingParameter("globalConfiguration"))
    else if build.None? then Failure(MissingParameter("buildConfiguration"))
    else
      ResolvedGetters(build.value, global.value);
      Success(Resolve(build.value, global.value))
  }

  /** The length of a key and its first character after `static.`: enough to tell the fourteen keys apart. */
  function Signature(s: Setting): (int, char) {
    (|Key(s)|, Key(s)[7])
  }

  /** No two settings share a key, so each getter reads its own entry. */
  lemma KeysDistinct(s1: Setting, s2: Setting)
    ensures Key(s1) == Key(s2) <==> s1 == s2
  {
    if s1 != s2 {
      assert Signature(s1) != Signature(s2);
    }
  }

  /** A value in the build layer wins, whatever the global layer holds. */
  lemma BuildLayerWins(global1: Configuration, global2: Configuration, build: Configuration, s: Setting)
    requires Key(s) in build
    ensures NewStaticModuleConfiguration(Some(global1), Some(build)).value.Value(s) == build[Key(s)]
    ensures NewStaticModuleConfiguration(Some(global1), Some(build)).value.Value(s)
         == NewStaticModuleConfiguration(Some(global2), Some(build)).value.Value(s)
  {
  }

  /** With both layers empty every getter returns its setting's built-in default. */
  lemma UnconfiguredDefaults(s: Setting)
    ensures NewStaticModuleConfiguration(Some(map[]), Some(map[])).value.Value(s) == Default(s)
  {
  }

  /**
    The built-in defaults: the export goes under the cache folder, directories
    are fixed folder names, URL templates are empty, and fonts and images are
    copied from the global base.
   */
  lemma DefaultValues(s: Setting)
    ensures s.IsUrlTemplate() ==> Default(s) == JStr("")
    ensures s.IsDirectoryTemplate() ==> Default(s).JStr? && Default(s).s != ""
    ensures s == ImageDirectoryTemplate ==> Default(s) == JStr("images")
    ensures s == VideoDirectoryTemplate ==> Default(s) == JStr("videos")
    ensures s == AssetDirectoryTemplate || s == SvgDirectoryTemplate ==> Default(s) == JStr("assets")
    ensures s == CssDirectoryTemplate ==> Default(s) == JStr("css")
    ensures s == JsDirectoryTemplate ==> Default(s) == JStr("js")
    ensures s == ExportPath ==> Default(s) == JStr("${cache}/static/export")
    ensures s == CopyAssets ==>
      && Default(s).JObj?
      && Default(s).fields.Keys == {FontsGlob, "base/global/assets/images/*.*"}
      && Default(s).fields[FontsGlob] == JStr(FontsTarget)
      && Default(s).fields["base/global/assets/images/*.*"] == JStr("assets/images")
  {
  }
}
