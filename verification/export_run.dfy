/**
  One run of the static export: the query and destination it works on, the
  html task chain, the pages' callback calls folded over fresh registries, the
  list of used entities handed to the bundlers, and the copy jobs derived from
  the registries once the pages are written.
 */
module ExportRun {
  import opened Common
  import opened JsValues
  import opened NodePath
  import opened Naming
  import opened StaticConfiguration

  // ---------------------------------------------------------------- arguments

  /** The command's parsed arguments: the positional values `_` and the named `destination`. */
  datatype Parameters = Parameters(positional: Option<seq<string>>, destination: Option<string>)

  /** The first positional argument, when there is one and it is truthy (not empty). */
  predicate HasQueryArgument(params: Option<Parameters>) {
    && params.Some?
    && params.value.positional.Some?
    && |params.value.positional.value| > 0
    && params.value.positional.value[0] != ""
  }

  /** `parameters && parameters._ && parameters._[0] || '*'`: the entity query, every entity by default. */
  function Query(params: Option<Parameters>): (q: string)
    ensures q != ""
    ensures HasQueryArgument(params) ==> q == params.value.positional.value[0]
    ensures !HasQueryArgument(params) ==> q == "*"
  {
    if params.Some? && params.value.positional.Some? && |params.value.positional.value| > 0 && params.value.positional.value[0] != "" then
      params.value.positional.value[0]
    else
      "*"
  }

  /** `(parameters && parameters.destination) || exportPath`: a non-empty destination overrides the configured export path. */
  function Destination(params: Option<Parameters>, settings: StaticModuleConfiguration): (d: Json)
    ensures d == settings.exportPath || (params.Some? && params.value.destination.Some? && d == JStr(params.value.destination.value))
    ensures d != settings.exportPath ==> d.JStr? && d.s != ""
    ensures params.Some? && params.value.destination.Some? && params.value.destination.value != "" ==> d == JStr(params.value.destination.value)
  {
    if params.Some? && params.value.destination.Some? && params.value.destination.value != "" then
      JStr(params.value.destination.value)
    else
      settings.exportPath
  }

  /**
    Without a destination argument, or with the empty one the command line
    declares as its default, and without configuration the export goes to the
    default folder.
   */
  lemma DefaultDestination(params: Option<Parameters>)
    requires params.None? || params.value.destination.None? || params.value.destination.value == ""
    ensures Destination(params, NewStaticModuleConfiguration(Some(map[]), Some(map[])).value) == JStr("${cache}/static/export")
  {
    UnconfiguredDefaults(ExportPath);
  }

  // ---------------------------------------------------------------- html

  /** The tasks the html stage pipes together. */
  datatype HtmlTask = ExportHtml | BeautifyHtml | WriteFiles

  /** Whether the build configuration switches beautification on: only the boolean `true` does. */
  predicate Beautifies(build: Configuration) {
    Get(build, "html.beautify", JBool(false)) == JBool(true)
  }

  /** The html chain: export, then beautify when switched on, then write. */
  function HtmlTasks(build: Configuration): (tasks: seq<HtmlTask>)
    ensures |tasks| >= 2 && tasks[0] == ExportHtml && tasks[|tasks| - 1] == WriteFiles
    ensures BeautifyHtml in tasks <==> "html.beautify" in build && build["html.beautify"] == JBool(true)
    ensures |tasks| == (if BeautifyHtml in tasks then 3 else 2)
  {
    [ExportHtml] + (if Beautifies(build) then [BeautifyHtml] else []) + [WriteFiles]
  }

  // ---------------------------------------------------------------- callbacks during rendering

  /** One filter call a rendered template makes, with the arguments the filter passes on. */
  datatype Hook =
    | ImageHook(image: ImageData)
    | AssetHook(value: string, asset: AssetData)
    | SvgHook(value: string, sprite: AssetData)
    | CssHook(bundle: BundleData)
    | JsHook(script: ScriptData)

  /** The three registries. */
  datatype Registry = Images | Assets | Svgs

  /** A script included by its own URL rather than bundled. */
  predicate IsLink(d: ScriptData) {
    d.kind == "link"
  }

  /** The registry a call records into, if any. */
  predicate Records(h: Hook, reg: Registry) {
    match reg
    case Images => h.ImageHook?
    case Assets => h.AssetHook? || (h.JsHook? && IsLink(h.script))
    case Svgs => h.SvgHook?
  }

  /** The URLs a registry holds. */
  function Keys(regs: Registries, reg: Registry): set<string> {
    match reg
    case Images => regs.images.Keys
    case Assets => regs.assets.Keys
    case Svgs => regs.svgs.Keys
  }

  /**
    Which digest input `imageUrl` feeds MD5: `Concatenated` is the command as
    written, `Framed` the corrected length-framed input.
   */
  datatype ImageHashing = Concatenated | Framed

  /** The digest input of an image call under `hashing`. */
  function ImageDigestInputUnder(hashing: ImageHashing, d: ImageData): string {
    match hashing
    case Concatenated => ImageDigestInputAsWritten(d)
    case Framed => ImageDigestInput(d)
  }

  /** The URL a call yields, which depends on its arguments only, never on what is already registered. */
  function HookUrl(host: Host, hashing: ImageHashing, h: Hook): string {
    match h
    case ImageHook(d) => ImageFileUrl(d.image, host.md5(ImageDigestInputUnder(hashing, d)))
    case AssetHook(value, d) => AssetFileUrl(d.asset, host.md5(value))
    case SvgHook(value, d) => SvgFileUrl(d.asset, host.md5(value))
    case CssHook(d) => CssUrl(host, d)
    case JsHook(d) =>
      if d.kind == "bundle" then "js/" + BundleName(host, d.siteName, d.group) + ".js"
      else if d.kind == "link" then ScriptFileUrl(d.path, host.md5(d.path))
      else d.url
  }

  /** The outcome of one call: the URL handed to the template and the registries after it. */
  datatype Fired = Fired(url: string, regs: Registries)

  /** An image call: `imageUrl`, as written or corrected, records the image. */
  function FireImage(host: Host, hashing: ImageHashing, regs: Registries, d: ImageData): (r: Fired)
    ensures r.url == HookUrl(host, hashing, ImageHook(d))
    ensures r.regs.images.Keys == regs.images.Keys + {r.url}
    ensures r.regs.assets == regs.assets && r.regs.svgs == regs.svgs
    ensures WellKeyed(regs) ==> WellKeyed(r.regs)
  {
    var n := if hashing == Concatenated then ImageUrlAsWritten(host, regs, d) else ImageUrl(host, regs, d);
    Fired(n.url, n.regs)
  }

  /** An asset call: `assetUrl` records the file in `assets`. */
  function FireAsset(host: Host, regs: Registries, value: string, d: AssetData): (r: Fired)
    ensures r.url == AssetFileUrl(d.asset, host.md5(value))
    ensures r.regs.assets.Keys == regs.assets.Keys + {r.url}
    ensures r.regs.images == regs.images && r.regs.svgs == regs.svgs
    ensures WellKeyed(regs) ==> WellKeyed(r.regs)
  {
    var n := AssetUrl(host, regs, value, d); Fired(n.url, n.regs)
  }

  /** A sprite call: `svgUrl` records the file in `svgs`. */
  function FireSvg(host: Host, regs: Registries, value: string, d: AssetData): (r: Fired)
    ensures r.url == SvgFileUrl(d.asset, host.md5(value))
    ensures r.regs.svgs.Keys == regs.svgs.Keys + {r.url}
    ensures r.regs.images == regs.images && r.regs.assets == regs.assets
    ensures WellKeyed(regs) ==> WellKeyed(r.regs)
  {
    var n := SvgUrl(host, regs, value, d); Fired(n.url, n.regs)
  }

  /** A script call: `jsUrl` records linked scripts in `assets`. */
  function FireJs(host: Host, regs: Registries, d: ScriptData): (r: Fired)
    ensures r.url == JsUrl(host, regs, d).url
    ensures IsLink(d) ==> r.regs.assets.Keys == regs.assets.Keys + {r.url}
    ensures !IsLink(d) ==> r.regs.assets == regs.assets
    ensures r.regs.images == regs.images && r.regs.svgs == regs.svgs
    ensures WellKeyed(regs) ==> WellKeyed(r.regs)
  {
    var n := JsUrl(host, regs, d); Fired(n.url, n.regs)
  }

  /** Dispatches one call to its callback. */
  function Fire(host: Host, hashing: ImageHashing, regs: Registries, h: Hook): (r: Fired)
    ensures r.url == HookUrl(host, hashing, h)
    ensures WellKeyed(regs) ==> WellKeyed(r.regs)
  {
    match h
    case ImageHook(d) => FireImage(host, hashing, regs, d)
    case AssetHook(value, d) => FireAsset(host, regs, value, d)
    case SvgHook(value, d) => FireSvg(host, regs, value, d)
    case CssHook(d) => Fired(CssUrl(host, d), regs)
    case JsHook(d) => FireJs(host, regs, d)
  }

  /** `next` is `regs` with `url` added to the registry `h` records into, and every other registry as it was. */
  predicate Adds(regs: Registries, next: Registries, h: Hook, url: string) {
    && (Records(h, Images) ==> next.images.Keys == regs.images.Keys + {url})
    && (!Records(h, Images) ==> next.images == regs.images)
    && (Records(h, Assets) ==> next.assets.Keys == regs.assets.Keys + {url})
    && (!Records(h, Assets) ==> next.assets == regs.assets)
    && (Records(h, Svgs) ==> next.svgs.Keys == regs.svgs.Keys + {url})
    && (!Records(h, Svgs) ==> next.svgs == regs.svgs)
  }

  /** A call adds its URL to the registry it records into and leaves every other registry as it was. */
  lemma FireRecords(host: Host, hashing: ImageHashing, regs: Registries, h: Hook)
    ensures Adds(regs, Fire(host, hashing, regs, h).regs, h, Fire(host, hashing, regs, h).url)
  {
    match h
    case ImageHook(d) =>
      assert Records(h, Images) && !Records(h, Assets) && !Records(h, Svgs);
    case AssetHook(value, d) =>
      assert !Records(h, Images) && Records(h, Assets) && !Records(h, Svgs);
    case SvgHook(value, d) =>
      assert !Records(h, Images) && !Records(h, Assets) && Records(h, Svgs);
    case CssHook(d) =>
      assert !Records(h, Images) && !Records(h, Assets) && !Records(h, Svgs);
    case JsHook(d) =>
      assert !Records(h, Images) && Records(h, Assets) == IsLink(d) && !Records(h, Svgs);
  }

  /** The image record an image call leaves under `url`: its data object with `url` set. */
  function StoredImage(h: Hook, url: string): ImageData
    requires Records(h, Images)
  {
    h.image.(url := url)
  }

  /** The `assets` record a call leaves under `url`: the asset with `path` and `url` set, or the linked script with `url` set. */
  function StoredAsset(h: Hook, url: string): AssetEntry
    requires Records(h, Assets)
  {
    if h.AssetHook? then MediaAsset(h.asset.(path := h.value, url := url)) else ScriptLink(h.script.(url := url))
  }

  /** The sprite record a sprite call leaves under `url`: its data object with `path` and `url` set. */
  function StoredSvg(h: Hook, url: string): AssetData
    requires Records(h, Svgs)
  {
    h.sprite.(path := h.value, url := url)
  }

  /** `next` is `regs` with the record of `h` written under `url` in the registry `h` records into. */
  predicate Writes(regs: Registries, next: Registries, h: Hook, url: string) {
    && (Records(h, Images) ==> next.images == regs.images[url := StoredImage(h, url)])
    && (Records(h, Assets) ==> next.assets == regs.assets[url := StoredAsset(h, url)])
    && (Records(h, Svgs) ==> next.svgs == regs.svgs[url := StoredSvg(h, url)])
  }

  /** A map that gained `k` with value `v` and kept every other entry is the update of the old map at `k`. */
  lemma MapUpdated<V>(m: map<string, V>, next: map<string, V>, k: string, v: V)
    requires next.Keys == m.Keys + {k} && next[k] == v
    requires forall j | j in m && j != k :: next[j] == m[j]
    ensures next == m[k := v]
  {
  }

  /** An image call writes its data object, with the URL set, under that URL. */
  lemma FireImageWrites(host: Host, hashing: ImageHashing, regs: Registries, d: ImageData)
    ensures var r := Fire(host, hashing, regs, ImageHook(d)); Writes(regs, r.regs, ImageHook(d), r.url)
  {
    assert !Records(ImageHook(d), Assets) && !Records(ImageHook(d), Svgs);
    var n := if hashing == Concatenated then ImageUrlAsWritten(host, regs, d) else ImageUrl(host, regs, d);
    MapUpdated(regs.images, n.regs.images, n.url, d.(url := n.url));
  }

  /** An asset call writes the asset, with `path` and URL set, under that URL. */
  lemma FireAssetWrites(host: Host, hashing: ImageHashing, regs: Registries, value: string, d: AssetData)
    ensures var r := Fire(host, hashing, regs, AssetHook(value, d)); Writes(regs, r.regs, AssetHook(value, d), r.url)
  {
    assert !Records(AssetHook(value, d), Images) && !Records(AssetHook(value, d), Svgs);
    var n := AssetUrl(host, regs, value, d);
    MapUpdated(regs.assets, n.regs.assets, n.url, MediaAsset(d.(path := value, url := n.url)));
  }

  /** A sprite call writes the sprite, with `path` and URL set, under that URL. */
  lemma FireSvgWrites(host: Host, hashing: ImageHashing, regs: Registries, value: string, d: AssetData)
    ensures var r := Fire(host, hashing, regs, SvgHook(value, d)); Writes(regs, r.regs, SvgHook(value, d), r.url)
  {
    assert !Records(SvgHook(value, d), Images) && !Records(SvgHook(value, d), Assets);
    var n := SvgUrl(host, regs, value, d);
    MapUpdated(regs.svgs, n.regs.svgs, n.url, d.(path := value, url := n.url));
  }

  /** A script call that links writes the script, with the URL set, under that URL; any other writes nothing. */
  lemma FireJsWrites(host: Host, hashing: ImageHashing, regs: Registries, d: ScriptData)
    ensures var r := Fire(host, hashing, regs, JsHook(d)); Writes(regs, r.regs, JsHook(d), r.url)
  {
    assert !Records(JsHook(d), Images) && !Records(JsHook(d), Svgs);
    if IsLink(d) {
      var n := JsUrl(host, regs, d);
      MapUpdated(regs.assets, n.regs.assets, n.url, ScriptLink(d.(url := n.url)));
    }
  }

  /** A call writes its own data object, completed by its callback, under the URL it returns. */
  lemma FireWrites(host: Host, hashing: ImageHashing, regs: Registries, h: Hook)
    ensures Writes(regs, Fire(host, hashing, regs, h).regs, h, Fire(host, hashing, regs, h).url)
  {
    match h
    case ImageHook(d) => FireImageWrites(host, hashing, regs, d);
    case AssetHook(value, d) => FireAssetWrites(host, hashing, regs, value, d);
    case SvgHook(value, d) => FireSvgWrites(host, hashing, regs, value, d);
    case CssHook(d) =>
      assert !Records(h, Images) && !Records(h, Assets) && !Records(h, Svgs);
    case JsHook(d) => FireJsWrites(host, hashing, regs, d);
  }

  /** The URLs of the calls so far (the first `|urls|` of `hooks`) that record into `reg`. */
  function Recorded(urls: seq<string>, hooks: seq<Hook>, reg: Registry): set<string>
    requires |urls| <= |hooks|
  {
    set i | 0 <= i < |urls| && Records(hooks[i], reg) :: urls[i]
  }

  /** One more call adds its URL to what its registry has recorded. */
  lemma RecordedSnoc(urls: seq<string>, hooks: seq<Hook>, url: string, reg: Registry)
    requires |urls| < |hooks|
    ensures Recorded(urls + [url], hooks, reg) == Recorded(urls, hooks, reg) + (if Records(hooks[|urls|], reg) then {url} else {})
  {
    var urls' := urls + [url];
    forall u | u in Recorded(urls', hooks, reg)
      ensures u in Recorded(urls, hooks, reg) + (if Records(hooks[|urls|], reg) then {url} else {})
    {
      var i :| 0 <= i < |urls'| && Records(hooks[i], reg) && urls'[i] == u;
      if i < |urls| {
        assert urls[i] == urls'[i];
      }
    }
    forall u | u in Recorded(urls, hooks, reg)
      ensures u in Recorded(urls', hooks, reg)
    {
      var i :| 0 <= i < |urls| && Records(hooks[i], reg) && urls[i] == u;
      assert urls'[i] == urls[i];
    }
    if Records(hooks[|urls|], reg) {
      assert urls'[|urls|] == url;
    }
  }

  /** Each registry holds exactly the URLs of the calls so far that record into it. */
  predicate KeysRecorded(regs: Registries, urls: seq<string>, hooks: seq<Hook>)
    requires |urls| <= |hooks|
  {
    && regs.images.Keys == Recorded(urls, hooks, Images)
    && regs.assets.Keys == Recorded(urls, hooks, Assets)
    && regs.svgs.Keys == Recorded(urls, hooks, Svgs)
  }

  /** A step that `Adds` the next call's URL keeps `KeysRecorded` once that URL is appended. */
  lemma KeysRecordedStep(regs: Registries, next: Registries, urls: seq<string>, hooks: seq<Hook>, url: string)
    requires |urls| < |hooks| && KeysRecorded(regs, urls, hooks)
    requires Adds(regs, next, hooks[|urls|], url)
    ensures KeysRecorded(next, urls + [url], hooks)
  {
    RecordedSnoc(urls, hooks, url, Images);
    RecordedSnoc(urls, hooks, url, Assets);
    RecordedSnoc(urls, hooks, url, Svgs);
  }

  /** The position of the last of the calls so far that records `u` into `reg`, or -1 when none does. */
  function LastRecording(urls: seq<string>, hooks: seq<Hook>, reg: Registry, u: string): (i: int)
    requires |urls| <= |hooks|
    ensures -1 <= i < |urls|
    ensures 0 <= i ==> Records(hooks[i], reg) && urls[i] == u
    ensures forall j | i < j < |urls| :: !(Records(hooks[j], reg) && urls[j] == u)
    decreases |urls|
  {
    if |urls| == 0 then -1
    else if Records(hooks[|urls| - 1], reg) && urls[|urls| - 1] == u then |urls| - 1
    else LastRecording(urls[..|urls| - 1], hooks, reg, u)
  }

  /** One more call becomes the last recording of its own URL and changes no other. */
  lemma LastRecordingSnoc(urls: seq<string>, hooks: seq<Hook>, url: string, reg: Registry, u: string)
    requires |urls| < |hooks|
    ensures LastRecording(urls + [url], hooks, reg, u)
         == if Records(hooks[|urls|], reg) && url == u then |urls| else LastRecording(urls, hooks, reg, u)
  {
    assert (urls + [url])[..|urls|] == urls;
  }

  /** Every record a registry holds is the one the last call recording its URL left there. */
  predicate Stores(regs: Registries, urls: seq<string>, hooks: seq<Hook>)
    requires |urls| <= |hooks|
  {
    && (forall u | u in regs.images ::
         0 <= LastRecording(urls, hooks, Images, u) && regs.images[u] == StoredImage(hooks[LastRecording(urls, hooks, Images, u)], u))
    && (forall u | u in regs.assets ::
         0 <= LastRecording(urls, hooks, Assets, u) && regs.assets[u] == StoredAsset(hooks[LastRecording(urls, hooks, Assets, u)], u))
    && (forall u | u in regs.svgs ::
         0 <= LastRecording(urls, hooks, Svgs, u) && regs.svgs[u] == StoredSvg(hooks[LastRecording(urls, hooks, Svgs, u)], u))
  }

  /** A step that `Writes` the next call's record keeps `Stores` once its URL is appended. */
  lemma StoresStep(regs: Registries, next: Registries, urls: seq<string>, hooks: seq<Hook>, url: string)
    requires |urls| < |hooks| && Stores(regs, urls, hooks)
    requires Adds(regs, next, hooks[|urls|], url) && Writes(regs, next, hooks[|urls|], url)
    ensures Stores(next, urls + [url], hooks)
  {
    var urls' := urls + [url];
    forall u | u in next.images
      ensures 0 <= LastRecording(urls', hooks, Images, u) && next.images[u] == StoredImage(hooks[LastRecording(urls', hooks, Images, u)], u)
    {
      LastRecordingSnoc(urls, hooks, url, Images, u);
    }
    forall u | u in next.assets
      ensures 0 <= LastRecording(urls', hooks, Assets, u) && next.assets[u] == StoredAsset(hooks[LastRecording(urls', hooks, Assets, u)], u)
    {
      LastRecordingSnoc(urls, hooks, url, Assets, u);
    }
    forall u | u in next.svgs
      ensures 0 <= LastRecording(urls', hooks, Svgs, u) && next.svgs[u] == StoredSvg(hooks[LastRecording(urls', hooks, Svgs, u)], u)
    {
      LastRecordingSnoc(urls, hooks, url, Svgs, u);
    }
  }

  /** `urls` holds `url(h)` for each of the first `|urls|` calls `h`. */
  predicate UrlsOf(urls: seq<string>, hooks: seq<Hook>, url: Hook -> string)
    requires |urls| <= |hooks|
  {
    forall i | 0 <= i < |urls| :: urls[i] == url(hooks[i])
  }

  /** Appending the next call's URL keeps `UrlsOf`. */
  lemma UrlsOfSnoc(urls: seq<string>, hooks: seq<Hook>, url: Hook -> string, next: string)
    requires |urls| < |hooks| && UrlsOf(urls, hooks, url)
    requires next == url(hooks[|urls|])
    ensures UrlsOf(urls + [next], hooks, url)
  {
    var urls' := urls + [next];
    forall i | 0 <= i < |urls'| ensures urls'[i] == url(hooks[i]) {
      if i < |urls| {
        assert urls'[i] == urls[i];
      }
    }
  }

  /**
    The rendering stage: the registries are reset (whatever an earlier run left
    in them is dropped), then every callback call of the pages is fired in
    order. Each call's URL depends on its own arguments only; afterwards each
    registry holds exactly the URLs of the calls that record into it, and under
    each URL the data object of the last call that returned it.
   */
  method Render(host: Host, hashing: ImageHashing, previous: Registries, hooks: seq<Hook>) returns (urls: seq<string>, regs: Registries)
    ensures |urls| == |hooks|
    ensures forall i | 0 <= i < |hooks| :: urls[i] == HookUrl(host, hashing, hooks[i])
    ensures regs.images.Keys == Recorded(urls, hooks, Images)
    ensures regs.assets.Keys == Recorded(urls, hooks, Assets)
    ensures regs.svgs.Keys == Recorded(urls, hooks, Svgs)
    ensures Stores(regs, urls, hooks)
    ensures WellKeyed(regs)
  {
    regs := Empty;
    urls := [];
    for n := 0 to |hooks|
      invariant |urls| == n
      invariant UrlsOf(urls, hooks, h => HookUrl(host, hashing, h))
      invariant KeysRecorded(regs, urls, hooks)
      invariant Stores(regs, urls, hooks)
      invariant WellKeyed(regs)
    {
      var fired := Fire(host, hashing, regs, hooks[n]);
      UrlsOfSnoc(urls, hooks, h => HookUrl(host, hashing, h), fired.url);
      FireRecords(host, hashing, regs, hooks[n]);
      FireWrites(host, hashing, regs, hooks[n]);
      KeysRecordedStep(regs, fired.regs, urls, hooks, fired.url);
      StoresStep(regs, fired.regs, urls, hooks, fired.url);
      urls := urls + [fired.url];
      regs := fired.regs;
    }
  }

  /** Two image calls that return one URL leave one record under it: the second call's. */
  lemma ImageCallsShareRecord(hooks: seq<Hook>, urls: seq<string>, regs: Registries)
    requires |hooks| == 2 && hooks[0].ImageHook? && hooks[1].ImageHook? && |urls| == 2 && urls[0] == urls[1]
    requires regs.images.Keys == Recorded(urls, hooks, Images) && Stores(regs, urls, hooks)
    ensures regs.images.Keys == {urls[0]} && |regs.images| == 1
    ensures regs.images[urls[0]] == hooks[1].image.(url := urls[0])
  {
    assert Records(hooks[0], Images) && Records(hooks[1], Images);
    assert regs.images.Keys == {urls[0]};
    assert |regs.images.Keys| == 1;
    assert LastRecording(urls, hooks, Images, urls[0]) == 1;
  }

  /** Two image calls that return distinct URLs leave two records, each the data of its own call. */
  lemma ImageCallsKeepRecords(hooks: seq<Hook>, urls: seq<string>, regs: Registries)
    requires |hooks| == 2 && hooks[0].ImageHook? && hooks[1].ImageHook? && |urls| == 2 && urls[0] != urls[1]
    requires regs.images.Keys == Recorded(urls, hooks, Images) && Stores(regs, urls, hooks)
    ensures regs.images.Keys == {urls[0], urls[1]} && |regs.images| == 2
    ensures regs.images[urls[0]] == hooks[0].image.(url := urls[0]) && regs.images[urls[1]] == hooks[1].image.(url := urls[1])
  {
    assert Records(hooks[0], Images) && Records(hooks[1], Images);
    assert regs.images.Keys == {urls[0], urls[1]};
    assert |regs.images.Keys| == 2;
    assert LastRecording(urls, hooks, Images, urls[0]) == 0;
    assert LastRecording(urls, hooks, Images, urls[1]) == 1;
  }

  /**
    Rendered as written, a page that asks for two renditions of one image whose
    concatenated digest inputs coincide (1 x 23 and 12 x 3, say) leaves one
    image record, the second one: the first rendition is never resized although
    the page references its URL.
   */
  lemma AsWrittenRunMergesRenditions(host: Host, a: ImageData, b: ImageData, urls: seq<string>, regs: Registries)
    requires a.image == b.image && ImageDigestInputAsWritten(a) == ImageDigestInputAsWritten(b)
    requires urls == [HookUrl(host, Concatenated, ImageHook(a)), HookUrl(host, Concatenated, ImageHook(b))]
    requires regs.images.Keys == Recorded(urls, [ImageHook(a), ImageHook(b)], Images)
    requires Stores(regs, urls, [ImageHook(a), ImageHook(b)])
    ensures |regs.images| == 1
    ensures forall u | u in regs.images :: regs.images[u] == b.(url := u)
  {
    assert urls[0] == urls[1];
    ImageCallsShareRecord([ImageHook(a), ImageHook(b)], urls, regs);
  }

  /**
    Rendered with the corrected digest input, two renditions of one image are
    both kept whenever MD5 tells their inputs apart, each under its own URL.
   */
  lemma FramedRunKeepsRenditions(host: Host, a: ImageData, b: ImageData, urls: seq<string>, regs: Registries)
    requires a.image == b.image && host.md5(ImageDigestInput(a)) != host.md5(ImageDigestInput(b))
    requires urls == [HookUrl(host, Framed, ImageHook(a)), HookUrl(host, Framed, ImageHook(b))]
    requires regs.images.Keys == Recorded(urls, [ImageHook(a), ImageHook(b)], Images)
    requires Stores(regs, urls, [ImageHook(a), ImageHook(b)])
    ensures |regs.images| == 2
    ensures regs.images[urls[0]] == a.(url := urls[0]) && regs.images[urls[1]] == b.(url := urls[1])
  {
    ImageFileUrlSeparatesDigests(a.image, host.md5(ImageDigestInput(a)), host.md5(ImageDigestInput(b)));
    ImageCallsKeepRecords([ImageHook(a), ImageHook(b)], urls, regs);
  }

  // ---------------------------------------------------------------- used entities

  /** The entities of the ids the repository knows, in order; an id it does not know is skipped. */
  function Found<E>(ids: seq<string>, repo: map<string, E>): (es: seq<E>)
    ensures |es| <= |ids|
    decreases |ids|
  {
    if ids == [] then []
    else (if ids[0] in repo then [repo[ids[0]]] else []) + Found(ids[1..], repo)
  }

  /** An entity is in the list exactly when some id of the list names it. */
  lemma {:induction false} FoundMembers<E>(ids: seq<string>, repo: map<string, E>, e: E)
    ensures e in Found(ids, repo) <==> exists i | 0 <= i < |ids| :: ids[i] in repo && repo[ids[i]] == e
    decreases |ids|
  {
    if ids != [] {
      FoundMembers(ids[1..], repo, e);
      if e in Found(ids[1..], repo) {
        var i :| 0 <= i < |ids[1..]| && ids[1..][i] in repo && repo[ids[1..][i]] == e;
        assert ids[i + 1] == ids[1..][i];
      }
      if exists i | 0 <= i < |ids| :: ids[i] in repo && repo[ids[i]] == e {
        var i :| 0 <= i < |ids| && ids[i] in repo && repo[ids[i]] == e;
        if i > 0 {
          assert ids[1..][i - 1] == ids[i];
        }
      }
    }
  }

  /** Looking up two id lists one after the other is looking up their concatenation. */
  lemma {:induction false} FoundAppend<E>(a: seq<string>, b: seq<string>, repo: map<string, E>)
    ensures Found(a + b, repo) == Found(a, repo) + Found(b, repo)
    decreases |a|
  {
    if a == [] {
      assert a + b == b;
    } else {
      assert (a + b)[0] == a[0];
      assert (a + b)[1..] == a[1..] + b;
      FoundAppend(a[1..], b, repo);
    }
  }

  /** When the repository knows every id, the list holds one entity per id, in order. */
  lemma {:induction false} FoundAllKnown<E>(ids: seq<string>, repo: map<string, E>)
    requires forall i | 0 <= i < |ids| :: ids[i] in repo
    ensures |Found(ids, repo)| == |ids|
    ensures forall i | 0 <= i < |ids| :: Found(ids, repo)[i] == repo[ids[i]]
    decreases |ids|
  {
    if ids != [] {
      assert forall i | 0 <= i < |ids[1..]| :: ids[1..][i] == ids[i + 1];
      FoundAllKnown(ids[1..], repo);
    }
  }

  /**
    The entities handed to the bundlers: those of the templates the pages call,
    then those of the templates they extend.
   */
  function UsedEntities<E>(calls: seq<string>, extended: seq<string>, repo: map<string, E>): (es: seq<E>)
    ensures |es| <= |calls| + |extended|
  {
    Found(calls, repo) + Found(extended, repo)
  }

  /** The two loops act as one loop over the called ids followed by the extended ids. */
  lemma UsedEntitiesAsOneLookup<E>(calls: seq<string>, extended: seq<string>, repo: map<string, E>)
    ensures UsedEntities(calls, extended, repo) == Found(calls + extended, repo)
  {
    FoundAppend(calls, extended, repo);
  }

  /** An id the repository does not know contributes nothing, wherever it stands. */
  lemma UnknownIdSkipped<E>(before: seq<string>, id: string, after: seq<string>, repo: map<string, E>)
    requires id !in repo
    ensures Found(before + [id] + after, repo) == Found(before + after, repo)
  {
    FoundAppend(before + [id], after, repo);
    FoundAppend(before, [id], repo);
    FoundAppend(before, after, repo);
    assert Found([id], repo) == [] + Found([id][1..], repo);
    assert Found(before, repo) + [] == Found(before, repo);
  }

  // ---------------------------------------------------------------- copy jobs

  /** `path.join(base, rel)` for a relative `rel`, without normalising `..` or doubled separators. */
  function Join(base: string, rel: string): string {
    base + "/" + rel
  }

  /** Under one base folder, two relative paths give the same joined path only when they are equal. */
  lemma JoinSeparates(base: string, a: string, b: string)
    ensures Join(base, a) == Join(base, b) <==> a == b
  {
    if Join(base, a) == Join(base, b) {
      assert a == Join(base, a)[|base| + 1..];
      assert b == Join(base, b)[|base| + 1..];
    }
  }

  /** A request to the image renderer, `resize(image, width, height, forced + '')`, and where its result is copied. */
  datatype ResizeJob = ResizeJob(image: string, width: JsScalar, height: JsScalar, forced: string, target: string)

  /** A copy of one file. */
  datatype FileCopy = FileCopy(source: string, target: string)

  /**
    One resize-and-copy per registered image. Each lands under the export
    folder at the URL the pages reference, so no two land on the same file.
   */
  function ImageJobs(images: map<string, ImageData>, base: string): (jobs: map<string, ResizeJob>)
    ensures jobs.Keys == images.Keys
    ensures forall k | k in jobs ::
      && jobs[k].image == images[k].image && jobs[k].width == images[k].width && jobs[k].height == images[k].height
      && jobs[k].forced == ToJsString(images[k].forced)
      && (images[k].forced.Bool? ==> jobs[k].forced == (if images[k].forced.b then "true" else "false"))
      && (images[k].forced == Undefined ==> jobs[k].forced == "undefined")
    ensures (forall k | k in images :: images[k].url == k) ==>
      && (forall k | k in jobs :: jobs[k].target == Join(base, k))
      && (forall k1, k2 | k1 in jobs && k2 in jobs && k1 != k2 :: jobs[k1].target != jobs[k2].target)
  {
    var jobs := map k | k in images :: ResizeJob(images[k].image, images[k].width, images[k].height, ToJsString(images[k].forced), Join(base, images[k].url));
    assert forall k1, k2 | k1 in jobs && k2 in jobs :: jobs[k1].target == jobs[k2].target ==> images[k1].url == images[k2].url by {
      forall k1, k2 | k1 in jobs && k2 in jobs && jobs[k1].target == jobs[k2].target
        ensures images[k1].url == images[k2].url
      {
        JoinSeparates(base, images[k1].url, images[k2].url);
      }
    }
    jobs
  }

  /**
    One copy per registered asset or linked script: from its path under the
    sites folder to its URL under the export folder, no two to the same file.
   */
  function AssetCopies(assets: map<string, AssetEntry>, sites: string, base: string): (copies: map<string, FileCopy>)
    ensures copies.Keys == assets.Keys
    ensures forall k | k in copies :: copies[k].source == Join(sites, assets[k].SourcePath())
    ensures (forall k | k in assets :: assets[k].Url() == k) ==>
      && (forall k | k in copies :: copies[k].target == Join(base, k))
      && (forall k1, k2 | k1 in copies && k2 in copies && k1 != k2 :: copies[k1].target != copies[k2].target)
  {
    var copies := map k | k in assets :: FileCopy(Join(sites, assets[k].SourcePath()), Join(base, assets[k].Url()));
    assert forall k1, k2 | k1 in copies && k2 in copies :: copies[k1].target == copies[k2].target ==> assets[k1].Url() == assets[k2].Url() by {
      forall k1, k2 | k1 in copies && k2 in copies && copies[k1].target == copies[k2].target
        ensures assets[k1].Url() == assets[k2].Url()
      {
        JoinSeparates(base, assets[k1].Url(), assets[k2].Url());
      }
    }
    copies
  }

  /** One copy per registered sprite, with the first `#icon` removed from both its source path and its URL. */
  function SvgCopies(svgs: map<string, AssetData>, sites: string, base: string): (copies: map<string, FileCopy>)
    ensures copies.Keys == svgs.Keys
    ensures forall k | k in copies :: copies[k].source == Join(sites, RemoveFirst(svgs[k].path, IconFragment))
    ensures (forall k | k in svgs :: svgs[k].url == k) ==>
      forall k | k in copies :: copies[k].target == Join(base, RemoveFirst(k, IconFragment))
  {
    map k | k in svgs :: FileCopy(Join(sites, RemoveFirst(svgs[k].path, IconFragment)), Join(base, RemoveFirst(svgs[k].url, IconFragment)))
  }

  /**
    A sprite registered by `svgUrl` is copied to the plain `.svg` file name
    under the export folder, provided the asset's stem has no `#`.
   */
  lemma SvgCopyTarget(host: Host, regs: Registries, value: string, d: AssetData, sites: string, base: string)
    requires '#' !in Stem(d.asset)
    ensures var r := SvgUrl(host, regs, value, d);
      SvgCopies(r.regs.svgs, sites, base)[r.url].target == Join(base, ContentUrl("assets/svg/", Stem(d.asset), host.md5(value), ".svg"))
  {
    SvgCopyTargetIsPlainSvg(host, regs, value, d);
  }

  /** The copy of a fixed folder of files: a glob, the folder it is read relative to, and the target folder. */
  datatype FolderCopy = FolderCopy(readPath: string, readPathBase: string, writePath: string)

  /**
    The configured-asset copies. The fonts folder of the global base is the
    only one: the list is fixed in the command, and the `copyAssets` setting is
    not consulted.
   */
  function StaticCopies(sites: string, base: string): (copies: seq<FolderCopy>)
    ensures |copies| == 1
    ensures copies[0].readPath == Join(sites, FontsGlob) && copies[0].writePath == Join(base, FontsTarget)
    ensures copies[0].readPath == copies[0].readPathBase + "/*.*"
  {
    assert Join(sites, FontsGlob) == Join(sites, "base/global/assets/fonts") + "/*.*";
    [FolderCopy(Join(sites, FontsGlob), Join(sites, "base/global/assets/fonts"), Join(base, FontsTarget))]
  }

  // ---------------------------------------------------------------- the whole run

  /** The options the html stage runs with. */
  datatype HtmlOptions = HtmlOptions(query: string, exportName: string, filepathTemplate: string, writePath: string)

  /** A bundler stage: the query, the used entities, the export folder and the bundle file name template. */
  datatype BundleJob<E> = BundleJob(query: string, entities: seq<E>, writePath: string, bundleTemplate: string)

  const SassBundleTemplate := "css/${site.name.urlify()}-${group}.scss"
  const JsBundleTemplate := "js/${site.name.urlify()}-${group}.js"

  /** Everything one run decides, stage by stage. */
  datatype ExportPlan<E> = ExportPlan(
    basePath: string,
    query: string,
    html: HtmlOptions,
    htmlTasks: seq<HtmlTask>,
    pageUrls: seq<string>,
    registries: Registries,
    entities: seq<E>,
    sass: BundleJob<E>,
    js: BundleJob<E>,
    imageJobs: map<string, ResizeJob>,
    assetCopies: map<string, FileCopy>,
    svgCopies: map<string, FileCopy>,
    staticCopies: seq<FolderCopy>)

  /**
    `export`: resolves the destination, renders the pages over fresh
    registries, collects the used entities for both bundlers, and derives the
    copy jobs from what the pages registered. `resolve` is the host's path
    resolution, `sites` its sites folder; `hooks` are the callback calls the
    pages make, `calls` and `extended` the template ids they call and extend.
    The command as written hashes images with `Concatenated`.
   */
  method Export<E>(host: Host, hashing: ImageHashing, resolve: Json -> string, sites: string, params: Option<Parameters>,
                   settings: StaticModuleConfiguration, build: Configuration, previous: Registries,
                   hooks: seq<Hook>, calls: seq<string>, extended: seq<string>, repo: map<string, E>)
    returns (plan: ExportPlan<E>)
    ensures plan.basePath == resolve(Destination(params, settings))
    ensures plan.query == Query(params) && plan.query != ""
    ensures plan.html == HtmlOptions(plan.query, "static", "", plan.basePath)
    ensures plan.htmlTasks == HtmlTasks(build)
    ensures |plan.pageUrls| == |hooks|
    ensures forall i | 0 <= i < |hooks| :: plan.pageUrls[i] == HookUrl(host, hashing, hooks[i])
    ensures KeysRecorded(plan.registries, plan.pageUrls, hooks) && WellKeyed(plan.registries)
    ensures Stores(plan.registries, plan.pageUrls, hooks)
    ensures plan.entities == UsedEntities(calls, extended, repo)
    ensures plan.sass == BundleJob(plan.query, plan.entities, plan.basePath, SassBundleTemplate)
    ensures plan.js == BundleJob(plan.query, plan.entities, plan.basePath, JsBundleTemplate)
    ensures plan.imageJobs == ImageJobs(plan.registries.images, plan.basePath)
    ensures plan.assetCopies == AssetCopies(plan.registries.assets, sites, plan.basePath)
    ensures plan.svgCopies == SvgCopies(plan.registries.svgs, sites, plan.basePath)
    ensures plan.imageJobs.Keys == plan.registries.images.Keys
    ensures forall k | k in plan.imageJobs :: plan.imageJobs[k].target == Join(plan.basePath, k)
    ensures plan.assetCopies.Keys == plan.registries.assets.Keys
    ensures forall k | k in plan.assetCopies :: plan.assetCopies[k].target == Join(plan.basePath, k)
    ensures plan.svgCopies.Keys == plan.registries.svgs.Keys
    ensures forall k | k in plan.svgCopies :: plan.svgCopies[k].target == Join(plan.basePath, RemoveFirst(k, IconFragment))
    ensures plan.staticCopies == StaticCopies(sites, plan.basePath)
  {
    var basePath := resolve(Destination(params, settings));
    var query := Query(params);
    var urls, regs := Render(host, hashing, previous, hooks);
    var entities := UsedEntities(calls, extended, repo);
    plan := ExportPlan(
      basePath, query,
      HtmlOptions(query, "static", "", basePath),
      HtmlTasks(build),
      urls, regs, entities,
      BundleJob(query, entities, basePath, SassBundleTemplate),
      BundleJob(query, entities, basePath, JsBundleTemplate),
      ImageJobs(regs.images, basePath),
      AssetCopies(regs.assets, sites, basePath),
      SvgCopies(regs.svgs, sites, basePath),
      StaticCopies(sites, basePath));
  }
}
