# Static export of an entoj site, modelled in Dafny

The static export module turns a rendered entoj site into a folder of plain
files. While templates render, five filter callbacks name every image, asset,
sprite, stylesheet and script that a page refers to:

- `imageUrl`, `assetUrl`, `svgUrl` and `jsUrl` (for a linked script) build
  content-addressed URLs of the form `<folder>/<stem>_<md5><ext>`.
- `imageUrl`, `assetUrl`, `svgUrl` and `jsUrl` (for a linked script) also record
  the file in one of three registries, keyed by that URL.
- `cssUrl` and `jsUrl` (for a bundle) name a site group's bundles.

The export command then:

- empties the registries before rendering;
- defaults the entity query to `*`;
- collects the entities the templates used;
- hands the query and entities to the bundlers;
- plans one copy per registered URL. For sprites, the `#icon` fragment is
  stripped from both the source path and the URL;
- copies the font folder.

The module's configuration object reads each of its fourteen settings from the
build configuration, then the global configuration, then a built-in default.

Modules:

- `Common`: `Option` and `Result`.
- `JsValues`:
  - JavaScript scalars and what `x + ''` makes of them;
  - decimal numerals with their parser;
  - `String.prototype.replace` with a one-shot literal pattern.
- `NodePath`: Node's POSIX rules for `path.basename` and `path.extname`, and the stem
  `path.basename(p).split('.').shift()`.
- `Hashing`:
  - an MD5 digest as 32 lower-case hex characters;
  - a length-framed field encoding with its decoder, so the encoding is injective.
- `Naming`: the five callbacks, the three registries, and what each URL reads back
  as under Node's path rules.
- `StaticConfiguration`: the layered lookup, the constructor's parameter checks,
  the defaults and the getters.
- `ExportRun`:
  - the query and destination defaults and the html task chain;
  - the render fold, in which every callback fires against run-scoped registries.
    The run takes the image hashing as a switch: `Concatenated` is the command
    as written, `Framed` the corrected digest input of the finding below;
  - the used-entity list, the copy plans and the whole `export` run as one plan.

MD5 and `String.prototype.urlify` are function-valued fields of a `Host` record.
Nothing about them is assumed except that a digest has MD5's hex shape. The
directory resolver `pathesConfiguration.resolve` is a parameter of `Export` in
the same way.

## Model

| member | source | states |
|---|---|---|
| JsValues.ToJsString | source/command/StaticExportCommand.js:112-114 | `x + ''`: a string is kept; `true`/`false`, `undefined` and `null` become their names; a number is never empty; a natural becomes its canonical numeral (no leading zero, so 0 is `0`) that parses back to it; a negative number becomes `-` and the canonical numeral of its magnitude |
| JsValues.ParseDecimalInvertsDecimal | source/command/StaticExportCommand.js:112-113 | parsing a numeral gives back the number |
| JsValues.DecimalInjective | source/command/StaticExportCommand.js:112-113 | two numbers share a numeral exactly when they are equal |
| JsValues.RemoveFirst | source/command/StaticExportCommand.js:306-307 | `replace(/#icon/, '')` either leaves the text as it was or removes exactly one pattern's length of it |
| JsValues.RemoveFirstAbsent | source/command/StaticExportCommand.js:306-307 | a text without `#` is left alone by the replacement |
| JsValues.RemoveFirstAfterPrefix | source/command/StaticExportCommand.js:306-307 | in `x + pat + y`, where `x` cannot start `pat`, the replacement removes the `pat` after `x` |
| NodePath.Basename | source/command/StaticExportCommand.js:116 | a basename contains no `/` |
| NodePath.Stem | source/command/StaticExportCommand.js:116 | the stem contains no `.` and no `/` |
| NodePath.Extname | source/command/StaticExportCommand.js:132 | an extension is empty, or a dot followed by no dot and no slash |
| NodePath.FileNameRoundTrip | source/command/StaticExportCommand.js:116 | `dir/` + stem + tag + ext reads back as basename stem+tag+ext, stem stem+tag and extension ext |
| NodePath.StemOfBareName | source/command/StaticExportCommand.js:152 | a file name without a folder has everything before its extension as its stem |
| Hashing.DecodeEncode | source/command/StaticExportCommand.js:110-115 | decoding the framed encoding of the digested fields gives them back |
| Hashing.EncodeInjective | source/command/StaticExportCommand.js:110-115 | two field lists share an encoding exactly when they are equal |
| Naming.RegisterImage | source/command/StaticExportCommand.js:117 | `images[url] = data`: the key is added and maps to the record; every other key and registry is unchanged; keying by URL is preserved |
| Naming.RegisterAsset | source/command/StaticExportCommand.js:137 | the same for `assets` |
| Naming.RegisterSvg | source/command/StaticExportCommand.js:153 | the same for `svgs` |
| Naming.ContentUrlParts | source/command/StaticExportCommand.js:116 | a content-addressed URL reads back, under Node's rules, as its folder, the stem tagged with the digest, and the extension |
| Naming.ContentUrlSeparatesDigests | source/command/StaticExportCommand.js:116 | with folder, stem and extension fixed, two URLs are equal exactly when their digests are |
| Naming.ImageUrlAsWritten | source/command/StaticExportCommand.js:110-118 | `imageUrl` as written: the URL is `images/` + stem + `_` + MD5 of the unseparated fields + extension; `data.url` is set to it; the record is stored in `images` under it; other image entries, `assets` and `svgs` are unchanged; keying by URL is preserved |
| Naming.ImageUrlAsWrittenShape | source/command/StaticExportCommand.js:116 | as written, the image URL lies directly under `images/`, with the source's stem tagged with the MD5 of the concatenated fields, and the source's extension |
| Naming.ImageUrlAsWrittenIdempotent | source/command/StaticExportCommand.js:110-118 | as written, a repeated request for the same image, size and crop gets the same URL; the key set is unchanged and the last record wins |
| Naming.AsWrittenDigestInputsCollide | source/command/StaticExportCommand.js:110-115 | the as-written digest input is the same for a 1x23 and a 12x3 rendition of one image |
| Naming.AsWrittenImageUrlsCollide | source/command/StaticExportCommand.js:110-118 | as written, the two renditions get one URL and the registry keeps one record for both |
| Naming.ImageUrl | source/command/StaticExportCommand.js:110-118 | the corrected `imageUrl` (see Findings): the URL is `images/` + stem + `_` + MD5 of the framed identity fields + extension; `data.url` is set; the record is registered under it; nothing else changes |
| Naming.ImageUrlShape | source/command/StaticExportCommand.js:116 | for the corrected `imageUrl`, the image URL lies directly under `images/` and has the source's stem tagged with the digest and the source's extension |
| Naming.ImageFileUrlSeparatesDigests | source/command/StaticExportCommand.js:116 | two URLs built for one image are equal exactly when their digests are |
| Naming.ImageUrlIdempotent | source/command/StaticExportCommand.js:116-118 | for the corrected `imageUrl`, a repeated request for the same image, size and crop gets the same URL; the key set is unchanged and the last record wins |
| Naming.ImageDigestInputSeparatesKeys | source/command/StaticExportCommand.js:110-115 | the corrected digest input differs exactly when image, width, height or forced differ |
| Naming.CorrectedImageDigestInputsDiffer | source/command/StaticExportCommand.js:110-115 | the corrected input keeps the 1x23 and 12x3 renditions apart |
| Naming.AssetDirectory | source/command/StaticExportCommand.js:132-135 | the folder is `assets/videos/` exactly for `.mp4`, `.webm` and `.ogg`, and `assets/images/` otherwise |
| Naming.AssetFoldersExclusive | source/command/StaticExportCommand.js:133-136 | no URL lies under both asset folders |
| Naming.AssetFileUrlParts | source/command/StaticExportCommand.js:132-136 | an asset URL lies under the video folder exactly for video extensions, otherwise under the image folder; it keeps the stem and extension |
| Naming.AssetUrl | source/command/StaticExportCommand.js:126-139 | `assetUrl`: the URL is built from MD5 of the filter value; `data.path` becomes the value; the record is registered in `assets` only |
| Naming.AssetUrlShape | source/command/StaticExportCommand.js:128-136 | the URL returned reads back as the chosen folder, the asset's stem tagged with MD5 of the value, and the asset's extension |
| Naming.AssetUrlDigestOnlyFromValue | source/command/StaticExportCommand.js:128-136 | for the same file, whatever the data objects and registries hold, the URLs agree exactly when the filter values' digests do |
| Naming.SvgFileUrlParts | source/command/StaticExportCommand.js:152 | a sprite URL lies directly under `assets/svg/`, keeps the stem tagged with the digest, and has the extension `.svg#icon` |
| Naming.SvgUrl | source/command/StaticExportCommand.js:146-155 | `svgUrl`: the sprite URL from MD5 of the value; `data.path` becomes the value; the record is registered in `svgs` only |
| Naming.SvgUrlShape | source/command/StaticExportCommand.js:152 | the URL returned starts with `assets/svg/`, ends with `.svg#icon`, and keeps the asset's stem tagged with the digest |
| Naming.SpriteFragmentIsFirst | source/command/StaticExportCommand.js:307 | with no `#` in the stem, removing the first `#icon` from a sprite URL leaves the `.svg` URL |
| Naming.SvgCopyTargetIsPlainSvg | source/command/StaticExportCommand.js:307 | the svg copy target is the `.svg` file of the same folder, stem and digest, provided the stem has no `#` |
| Naming.StemWithFragment | source/command/StaticExportCommand.js:152 | the stem of `a#icon.svg` is `a#icon` |
| Naming.SpriteFragmentSurvives | source/command/StaticExportCommand.js:307 | for the stem `a#icon`, the stripped sprite URL still ends with `#icon` |
| Naming.SvgFragmentInStemSurvives | source/command/StaticExportCommand.js:307 | for the asset `a#icon.svg`, the copy target keeps the fragment, so it does not end in `.svg` |
| Naming.CssUrl | source/command/StaticExportCommand.js:162-165 | the stylesheet URL starts with `css/` and ends with `.css`; no registry is involved |
| Naming.ScriptFileUrlParts | source/command/StaticExportCommand.js:184 | a linked script URL lies directly under `js/`, keeps the stem tagged with the digest, and has the extension `.js` |
| Naming.JsUrl | source/command/StaticExportCommand.js:172-189 | `jsUrl`: a bundle gets a `js/…js` URL with registries untouched; a link gets a content URL from MD5 of its path and is registered in `assets`; any other type returns `data.url` and changes nothing |
| Naming.JsLinkUrlShape | source/command/StaticExportCommand.js:184 | a linked script URL read back: under `js/`, the script's stem tagged with MD5 of its path, the extension `.js` |
| Naming.BundleUrlsShareName | source/command/StaticExportCommand.js:164-177 | a group's stylesheet and script bundle URLs carry the same `urlify(site)-group` name |
| StaticConfiguration.Layered | source/configuration/StaticModuleConfiguration.js:32-49 | a setting takes the build layer's value if present, else the global layer's, else its default |
| StaticConfiguration.ResolvedGetters | source/configuration/StaticModuleConfiguration.js:76-196 | each getter returns the layered value of its own setting |
| StaticConfiguration.NewStaticModuleConfiguration | source/configuration/StaticModuleConfiguration.js:22-50 | construction succeeds exactly when both layers are given; a missing global layer is reported first; every getter is the layered value |
| StaticConfiguration.KeysDistinct | source/configuration/StaticModuleConfiguration.js:32-49 | two settings share a key exactly when they are the same setting |
| StaticConfiguration.BuildLayerWins | source/configuration/StaticModuleConfiguration.js:32-49 | a value in the build layer is returned whatever the global layer holds |
| StaticConfiguration.UnconfiguredDefaults | source/configuration/StaticModuleConfiguration.js:32-49 | with both layers empty, each getter returns its default |
| StaticConfiguration.DefaultValues | source/configuration/StaticModuleConfiguration.js:32-49 | the defaults: the export path, the directory names, empty URL templates, and the fonts and images copy entries |
| ExportRun.Query | source/command/StaticExportCommand.js:210 | the query is the first positional argument when it is non-empty, otherwise `*`; never empty |
| ExportRun.Destination | source/command/StaticExportCommand.js:209 | a non-empty destination argument wins; otherwise the configured export path |
| ExportRun.DefaultDestination | source/command/StaticExportCommand.js:209 | without a destination argument, or with the empty string the command line declares as its default, and without configuration, the export goes to `${cache}/static/export` |
| ExportRun.HtmlTasks | source/command/StaticExportCommand.js:232-238 | the html chain is export, then write, with beautify between them exactly when `html.beautify` is the boolean `true` |
| ExportRun.FireImage | source/command/StaticExportCommand.js:224 | an image call returns the URL `imageUrl` gives (as written under `Concatenated`, corrected under `Framed`) and adds it to `images` only |
| ExportRun.FireImageWrites | source/command/StaticExportCommand.js:116-117 | an image call stores its data object, with `url` set, under the URL it returns |
| ExportRun.FireAssetWrites | source/command/StaticExportCommand.js:131-138 | an asset call stores the asset, with `path` and `url` set, under the URL it returns |
| ExportRun.FireSvgWrites | source/command/StaticExportCommand.js:151-153 | a sprite call stores the sprite, with `path` and `url` set, under the URL it returns |
| ExportRun.FireJsWrites | source/command/StaticExportCommand.js:180-185 | a linking script call stores the script, with `url` set, under the URL it returns |
| ExportRun.FireAsset | source/command/StaticExportCommand.js:225 | an asset call returns its URL and adds it to `assets` only |
| ExportRun.FireSvg | source/command/StaticExportCommand.js:226 | a sprite call returns its URL and adds it to `svgs` only |
| ExportRun.FireJs | source/command/StaticExportCommand.js:228 | a script call adds its URL to `assets` exactly for a link |
| ExportRun.Fire | source/command/StaticExportCommand.js:222-229 | a filter call returns the URL its arguments determine, and keeps every registry keyed by URL |
| ExportRun.FireWrites | source/command/StaticExportCommand.js:108-189 | every call stores its completed data object under its URL in the registry it records into |
| ExportRun.MapUpdated | source/command/StaticExportCommand.js:117 | a registry that gained one key and kept every other entry is the old one updated at that key |
| ExportRun.LastRecording | source/command/StaticExportCommand.js:214-239 | the position of the last call so far that records a URL: it records that URL, and no later call does |
| ExportRun.LastRecordingSnoc | source/command/StaticExportCommand.js:214-239 | one more call becomes the last recording of its own URL and changes no other |
| ExportRun.StoresStep | source/command/StaticExportCommand.js:214-239 | a step that stores the next call's record keeps every registry entry equal to the record of the last call with that URL |
| ExportRun.FireRecords | source/command/StaticExportCommand.js:108-189 | a call adds its URL to the registry its callback writes, and no other |
| ExportRun.RecordedSnoc | source/command/StaticExportCommand.js:214-239 | one more call adds its URL to what its registry has recorded |
| ExportRun.KeysRecordedStep | source/command/StaticExportCommand.js:214-239 | a step that records the next URL keeps each registry equal to the URLs recorded so far |
| ExportRun.UrlsOfSnoc | source/command/StaticExportCommand.js:214-239 | appending the next call's URL keeps the URL list matching the calls |
| ExportRun.Render | source/command/StaticExportCommand.js:214-239 | registries start empty whatever a previous run left; the i-th call gets its URL; each registry holds exactly the URLs of the calls that record into it; under each URL is the data object, completed by its callback, of the last call that returned it |
| ExportRun.ImageCallsShareRecord | source/command/StaticExportCommand.js:117 | two image calls with one URL leave one record, the second call's |
| ExportRun.ImageCallsKeepRecords | source/command/StaticExportCommand.js:117 | two image calls with distinct URLs leave two records, each its own call's |
| ExportRun.AsWrittenRunMergesRenditions | source/command/StaticExportCommand.js:110-118 | as written, two renditions of one image whose concatenated fields coincide leave one image record, the second one |
| ExportRun.FramedRunKeepsRenditions | source/command/StaticExportCommand.js:110-118 | with the corrected digest input, two renditions whose digests differ leave two records, each under its own URL |
| ExportRun.Found | source/command/StaticExportCommand.js:243-250 | the entity list is no longer than the id list |
| ExportRun.FoundMembers | source/command/StaticExportCommand.js:243-250 | an entity is listed exactly when some id names it |
| ExportRun.FoundAppend | source/command/StaticExportCommand.js:242-258 | looking up two id lists in turn is looking up their concatenation |
| ExportRun.FoundAllKnown | source/command/StaticExportCommand.js:243-250 | when every id is known, the list holds one entity per id, in order |
| ExportRun.UsedEntities | source/command/StaticExportCommand.js:242-258 | the used entities are at most one per called or extended id |
| ExportRun.UsedEntitiesAsOneLookup | source/command/StaticExportCommand.js:242-258 | the two loops act as one lookup over the called ids followed by the extended ids |
| ExportRun.UnknownIdSkipped | source/command/StaticExportCommand.js:245-249 | an id the repository does not know contributes nothing |
| ExportRun.JoinSeparates | source/command/StaticExportCommand.js:289 | under one base folder, joined paths are equal exactly when the relative paths are |
| ExportRun.ImageJobs | source/command/StaticExportCommand.js:285-291 | one resize job per registered image, with image, width and height as recorded and forced stringified as `x + ''` does (`true`/`false`, `undefined`, ...); each job is copied to base/url; distinct URLs get distinct targets |
| ExportRun.AssetCopies | source/command/StaticExportCommand.js:294-300 | one copy per registered asset, from sites/path to base/url; distinct URLs get distinct targets |
| ExportRun.SvgCopies | source/command/StaticExportCommand.js:303-309 | one copy per registered sprite, with the first `#icon` removed from both the source path and the URL |
| ExportRun.SvgCopyTarget | source/command/StaticExportCommand.js:305-308 | a sprite registered by `svgUrl` is copied to base + its `.svg` URL, provided the stem has no `#` |
| ExportRun.StaticCopies | source/command/StaticExportCommand.js:312-329 | exactly one folder copy, the fonts glob under sites to `assets/fonts` under base, read relative to the glob's folder |
| ExportRun.Export | source/command/StaticExportCommand.js:196-332 | the whole run: the resolved destination; the query; html options and task chain; the page URLs with each registry exactly the recorded URLs, each holding the last call's record; the resize jobs and copies derived from exactly those registries; the entities handed to both bundlers; copy plans keyed by the registries; the fonts copy |

## Left out

- I/O of every kind is left out: the renderer, the bundlers, the image resizer,
  file copies, and the `co` generator's sequencing. `Export` returns the plan of
  what each stage is given.
- MD5 and `urlify` are parameters (`Host`), not algorithms. The model assumes
  only the digest's shape.
- Dependency injection, the logger and the `injections`/`className` statics are
  not modelled.
- The `instanceof` half of `assertParameter` is not modelled: only presence is
  checked.
- Floating-point `width`/`height` are not modelled: numbers are integers, so
  `ToJsString` has no fractions or exponents. `undefined` and `null` are
  stringified as JavaScript does.
- `data.url` before a callback runs is not modelled as possibly `undefined`. A
  `jsUrl` call of any other type returns the string the record already holds.
- Missing `data.image`, `data.asset` or `data.path` would raise a `TypeError` in
  the source. Every field is a string here.
- `path.join` normalisation (`..`, doubled separators, absolute second parts) is
  not modelled: `Join` is `base + "/" + rel`.
- The enumeration order of `template.calls` (object keys) is not modelled: calls
  are given as a sequence.
- Data objects are modelled as values: each call's record is a copy of its
  arguments. The source stores the template's data object by reference, and its
  copy loops take each target from the stored object's own `url`. Passing one
  data object to two callback calls is out of scope: in the source, the second
  call rewrites the `url` of the entry the first call stored, so that entry no
  longer matches its key. `WellKeyed`, and the "target is base/key" clauses of
  `ImageJobs`, `AssetCopies` and `Export`, rely on every call getting its own
  object.
- The `this` binding of the callbacks is taken to be the same object the run
  resets. `Render` takes the previous registries and drops them.
- `copyAssets` is not modelled as an input to the static copy: as in the source,
  the run copies only its own fonts entry, and the configured setting is unused.
- Naming.SvgCopyTargetIsPlainSvg: proved for stems without `#`. It also holds
  when the stem has a `#` but no `#icon`, which the model does not state. It
  fails when the stem contains `#icon`: `Naming.SvgFragmentInStemSurvives`
  shows that case.
- NodePath.Basename: its own contract states only that the result has no `/`. What it returns for a content URL is stated by `NodePath.FileNameRoundTrip`.
- NodePath.Stem: its own contract states only that the stem has no `.` or `/`. The stems of built names are stated by `NodePath.FileNameRoundTrip` and `NodePath.StemOfBareName`.
- NodePath.Extname: its own contract states only the shape of an extension. The extensions of built names are stated by `NodePath.FileNameRoundTrip`.
- JsValues.RemoveFirst: its own contract states only the length change. Which occurrence is removed is stated by `JsValues.RemoveFirstAfterPrefix` and `JsValues.RemoveFirstAbsent`.
- ExportRun.Found: its own contract states only the length bound. Membership and order are stated by `ExportRun.FoundMembers` and `ExportRun.FoundAllKnown`.
- ExportRun.UsedEntities: its own contract states only the length bound. The lookup it performs is stated by `ExportRun.UsedEntitiesAsOneLookup`.
- ExportRun.Fire: its own contract states only the URL and the keying. What it
  adds to the registries is stated by `ExportRun.FireRecords`.
- Node's `path.basename`/`path.extname` rules are followed, including trailing
  separators and a leading-dot name having no extension.

## Findings

| source | as written | input that shows it | evidently intended | confidence | as-written member | corrected member |
|---|---|---|---|---|---|---|
| source/command/StaticExportCommand.js:110-116 | the MD5 of `imageUrl` is fed image, width, height and forced one after another with no separator, so only their concatenation is digested | `a.png` at width 1, height 23 and `a.png` at width 12, height 3 (forced false) both digest `a.png123false`: one URL and one registry entry, so one rendition is never exported | a distinct URL for each distinct image, size and crop | medium, not executed | Naming.AsWrittenImageUrlsCollide, ExportRun.AsWrittenRunMergesRenditions | Naming.ImageUrl, ExportRun.FramedRunKeepsRenditions |
