/**
  The five URL callbacks the static export hands to the HTML renderer
  (`imageUrl`, `assetUrl`, `svgUrl`, `cssUrl`, `jsUrl`) and the three
  run-scoped registries (`images`, `assets`, `svgs`) they fill, keyed by the
  URL they return.
 */
module Naming {
  import opened JsValues
  import opened NodePath
  import opened Hashing

  /** The foreign functions the callbacks call: hex MD5 of a string, and the `String.prototype.urlify` extension. */
  datatype Host = Host(md5: string -> Digest, urlify: string -> string)

  /** The data object `imageUrl` receives. */
  datatype ImageData = ImageData(image: string, width: JsScalar, height: JsScalar, forced: JsScalar, url: string)

  /** The data object `assetUrl` and `svgUrl` receive; `asset` names the file, the filter value is hashed. */
  datatype AssetData = AssetData(asset: string, path: string, url: string)

  /** The data object `cssUrl` receives. */
  datatype BundleData = BundleData(siteName: string, group: string)

  /** The data object `jsUrl` receives; `kind` is its `type` field. */
  datatype ScriptData = ScriptData(kind: string, siteName: string, group: string, path: string, url: string)

  /** A record of the `assets` registry: a file from `assetUrl` or a script link from `jsUrl`. */
  datatype AssetEntry = MediaAsset(media: AssetData) | ScriptLink(script: ScriptData) {
    function Url(): string {
      match this
      case MediaAsset(a) => a.url
      case ScriptLink(s) => s.url
    }

    function SourcePath(): string {
      match this
      case MediaAsset(a) => a.path
      case ScriptLink(s) => s.path
    }
  }

  /** The three registries, each keyed by the URL a callback returned. */
  datatype Registries = Registries(images: map<string, ImageData>, assets: map<string, AssetEntry>, svgs: map<string, AssetData>)

  /** The state every export run starts from. */
  const Empty := Registries(map[], map[], map[])

  /** Every record is stored under the URL it carries. */
  predicate WellKeyed(r: Registries) {
    && (forall k | k in r.images :: r.images[k].url == k)
    && (forall k | k in r.assets :: r.assets[k].Url() == k)
    && (forall k | k in r.svgs :: r.svgs[k].url == k)
  }

  /** Stores an image record in `images` under the URL it carries. */
  function RegisterImage(regs: Registries, data: ImageData): (r: Registries)
    ensures r.images.Keys == regs.images.Keys + {data.url} && r.images[data.url] == data
    ensures forall k | k in regs.images && k != data.url :: r.images[k] == regs.images[k]
    ensures r.assets == regs.assets && r.svgs == regs.svgs
    ensures WellKeyed(regs) ==> WellKeyed(r)
  {
    regs.(images := regs.images[data.url := data])
  }

  /** Stores an asset or script-link record in `assets` under the URL it carries. */
  function RegisterAsset(regs: Registries, entry: AssetEntry): (r: Registries)
    ensures r.assets.Keys == regs.assets.Keys + {entry.Url()} && r.assets[entry.Url()] == entry
    ensures forall k | k in regs.assets && k != entry.Url() :: r.assets[k] == regs.assets[k]
    ensures r.images == regs.images && r.svgs == regs.svgs
    ensures WellKeyed(regs) ==> WellKeyed(r)
  {
    regs.(assets := regs.assets[entry.Url() := entry])
  }

  /** Stores a sprite record in `svgs` under the URL it carries. */
  function RegisterSvg(regs: Registries, data: AssetData): (r: Registries)
    ensures r.svgs.Keys == regs.svgs.Keys + {data.url} && r.svgs[data.url] == data
    ensures forall k | k in regs.svgs && k != data.url :: r.svgs[k] == regs.svgs[k]
    ensures r.images == regs.images && r.assets == regs.assets
    ensures WellKeyed(regs) ==> WellKeyed(r)
  {
    regs.(svgs := regs.svgs[data.url := data])
  }

  /** A callback's outcome: the URL it returns, its data object after the callback's writes, the registries after it. */
  datatype Named<D> = Named(url: string, data: D, regs: Registries)

  /** `stem + '_' + digest + ext`, the file name of every content-addressed URL. */
  function FileName(stem: string, digest: Digest, ext: string): string {
    stem + ("_" + digest) + ext
  }

  /** A content-addressed URL: the file name under the directory prefix `dir`. */
  function ContentUrl(dir: string, stem: string, digest: Digest, ext: string): string {
    dir + FileName(stem, digest, ext)
  }

  /** A content-addressed URL hands Node's own path rules back its stem, digest and extension. */
  lemma ContentUrlParts(dir: string, stem: string, digest: Digest, ext: string)
    requires |dir| > 0 && dir[|dir| - 1] == '/'
    requires '.' !in stem && '/' !in stem
    requires ExtensionShaped(ext)
    ensures dir <= ContentUrl(dir, stem, digest, ext)
    ensures ContentUrl(dir, stem, digest, ext) == dir + Basename(ContentUrl(dir, stem, digest, ext))
    ensures Stem(ContentUrl(dir, stem, digest, ext)) == stem + "_" + digest
    ensures Extname(ContentUrl(dir, stem, digest, ext)) == ext
  {
    DigestTagCharacters(digest);
    FileNameRoundTrip(dir, stem, "_" + digest, ext);
  }

  /** The fixed extensions the callbacks append have the shape `path.extname` returns. */
  lemma FixedExtensionsShaped()
    ensures ExtensionShaped(".svg#icon") && ExtensionShaped(".svg") && ExtensionShaped(".js")
  {
    assert ".svg#icon"[1..] == "svg#icon";
    assert ".svg"[1..] == "svg";
    assert ".js"[1..] == "js";
  }

  /** With directory, stem and extension fixed, two content URLs are equal exactly when their digests are. */
  lemma ContentUrlSeparatesDigests(dir: string, stem: string, d1: Digest, d2: Digest, ext: string)
    ensures ContentUrl(dir, stem, d1, ext) == ContentUrl(dir, stem, d2, ext) <==> d1 == d2
  {
    var p := |dir + stem + "_"|;
    if ContentUrl(dir, stem, d1, ext) == ContentUrl(dir, stem, d2, ext) {
      assert ContentUrl(dir, stem, d1, ext)[p..p + 32] == d1;
      assert ContentUrl(dir, stem, d2, ext)[p..p + 32] == d2;
    }
  }

  // ---------------------------------------------------------------- imageUrl

  /** The identity fields of an image request, as the strings the source passes to `hash.update`. */
  function ImageKey(d: ImageData): seq<string> {
    [d.image, ToJsString(d.width), ToJsString(d.height), ToJsString(d.forced)]
  }

  /** `'images/' + stem + '_' + digest + ext` for the source image path `image`. */
  function ImageFileUrl(image: string, digest: Digest): string {
    ContentUrl("images/", Stem(image), digest, Extname(image))
  }

  /** An image URL lies directly under `images/` and keeps the source's stem, tagged with the digest, and its extension. */
  lemma ImageFileUrlParts(image: string, digest: Digest)
    ensures var url := ImageFileUrl(image, digest);
      && url == "images/" + Basename(url)
      && Stem(url) == Stem(image) + "_" + digest
      && Extname(url) == Extname(image)
  {
    ContentUrlParts("images/", Stem(image), digest, Extname(image));
  }

  /** `imageUrl` around a given digest: names the file under `images/` and registers `data` there. */
  function ImageUrlWith(regs: Registries, d: ImageData, digest: Digest): (r: Named<ImageData>)
    ensures r.url == ImageFileUrl(d.image, digest)
    ensures r.data == d.(url := r.url)
    ensures r.regs.images.Keys == regs.images.Keys + {r.url} && r.regs.images[r.url] == r.data
    ensures forall k | k in regs.images && k != r.url :: r.regs.images[k] == regs.images[k]
    ensures r.regs.assets == regs.assets && r.regs.svgs == regs.svgs
    ensures WellKeyed(regs) ==> WellKeyed(r.regs)
  {
    var data := d.(url := ImageFileUrl(d.image, digest));
    Named(data.url, data, RegisterImage(regs, data))
  }

  /**
    The digest `imageUrl` computes as written: four `hash.update` calls, which
    digest the plain concatenation of the four fields.
   */
  function ImageDigestInputAsWritten(d: ImageData): string {
    d.image + ToJsString(d.width) + ToJsString(d.height) + ToJsString(d.forced)
  }

  /** The corrected digest input: the four fields, each framed by its length. */
  function ImageDigestInput(d: ImageData): string {
    Encode(ImageKey(d))
  }

  /** `imageUrl` as written, digesting the unseparated concatenation; the export run fires this one. */
  function ImageUrlAsWritten(host: Host, regs: Registries, d: ImageData): (r: Named<ImageData>)
    ensures r.url == ImageFileUrl(d.image, host.md5(ImageDigestInputAsWritten(d)))
    ensures r.data == d.(url := r.url)
    ensures r.regs.images.Keys == regs.images.Keys + {r.url} && r.regs.images[r.url] == r.data
    ensures forall k | k in regs.images && k != r.url :: r.regs.images[k] == regs.images[k]
    ensures r.regs.assets == regs.assets && r.regs.svgs == regs.svgs
    ensures WellKeyed(regs) ==> WellKeyed(r.regs)
  {
    ImageUrlWith(regs, d, host.md5(ImageDigestInputAsWritten(d)))
  }

  /** The corrected `imageUrl`: the digest is taken over the length-framed fields, so distinct requests get distinct digest inputs. */
  function ImageUrl(host: Host, regs: Registries, d: ImageData): (r: Named<ImageData>)
    ensures r.url == ImageFileUrl(d.image, host.md5(ImageDigestInput(d)))
    ensures r.data == d.(url := r.url)
    ensures r.regs.images.Keys == regs.images.Keys + {r.url} && r.regs.images[r.url] == r.data
    ensures forall k | k in regs.images && k != r.url :: r.regs.images[k] == regs.images[k]
    ensures r.regs.assets == regs.assets && r.regs.svgs == regs.svgs
    ensures WellKeyed(regs) ==> WellKeyed(r.regs)
  {
    ImageUrlWith(regs, d, host.md5(ImageDigestInput(d)))
  }

  /** Two URLs for one image differ exactly when their digests do. */
  lemma ImageFileUrlSeparatesDigests(image: string, d1: Digest, d2: Digest)
    ensures ImageFileUrl(image, d1) == ImageFileUrl(image, d2) <==> d1 == d2
  {
    ContentUrlSeparatesDigests("images/", Stem(image), d1, d2, Extname(image));
  }

  /**
    The URL `imageUrl` returns, read back with Node's path rules: directly
    under `images/`, the source's stem tagged with the digest of the request's
    identity fields, the source's extension.
   */
  lemma ImageUrlShape(host: Host, regs: Registries, d: ImageData)
    ensures var url := ImageUrl(host, regs, d).url;
      && url == "images/" + Basename(url)
      && Stem(url) == Stem(d.image) + "_" + host.md5(ImageDigestInput(d))
      && Extname(url) == Extname(d.image)
  {
    ImageFileUrlParts(d.image, host.md5(ImageDigestInput(d)));
  }

  /**
    Two requests for the same image at the same size and crop get the same URL,
    and the second leaves the registry with one record for it: its own.
   */
  lemma ImageUrlIdempotent(host: Host, regs: Registries, d1: ImageData, d2: ImageData)
    requires ImageKey(d1) == ImageKey(d2)
    ensures ImageUrl(host, regs, d1).url == ImageUrl(host, ImageUrl(host, regs, d1).regs, d2).url
    ensures ImageUrl(host, ImageUrl(host, regs, d1).regs, d2).regs.images.Keys == ImageUrl(host, regs, d1).regs.images.Keys
    ensures ImageUrl(host, ImageUrl(host, regs, d1).regs, d2).regs.images[ImageUrl(host, regs, d1).url] == d2.(url := ImageUrl(host, regs, d1).url)
  {
    assert d1.image == ImageKey(d1)[0] == ImageKey(d2)[0] == d2.image;
  }

  /** The URL `imageUrl` returns as written, read back with Node's path rules: the same shape as the corrected one, over the concatenation's digest. */
  lemma ImageUrlAsWrittenShape(host: Host, regs: Registries, d: ImageData)
    ensures var url := ImageUrlAsWritten(host, regs, d).url;
      && url == "images/" + Basename(url)
      && Stem(url) == Stem(d.image) + "_" + host.md5(ImageDigestInputAsWritten(d))
      && Extname(url) == Extname(d.image)
  {
    ImageFileUrlParts(d.image, host.md5(ImageDigestInputAsWritten(d)));
  }

  /**
    As written too, a repeated request for the same image, size and crop gets
    the same URL and leaves one record for it: the last one.
   */
  lemma ImageUrlAsWrittenIdempotent(host: Host, regs: Registries, d1: ImageData, d2: ImageData)
    requires ImageKey(d1) == ImageKey(d2)
    ensures ImageUrlAsWritten(host, regs, d1).url == ImageUrlAsWritten(host, ImageUrlAsWritten(host, regs, d1).regs, d2).url
    ensures ImageUrlAsWritten(host, ImageUrlAsWritten(host, regs, d1).regs, d2).regs.images.Keys == ImageUrlAsWritten(host, regs, d1).regs.images.Keys
    ensures ImageUrlAsWritten(host, ImageUrlAsWritten(host, regs, d1).regs, d2).regs.images[ImageUrlAsWritten(host, regs, d1).url] == d2.(url := ImageUrlAsWritten(host, regs, d1).url)
  {
    assert d1.image == ImageKey(d1)[0] == ImageKey(d2)[0] == d2.image;
    assert ImageDigestInputAsWritten(d1) == ImageDigestInputAsWritten(d2) by {
      assert ImageKey(d1)[1] == ImageKey(d2)[1] && ImageKey(d1)[2] == ImageKey(d2)[2] && ImageKey(d1)[3] == ImageKey(d2)[3];
    }
  }

  /** The corrected digest input tells image requests apart exactly when their identity fields differ. */
  lemma ImageDigestInputSeparatesKeys(a: ImageData, b: ImageData)
    ensures ImageDigestInput(a) == ImageDigestInput(b) <==> ImageKey(a) == ImageKey(b)
  {
    EncodeInjective(ImageKey(a), ImageKey(b));
  }

  /** Same image, 1 x 23 pixels. */
  const NarrowImage := ImageData("a.png", Num(1), Num(23), Bool(false), "")

  /** Same image, 12 x 3 pixels. */
  const WideImage := ImageData("a.png", Num(12), Num(3), Bool(false), "")

  /** The numerals of the two renditions' sizes. */
  lemma SizeNumerals()
    ensures ToJsString(Num(1)) == "1" && ToJsString(Num(23)) == "23"
    ensures ToJsString(Num(12)) == "12" && ToJsString(Num(3)) == "3"
  {
    assert DigitChar(1) == '1' && DigitChar(2) == '2' && DigitChar(3) == '3';
    assert Decimal(23) == Decimal(2) + [DigitChar(3)];
    assert Decimal(12) == Decimal(1) + [DigitChar(2)];
  }

  /** As written, the two renditions feed MD5 the same text although their sizes differ. */
  lemma AsWrittenDigestInputsCollide()
    ensures ImageKey(NarrowImage) != ImageKey(WideImage)
    ensures ImageDigestInputAsWritten(NarrowImage) == ImageDigestInputAsWritten(WideImage)
  {
    SizeNumerals();
    assert ImageKey(NarrowImage)[1] == "1" != "12" == ImageKey(WideImage)[1];
    assert ImageDigestInputAsWritten(NarrowImage) == "a.png" + "1" + "23" + "false";
    assert ImageDigestInputAsWritten(WideImage) == "a.png" + "12" + "3" + "false";
  }

  /**
    As written, the 1 x 23 and the 12 x 3 rendition of one image get the same
    URL whatever MD5 returns, so the second registration replaces the first and
    only one of the two sizes is ever copied.
   */
  lemma AsWrittenImageUrlsCollide(host: Host)
    ensures ImageUrlAsWritten(host, Empty, NarrowImage).url == ImageUrlAsWritten(host, Empty, WideImage).url
    ensures |ImageUrlAsWritten(host, ImageUrlAsWritten(host, Empty, NarrowImage).regs, WideImage).regs.images| == 1
  {
    AsWrittenDigestInputsCollide();
    var first := ImageUrlAsWritten(host, Empty, NarrowImage);
    var second := ImageUrlAsWritten(host, first.regs, WideImage);
    assert first.regs.images.Keys == {first.url};
    assert second.regs.images.Keys == {first.url};
  }

  /** The corrected digest input keeps the two renditions apart. */
  lemma CorrectedImageDigestInputsDiffer()
    ensures ImageDigestInput(NarrowImage) != ImageDigestInput(WideImage)
  {
    AsWrittenDigestInputsCollide();
    ImageDigestInputSeparatesKeys(NarrowImage, WideImage);
  }

  // ---------------------------------------------------------------- assetUrl

  /** The extensions `assetUrl` files under `assets/videos/`; the comparison is case-sensitive. */
  const VideoExtensions: seq<string> := [".mp4", ".webm", ".ogg"]

  /** The folder prefix `assetUrl` picks: videos for a video extension, images for anything else. */
  function AssetDirectory(ext: string): (dir: string)
    ensures dir == "assets/videos/" || dir == "assets/images/"
    ensures dir == "assets/videos/" <==> ext in VideoExtensions
  {
    "assets/" + (if ext in VideoExtensions then "videos" else "images") + "/"
  }

  /** No URL lies under both asset folders. */
  lemma AssetFoldersExclusive(url: string)
    ensures !("assets/videos/" <= url && "assets/images/" <= url)
  {
    if "assets/videos/" <= url {
      assert url[7] == "assets/videos/"[7] == 'v';
    }
  }

  /** `'assets/' + folder + '/' + stem + '_' + digest + ext`, the folder chosen by the extension of `asset`. */
  function AssetFileUrl(asset: string, digest: Digest): string {
    ContentUrl(AssetDirectory(Extname(asset)), Stem(asset), digest, Extname(asset))
  }

  /**
    An asset URL lies under `assets/videos/` exactly when the asset has a video
    extension and under `assets/images/` otherwise, directly in that folder,
    and keeps the asset's stem, tagged with the digest, and its extension.
   */
  lemma AssetFileUrlParts(asset: string, digest: Digest)
    ensures var url := AssetFileUrl(asset, digest);
      && ("assets/videos/" <= url) == (Extname(asset) in VideoExtensions)
      && ("assets/images/" <= url) == (Extname(asset) !in VideoExtensions)
      && url == AssetDirectory(Extname(asset)) + Basename(url)
      && Stem(url) == Stem(asset) + "_" + digest
      && Extname(url) == Extname(asset)
  {
    var stem, ext := Stem(asset), Extname(asset);
    var dir := AssetDirectory(ext);
    ContentUrlParts(dir, stem, digest, ext);
    AssetFoldersExclusive(ContentUrl(dir, stem, digest, ext));
  }

  /**
    `assetUrl`: digests the filter value alone, takes stem and extension from
    `data.asset`, picks the videos or images folder by that extension, records
    the value as `data.path` and registers the record in `assets`.
   */
  function AssetUrl(host: Host, regs: Registries, value: string, d: AssetData): (r: Named<AssetData>)
    ensures r.url == AssetFileUrl(d.asset, host.md5(value))
    ensures r.data == d.(path := value, url := r.url)
    ensures r.regs.assets.Keys == regs.assets.Keys + {r.url} && r.regs.assets[r.url] == MediaAsset(r.data)
    ensures forall k | k in regs.assets && k != r.url :: r.regs.assets[k] == regs.assets[k]
    ensures r.regs.images == regs.images && r.regs.svgs == regs.svgs
    ensures WellKeyed(regs) ==> WellKeyed(r.regs)
  {
    var data := d.(path := value, url := AssetFileUrl(d.asset, host.md5(value)));
    Named(data.url, data, RegisterAsset(regs, MediaAsset(data)))
  }

  /**
    The URL `assetUrl` returns, read back with Node's path rules: the videos
    folder for a video extension and the images folder otherwise, the asset's
    stem tagged with the digest of the filter value, the asset's extension.
   */
  lemma AssetUrlShape(host: Host, regs: Registries, value: string, d: AssetData)
    ensures var url := AssetUrl(host, regs, value, d).url;
      && ("assets/videos/" <= url) == (Extname(d.asset) in VideoExtensions)
      && ("assets/images/" <= url) == (Extname(d.asset) !in VideoExtensions)
      && url == AssetDirectory(Extname(d.asset)) + Basename(url)
      && Stem(url) == Stem(d.asset) + "_" + host.md5(value)
      && Extname(url) == Extname(d.asset)
  {
    AssetFileUrlParts(d.asset, host.md5(value));
  }

  /**
    The digest in an asset URL depends on the filter value only: for the same
    file the URLs agree exactly when the values' digests do, whatever else the
    data objects or registries hold.
   */
  lemma AssetUrlDigestOnlyFromValue(host: Host, regs1: Registries, regs2: Registries, v1: string, v2: string, d1: AssetData, d2: AssetData)
    requires d1.asset == d2.asset
    ensures AssetUrl(host, regs1, v1, d1).url == AssetUrl(host, regs2, v2, d2).url <==> host.md5(v1) == host.md5(v2)
  {
    var ext := Extname(d1.asset);
    var dir := AssetDirectory(ext);
    ContentUrlSeparatesDigests(dir, Stem(d1.asset), host.md5(v1), host.md5(v2), ext);
    assert AssetFileUrl(d1.asset, host.md5(v1)) == ContentUrl(dir, Stem(d1.asset), host.md5(v1), ext);
    assert AssetFileUrl(d2.asset, host.md5(v2)) == ContentUrl(dir, Stem(d1.asset), host.md5(v2), ext);
  }

  // ---------------------------------------------------------------- svgUrl

  /** The fragment every sprite URL ends with. */
  const IconFragment := "#icon"

  /** `'assets/svg/' + stem + '_' + digest + '.svg#icon'`. */
  function SpriteUrl(stem: string, digest: Digest): string {
    ContentUrl("assets/svg/", stem, digest, ".svg#icon")
  }

  /** The sprite URL for the file `asset`. */
  function SvgFileUrl(asset: string, digest: Digest): string {
    SpriteUrl(Stem(asset), digest)
  }

  /** A sprite URL lies directly under `assets/svg/`, keeps the asset's stem tagged with the digest, and has the extension `.svg#icon`. */
  lemma SvgFileUrlParts(asset: string, digest: Digest)
    ensures var url := SvgFileUrl(asset, digest);
      && url == "assets/svg/" + Basename(url)
      && Stem(url) == Stem(asset) + "_" + digest
      && Extname(url) == ".svg#icon"
  {
    FixedExtensionsShaped();
    ContentUrlParts("assets/svg/", Stem(asset), digest, ".svg#icon");
  }

  /** `svgUrl`: like `assetUrl`, but always under `assets/svg/` with the suffix `.svg#icon`, registered in `svgs`. */
  function SvgUrl(host: Host, regs: Registries, value: string, d: AssetData): (r: Named<AssetData>)
    ensures r.url == SvgFileUrl(d.asset, host.md5(value))
    ensures r.data == d.(path := value, url := r.url)
    ensures r.regs.svgs.Keys == regs.svgs.Keys + {r.url} && r.regs.svgs[r.url] == r.data
    ensures forall k | k in regs.svgs && k != r.url :: r.regs.svgs[k] == regs.svgs[k]
    ensures r.regs.images == regs.images && r.regs.assets == regs.assets
    ensures WellKeyed(regs) ==> WellKeyed(r.regs)
  {
    var data := d.(path := value, url := SvgFileUrl(d.asset, host.md5(value)));
    Named(data.url, data, RegisterSvg(regs, data))
  }

  /**
    The URL `svgUrl` returns, read back with Node's path rules: directly under
    `assets/svg/`, the asset's stem tagged with the digest of the filter value,
    and the extension `.svg#icon`.
   */
  lemma SvgUrlShape(host: Host, regs: Registries, value: string, d: AssetData)
    ensures var url := SvgUrl(host, regs, value, d).url;
      && url == "assets/svg/" + Basename(url)
      && Stem(url) == Stem(d.asset) + "_" + host.md5(value)
      && Extname(url) == ".svg#icon"
      && |url| >= 9 && url[|url| - 9..] == ".svg#icon"
  {
    SvgFileUrlParts(d.asset, host.md5(value));
  }

  /** Appending to the extension appends to the URL. */
  lemma ContentUrlExtensionSuffix(dir: string, stem: string, digest: Digest, ext: string, more: string)
    ensures ContentUrl(dir, stem, digest, ext + more) == ContentUrl(dir, stem, digest, ext) + more
  {
  }

  /** A content URL built from `#`-free parts has no `#`. */
  lemma ContentUrlWithoutHash(dir: string, stem: string, digest: Digest, ext: string)
    requires '#' !in dir && '#' !in stem && '#' !in ext
    ensures '#' !in ContentUrl(dir, stem, digest, ext)
  {
    DigestTagCharacters(digest);
  }

  /** Without a `#` in the stem, the first `#icon` of a sprite URL is its fragment. */
  lemma SpriteFragmentIsFirst(stem: string, digest: Digest)
    requires '#' !in stem
    ensures RemoveFirst(SpriteUrl(stem, digest), IconFragment) == ContentUrl("assets/svg/", stem, digest, ".svg")
  {
    var x := ContentUrl("assets/svg/", stem, digest, ".svg");
    assert ".svg" + IconFragment == ".svg#icon";
    ContentUrlExtensionSuffix("assets/svg/", stem, digest, ".svg", IconFragment);
    ContentUrlWithoutHash("assets/svg/", stem, digest, ".svg");
    RemoveFirstAfterPrefix(x, IconFragment, "");
    assert x + IconFragment + "" == x + IconFragment;
    assert x + "" == x;
  }

  /**
    Removing the first `#icon` from a sprite URL, as the copy stage does, leaves
    the plain `.svg` file name, provided the asset's stem has no `#`.
   */
  lemma SvgCopyTargetIsPlainSvg(host: Host, regs: Registries, value: string, d: AssetData)
    requires '#' !in Stem(d.asset)
    ensures RemoveFirst(SvgUrl(host, regs, value, d).url, IconFragment) == ContentUrl("assets/svg/", Stem(d.asset), host.md5(value), ".svg")
    ensures Extname(RemoveFirst(SvgUrl(host, regs, value, d).url, IconFragment)) == ".svg"
  {
    var stem, digest := Stem(d.asset), host.md5(value);
    assert SvgUrl(host, regs, value, d).url == SpriteUrl(stem, digest);
    SpriteFragmentIsFirst(stem, digest);
    FixedExtensionsShaped();
    ContentUrlParts("assets/svg/", stem, digest, ".svg");
  }

  /** The stem of `a#icon.svg` keeps the `#icon` written in the file name. */
  lemma StemWithFragment()
    ensures Stem("a#icon.svg") == "a#icon"
  {
    FixedExtensionsShaped();
    assert "a#icon" + ".svg" == "a#icon.svg";
    StemOfBareName("a#icon", ".svg");
  }

  /** In the sprite URL of the stem `a#icon`, the first `#icon` is the stem's, so removing it leaves the fragment at the end. */
  lemma SpriteFragmentSurvives(digest: Digest)
    ensures var t := RemoveFirst(SpriteUrl("a#icon", digest), IconFragment);
            |t| >= 5 && t[|t| - 5..] == IconFragment
  {
    var y := "_" + digest + ".svg#icon";
    assert SpriteUrl("a#icon", digest) == "assets/svg/a" + IconFragment + y;
    RemoveFirstAfterPrefix("assets/svg/a", IconFragment, y);
    var t := "assets/svg/a" + y;
    assert t[|t| - 5..] == y[|y| - 5..];
  }

  /** A stem that itself contains `#icon` keeps the fragment on the copy target. */
  lemma SvgFragmentInStemSurvives(host: Host, regs: Registries, value: string)
    ensures var t := RemoveFirst(SvgUrl(host, regs, value, AssetData("a#icon.svg", "", "")).url, IconFragment);
            |t| >= 5 && t[|t| - 5..] == IconFragment
  {
    var digest := host.md5(value);
    assert SvgUrl(host, regs, value, AssetData("a#icon.svg", "", "")).url == SvgFileUrl("a#icon.svg", digest);
    StemWithFragment();
    assert SvgFileUrl("a#icon.svg", digest) == SpriteUrl("a#icon", digest);
    SpriteFragmentSurvives(digest);
  }

  // ---------------------------------------------------------------- cssUrl and jsUrl

  /** `site.name.urlify() + '-' + group`, the name a site group's stylesheet and script bundle share. */
  function BundleName(host: Host, siteName: string, group: string): string {
    host.urlify(siteName) + "-" + group
  }

  /** `cssUrl`: the stylesheet bundle URL. It takes no registries: nothing is recorded for copying. */
  function CssUrl(host: Host, d: BundleData): (url: string)
    ensures "css/" <= url && url[|url| - 4..] == ".css"
  {
    "css/" + BundleName(host, d.siteName, d.group) + ".css"
  }

  /** `'js/' + stem + '_' + digest + '.js'` for the linked script `path`. */
  function ScriptFileUrl(path: string, digest: Digest): string {
    ContentUrl("js/", Stem(path), digest, ".js")
  }

  /** A linked script's URL lies directly under `js/`, keeps the script's stem tagged with the digest, and has the extension `.js`. */
  lemma ScriptFileUrlParts(path: string, digest: Digest)
    ensures var url := ScriptFileUrl(path, digest);
      && url == "js/" + Basename(url)
      && Stem(url) == Stem(path) + "_" + digest
      && Extname(url) == ".js"
  {
    FixedExtensionsShaped();
    ContentUrlParts("js/", Stem(path), digest, ".js");
  }

  /**
    `jsUrl`, switched on `data.type`: a `bundle` is named like its stylesheet
    under `js/`; a `link` gets a content URL from its path and is registered in
    `assets`; any other type hands back the record's own `url` untouched.
   */
  function JsUrl(host: Host, regs: Registries, d: ScriptData): (r: Named<ScriptData>)
    ensures d.kind == "bundle" ==> "js/" <= r.url && r.url[|r.url| - 3..] == ".js" && r.data == d.(url := r.url) && r.regs == regs
    ensures d.kind == "link" ==>
      && r.url == ScriptFileUrl(d.path, host.md5(d.path))
      && r.data == d.(url := r.url)
      && r.regs.assets.Keys == regs.assets.Keys + {r.url} && r.regs.assets[r.url] == ScriptLink(r.data)
      && (forall k | k in regs.assets && k != r.url :: r.regs.assets[k] == regs.assets[k])
      && r.regs.images == regs.images && r.regs.svgs == regs.svgs
    ensures d.kind != "bundle" && d.kind != "link" ==> r.url == d.url && r.data == d && r.regs == regs
    ensures WellKeyed(regs) ==> WellKeyed(r.regs)
  {
    if d.kind == "bundle" then
      var url := "js/" + BundleName(host, d.siteName, d.group) + ".js";
      Named(url, d.(url := url), regs)
    else if d.kind == "link" then
      var data := d.(url := ScriptFileUrl(d.path, host.md5(d.path)));
      Named(data.url, data, RegisterAsset(regs, ScriptLink(data)))
    else
      Named(d.url, d, regs)
  }

  /**
    The URL `jsUrl` returns for a linked script, read back with Node's path
    rules: directly under `js/`, the script's stem tagged with the digest of
    its path, and the extension `.js`.
   */
  lemma JsLinkUrlShape(host: Host, regs: Registries, d: ScriptData)
    requires d.kind == "link"
    ensures var url := JsUrl(host, regs, d).url;
      && url == "js/" + Basename(url)
      && Stem(url) == Stem(d.path) + "_" + host.md5(d.path)
      && Extname(url) == ".js"
  {
    ScriptFileUrlParts(d.path, host.md5(d.path));
  }

  /** A site group's stylesheet and script bundle differ only in folder and extension. */
  lemma BundleUrlsShareName(host: Host, regs: Registries, siteName: string, group: string, path: string, url: string)
    ensures var css := CssUrl(host, BundleData(siteName, group));
            var js := JsUrl(host, regs, ScriptData("bundle", siteName, group, path, url)).url;
            css[4..|css| - 4] == js[3..|js| - 3] == BundleName(host, siteName, group)
  {
  }
}
