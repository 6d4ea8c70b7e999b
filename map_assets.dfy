/**
 * The map-image part of the scraper that does not touch pixels: making a
 * map `src` absolute, deriving the texture's file name from the URL, and
 * the store of converted textures that `download_and_convert_map` consults
 * before downloading.
 */
module MapAssets {
  import opened Wrappers
  import opened Text

  const BaseUrl := "https://housing.wowdb.com"

  /** The addon-relative directory of the textures; the logical path omits
      the `.tga` extension, which the game adds. */
  const AddonTextureDir := "Interface\\AddOns\\HousingItemTracker\\textures\\vendor_maps\\"

  predicate IsSuffix(t: string, s: string) { |t| <= |s| && s[|s| - |t|..] == t }

  /** The rule in `parse_vendor_div` that makes a map image's `src` absolute. */
  function AbsoluteMapUrl(src: string): (url: string)
    ensures src == [] || IsPrefix("http", src) ==> url == src
    ensures src != [] && !IsPrefix("http", src) ==> IsPrefix("https://", url)
    ensures IsSuffix(src, url)
    ensures IsPrefix("//", src) ==> url == "https://" + src[2..]
    ensures src != [] && !IsPrefix("http", src) && !IsPrefix("//", src) ==>
              url == BaseUrl + "/" + (if src[0] == '/' then src[1..] else src)
  {
    if src == [] || IsPrefix("http", src) then
      assert src != [] ==> src[0] == src[..4][0] == 'h';
      src
    else if IsPrefix("//", src) then
      assert src == "//" + src[2..];
      assert "https:" + src == "https://" + src[2..];
      "https:" + src
    else if IsPrefix("/", src) then BaseUrl + src
    else BaseUrl + "/" + src
  }

  /** Making a URL absolute twice changes nothing more. */
  lemma AbsoluteMapUrlIdempotent(src: string)
    ensures AbsoluteMapUrl(AbsoluteMapUrl(src)) == AbsoluteMapUrl(src)
  {
    var u := AbsoluteMapUrl(src);
    if src != [] && !IsPrefix("http", src) {
      assert u[..4] == "https://"[..4];
    }
  }

  // ---------------------------------------------------------------------
  // File names

  /** `url.split('/')[-1]`: what follows the last slash. */
  function LastSegment(url: string): (seg: string)
    ensures '/' !in seg && IsSuffix(seg, url)
    ensures |seg| < |url| ==> url[|url| - |seg| - 1] == '/'
  {
    match LastIndexOf(url, '/')
    case None => url
    case Some(k) => url[k + 1..]
  }

  /** `seg.rsplit('.', 1)[0]`: everything before the last dot, or all of
      `seg` when it holds no dot. */
  function WithoutExtension(seg: string): (base: string)
    ensures IsPrefix(base, seg)
    ensures '.' !in seg ==> base == seg
    ensures '.' in seg ==> |base| < |seg| && seg[|base|] == '.' && '.' !in seg[|base| + 1..]
  {
    match LastIndexOf(seg, '.')
    case None => seg
    case Some(k) => seg[..k]
  }

  /** A character that `re.sub(r'[^\w\s-]', '_', ...)` leaves alone. */
  predicate IsSafeChar(c: char) { IsWordChar(c) || IsSpace(c) || c == '-' }

  /** `re.sub(r'[^\w\s-]', '_', s)`: each other character becomes `_`,
      one for one. */
  function Sanitise(s: string): (r: string)
    ensures |r| == |s|
    ensures forall k :: 0 <= k < |s| ==> r[k] == if IsSafeChar(s[k]) then s[k] else '_'
  {
    seq(|s|, k requires 0 <= k < |s| => if IsSafeChar(s[k]) then s[k] else '_')
  }

  /** A character of a derived name: a safe one, and not upper-case. */
  predicate IsNameChar(c: char) { IsSafeChar(c) && !('A' <= c <= 'Z') }

  /** `lower(sanitise(s))`, one character for one. */
  function SafeLower(s: string): (r: string)
    ensures |r| == |s| && forall k :: 0 <= k < |r| ==> IsNameChar(r[k])
    ensures forall k :: 0 <= k < |s| && IsNameChar(s[k]) ==> r[k] == s[k]
    ensures forall k :: 0 <= k < |s| ==> r[k] == LowerChar(if IsSafeChar(s[k]) then s[k] else '_')
  {
    var r := Lower(Sanitise(s));
    assert forall k :: 0 <= k < |r| ==> r[k] == LowerChar(Sanitise(s)[k]);
    r
  }

  /** The texture's name, derived from the image URL alone:
      `map_` + lower(sanitise(last segment without its extension)). */
  function DerivedName(url: string): (name: string)
    ensures IsPrefix("map_", name)
    ensures |name| == 4 + |WithoutExtension(LastSegment(url))|
    ensures forall k :: 0 <= k < |name| ==> IsNameChar(name[k])
    ensures '/' !in name && '.' !in name
    ensures name == "map_" + SafeLower(WithoutExtension(LastSegment(url)))
  {
    var name := "map_" + SafeLower(WithoutExtension(LastSegment(url)));
    assert forall k :: 0 <= k < |name| ==> IsNameChar(name[k]) by {
      forall k | 0 <= k < |name| ensures IsNameChar(name[k]) {
        if k < 4 {
          assert name[k] == "map_"[k];
        }
      }
    }
    assert !IsNameChar('/') && !IsNameChar('.');
    name
  }

  /** The texture of a map image `<dir>/<base>.<ext>`, with no slash or dot
      in `base` nor in `ext`, is named after `base` alone. */
  lemma DerivedNameOfFile(dir: string, base: string, ext: string)
    requires dir != [] && dir[|dir| - 1] == '/' && '/' !in base && '/' !in ext && '.' !in ext
    ensures DerivedName(dir + base + "." + ext) == "map_" + SafeLower(base)
  {
    assert dir + base + "." + ext == dir + (base + "." + ext);
    assert '/' !in base + "." + ext;
    LastSegmentAfterSlash(dir, base + "." + ext);
    WithoutExtensionOf(base, ext);
  }

  /** The worked example beside the name's derivation: the zone map
      `2351_Razorwind_Shores.jpg` is stored as `map_2351_razorwind_shores`. */
  lemma SafeLowerExample()
    ensures SafeLower("2351_Razorwind_Shores") == "2351_razorwind_shores"
  {
    var r := SafeLower("2351_Razorwind_Shores");
    assert forall k :: 0 <= k < |r| ==> r[k] == "2351_razorwind_shores"[k];
  }

  /** The last segment of a path ending in a slash and then a slash-free `seg` is `seg`. */
  lemma LastSegmentAfterSlash(dir: string, seg: string)
    requires dir != [] && dir[|dir| - 1] == '/' && '/' !in seg
    ensures LastSegment(dir + seg) == seg
  {
    var url := dir + seg;
    assert url[|dir| - 1] == '/';
    var k := LastIndexOf(url, '/').value;
    assert url[k + 1..] == seg;
  }

  /** Removing the extension of `base` + `.` + a dot-free `ext` gives `base`. */
  lemma WithoutExtensionOf(base: string, ext: string)
    requires '.' !in ext
    ensures WithoutExtension(base + "." + ext) == base
  {
    var seg := base + "." + ext;
    assert seg[|base|] == '.';
    var k := LastIndexOf(seg, '.').value;
    assert seg[..k] == base;
  }

  /** Sanitising and lower-casing is a projection: applied to its own
      result it changes nothing. */
  lemma SafeLowerIdempotent(s: string)
    ensures SafeLower(SafeLower(s)) == SafeLower(s)
  {
    var t := SafeLower(s);
    assert forall k :: 0 <= k < |t| ==> SafeLower(t)[k] == t[k];
  }

  /** The file the converted texture is stored in. */
  function TextureFile(name: string): string { name + ".tga" }

  /** The logical path handed to the addon. */
  function LogicalPath(name: string): string { AddonTextureDir + name }

  // ---------------------------------------------------------------------
  // The store

  /** What one call of `download_and_convert_map` does to the store:
      the path it returns, the files present afterwards, and whether it
      issued a download. */
  datatype Resolution = Resolution(path: Option<string>, files: set<string>, fetched: bool)

  /** `download_and_convert_map` on a store holding `files`. `fetchOk` says
      whether downloading, decoding, converting and saving the image at a
      URL succeeds. */
  function ResolveMap(files: set<string>, mapUrl: string, fetchOk: string -> bool): (r: Resolution)
    ensures mapUrl == [] ==> r == Resolution(None, files, false)
    ensures r.fetched <==> mapUrl != [] && TextureFile(DerivedName(mapUrl)) !in files
    ensures r.fetched ==> (r.path.Some? <==> fetchOk(mapUrl))
    ensures mapUrl != [] && TextureFile(DerivedName(mapUrl)) in files ==> r.path.Some?
    ensures r.path.Some? ==> r.path.value == LogicalPath(DerivedName(mapUrl)) && TextureFile(DerivedName(mapUrl)) in r.files
    ensures r.files == if r.fetched && r.path.Some? then files + {TextureFile(DerivedName(mapUrl))} else files
  {
    if mapUrl == [] then Resolution(None, files, false)
    else
      var name := DerivedName(mapUrl);
      if TextureFile(name) in files then Resolution(Some(LogicalPath(name)), files, false)
      else if fetchOk(mapUrl) then Resolution(Some(LogicalPath(name)), files + {TextureFile(name)}, true)
      else Resolution(None, files, true)
  }

  /** Once a call has produced a texture, calling again with the same URL
      downloads nothing and returns the identical path, whatever the
      network would do the second time. */
  lemma RepeatedCallIsCached(files: set<string>, mapUrl: string, fetchOk: string -> bool, fetchOkLater: string -> bool)
    requires ResolveMap(files, mapUrl, fetchOk).path.Some?
    ensures var first := ResolveMap(files, mapUrl, fetchOk);
            ResolveMap(first.files, mapUrl, fetchOkLater) == Resolution(first.path, first.files, false)
  {
  }

  /** The cache is keyed by the derived name, not by the image: two URLs
      whose last segments agree up to the extension share one texture. */
  lemma SameBaseNameSharesTexture(files: set<string>, u1: string, u2: string, fetchOk: string -> bool)
    requires u1 != [] && u2 != []
    requires WithoutExtension(LastSegment(u1)) == WithoutExtension(LastSegment(u2))
    requires ResolveMap(files, u1, fetchOk).path.Some?
    ensures var first := ResolveMap(files, u1, fetchOk);
            ResolveMap(first.files, u2, fetchOk) == Resolution(first.path, first.files, false)
  {
  }

  /** The texture store: the file names present in the texture directory
      and the number of image downloads issued so far. */
  class AssetStore {
    var files: set<string>
    var fetches: nat

    constructor (existing: set<string>)
      ensures files == existing && fetches == 0
    {
      files := existing;
      fetches := 0;
    }

    /** `download_and_convert_map`. Its vendor-name and location arguments
        are unused by the source and left out. */
    method DownloadAndConvertMap(mapUrl: string, fetchOk: string -> bool) returns (path: Option<string>)
      modifies this
      ensures var r := ResolveMap(old(files), mapUrl, fetchOk);
              path == r.path && files == r.files && fetches == old(fetches) + (if r.fetched then 1 else 0)
    {
      if mapUrl == [] {
        return None;
      }
      var name := DerivedName(mapUrl);
      var file := TextureFile(name);
      if file in files {
        return Some(LogicalPath(name));
      }
      fetches := fetches + 1;
      if fetchOk(mapUrl) {
        files := files + {file};
        path := Some(LogicalPath(name));
      } else {
        path := None;
      }
    }
  }
}
