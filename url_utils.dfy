/** The base-URL helpers of website/src/utils/url.ts: pure string functions
    that join the site's base path with page slugs and asset paths. */
module UrlUtils {
  import opened Basics

  /** normalizeBase: the root base "/" becomes the empty base; any other
      base loses one trailing "/" (the `/\/$/` replacement), if it has one. */
  function NormalizeBase(baseUrl: string): (r: string)
    ensures baseUrl == "/" ==> r == ""
    ensures baseUrl != "/" ==> r <= baseUrl && |baseUrl| - 1 <= |r|
    ensures baseUrl != "/" && EndsWith(baseUrl, "/") ==> r + "/" == baseUrl
    ensures !EndsWith(baseUrl, "/") ==> r == baseUrl
  {
    if baseUrl == "/" then ""
    else if |baseUrl| > 0 && baseUrl[|baseUrl| - 1] == '/' then baseUrl[..|baseUrl| - 1]
    else baseUrl
  }

  /** Only a single trailing "/" is removed: "/docs//" normalises to "/docs/". */
  lemma RemovesOneSlashOnly()
    ensures NormalizeBase("/docs//") == "/docs/"
  {
  }

  /** buildAssetPath(base, assetPath): the base, one "/", then the asset path;
      an empty base acts as the root, so the result is "/" + assetPath. */
  function BuildAssetPath(base: string, assetPath: string): (r: string)
    ensures |r| == |base| + 1 + |assetPath|
    ensures StartsWith(r, base) && r[|base|] == '/' && EndsWith(r, assetPath)
    ensures base == "" ==> r == "/" + assetPath
  {
    if base != "" then base + "/" + assetPath else "/" + assetPath
  }

  /** buildHref(base, slug): without a slug (absent or empty) the href is the
      base itself, or "/" for the empty base; with a slug it is the asset path
      of the slug with a trailing "/" (a directory-style route). */
  function BuildHref(base: string, slug: Option<string>): (r: string)
    ensures (slug.None? || slug.value == "") ==> r == (if base == "" then "/" else base)
    ensures slug.Some? && slug.value != "" ==> EndsWith(r, "/")
    ensures slug.Some? && slug.value != "" && base == "" ==> r == "/" + slug.value + "/"
  {
    if slug.None? || slug.value == "" then
      (if base != "" then base else "/")
    else if base != "" then base + "/" + slug.value + "/"
    else "/" + slug.value + "/"
  }

  /** With a non-empty slug the page href and the asset path differ only by
      the trailing "/". */
  lemma HrefIsAssetPathWithSlash(base: string, slug: string)
    requires slug != ""
    ensures BuildHref(base, Some(slug)) == BuildAssetPath(base, slug) + "/"
  {
  }

  /** A non-empty href built from a normalised base always starts with "/"
      when the base was rooted at "/". */
  lemma HrefStartsWithSlash(baseUrl: string, slug: Option<string>)
    requires StartsWith(baseUrl, "/")
    ensures StartsWith(BuildHref(NormalizeBase(baseUrl), slug), "/")
  {
  }
}
