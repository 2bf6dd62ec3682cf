/** The helpers of Extensions.kt that decide something: the password rule and
    the URL `loadImage` hands to the image loader. `isValidEmail` relies on a
    platform regular expression and is a parameter wherever it is used. */
module Extensions {
  import opened Text
  import opened Net

  /** `String.isValidPassword()`. */
  predicate IsValidPassword(p: string) {
    |p| >= 6
  }

  /** The five-character password is the longest one refused. */
  lemma PasswordBoundary()
    ensures !IsValidPassword("abcde") && IsValidPassword("abcdef")
  {
  }

  /** What `loadImage` shows: the placeholder drawable, or a URL to load. */
  datatype ImageRef = Placeholder | Url(url: string)

  predicate IsAbsolute(path: string) {
    StartsWith(path, "http://") || StartsWith(path, "https://")
  }

  /** The base URL with one trailing "/" removed, followed by the path. */
  function PrefixBase(baseUrl: string, path: string): (url: string)
    ensures EndsWith(url, path)
    ensures EndsWith(baseUrl, "/") ==> url == baseUrl[..|baseUrl| - 1] + path
    ensures !EndsWith(baseUrl, "/") ==> url == baseUrl + path
  {
    var u := RemoveSuffix(baseUrl, "/") + path;
    assert u[|u| - |path|..] == path;
    u
  }

  /** The image `loadImage(imagePath)` shows, with BuildConfig.BASE_URL as
      `baseUrl`. */
  function ResolveImage(path: Option<string>, baseUrl: string): (r: ImageRef)
    ensures r.Placeholder? <==> path == None || path.value == []
    ensures r.Url? && IsAbsolute(path.value) ==> r.url == path.value
    ensures r.Url? && !IsAbsolute(path.value) ==> r.url == PrefixBase(baseUrl, path.value)
  {
    if path == None || path.value == [] then Placeholder
    else if IsAbsolute(path.value) then Url(path.value)
    else Url(PrefixBase(baseUrl, path.value))
  }

  /** A loaded URL always ends with the path it was resolved from. */
  lemma ResolvedEndsWithPath(path: Option<string>, baseUrl: string)
    requires ResolveImage(path, baseUrl).Url?
    ensures EndsWith(ResolveImage(path, baseUrl).url, path.value)
  {
  }

  /** Resolution does not depend on whether the base URL has its trailing "/". */
  lemma {:induction false} TrailingSlashIrrelevant(path: Option<string>, baseUrl: string)
    requires !EndsWith(baseUrl, "/")
    ensures ResolveImage(path, baseUrl + "/") == ResolveImage(path, baseUrl)
  {
    var b := baseUrl + "/";
    assert EndsWith(b, "/") by { assert b[|b| - 1..] == "/"; }
    assert RemoveSuffix(b, "/") == baseUrl;
  }
}
