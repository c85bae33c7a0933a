/**
 * The plugin's settings, read with `settings.get(key, default)`, and the two
 * pure decisions made from them: which generators build cards, and the URL of
 * the portrait image.
 */
module Settings {
  import opened PyStrings

  /** Pelican's settings dictionary, split by the type of value each key holds. */
  datatype Settings = Settings(strings: map<string, string>, flags: map<string, bool>)

  function GetString(s: Settings, key: string, default: string): (r: string)
    ensures key in s.strings ==> r == s.strings[key]
    ensures key !in s.strings ==> r == default
  {
    if key in s.strings then s.strings[key] else default
  }

  function GetFlag(s: Settings, key: string, default: bool): (r: bool)
    ensures key in s.flags ==> r == s.flags[key]
    ensures key !in s.flags ==> r == default
  {
    if key in s.flags then s.flags[key] else default
  }

  const DEFAULT_SCOPE: string := "articles"

  function Scope(s: Settings): string {
    GetString(s, "SOCIAL_SCOPE", DEFAULT_SCOPE)
  }

  /** `build_social_pages_articles` goes on to build cards. */
  predicate BuildsArticles(s: Settings) {
    Scope(s) == "articles" || Scope(s) == "both"
  }

  /** `build_social_pages_pages` goes on to build cards. */
  predicate BuildsPages(s: Settings) {
    Scope(s) == "pages" || Scope(s) == "both"
  }

  /**
   * Scope dispatch: without a setting only articles get cards; "both" is the
   * only value that builds both; a value other than the three names builds nothing.
   */
  lemma ScopeDispatch(s: Settings)
    ensures "SOCIAL_SCOPE" !in s.strings ==> BuildsArticles(s) && !BuildsPages(s)
    ensures BuildsArticles(s) && BuildsPages(s) <==> Scope(s) == "both"
    ensures !BuildsArticles(s) && !BuildsPages(s) <==> Scope(s) !in {"articles", "pages", "both"}
  {
  }

  const CONTENT_PREFIX: string := "content/"

  /**
   * The site-relative URL of the portrait: a path under "content/" loses every
   * "content/" it contains, any other path loses its leading slashes; then a
   * single "/" is put in front.
   */
  function PortraitUrl(path: string): (url: string)
    ensures |url| >= 1 && url[0] == '/'
    ensures StartsWith(path, CONTENT_PREFIX) ==> url == "/" + RemoveAll(path[|CONTENT_PREFIX|..], CONTENT_PREFIX)
    ensures !StartsWith(path, CONTENT_PREFIX) ==>
      && |url| <= |path| + 1
      && url[1..] == path[|path| + 1 - |url|..]
      && (forall i :: 0 <= i < |path| + 1 - |url| ==> path[i] == '/')
      && (|url| == 1 || url[1] != '/')
  {
    if StartsWith(path, CONTENT_PREFIX) then "/" + RemoveAll(path, CONTENT_PREFIX)
    else "/" + LStripChar(path, '/')
  }

  function PortraitUrlOf(s: Settings): string {
    PortraitUrl(GetString(s, "SOCIAL_PORTRAIT_PATH", ""))
  }

  /** A path already written as a site URL ("/x", not "//x") is used as it is. */
  lemma {:induction false} PortraitUrlKeepsSiteUrl(path: string)
    requires |path| >= 1 && path[0] == '/'
    requires |path| == 1 || path[1] != '/'
    ensures PortraitUrl(path) == path
  {
    assert !StartsWith(path, CONTENT_PREFIX) by {
      assert path[0] != CONTENT_PREFIX[0];
    }
    assert LStripChar(path, '/') == path[1..] by {
      var rest := path[1..];
      assert rest == [] || rest[0] != '/';
      assert LStripChar(rest, '/') == rest;
    }
    assert "/" + path[1..] == path;
  }

  /** A path outside "content/" ends up with exactly one leading slash, so applying the rule again changes nothing. */
  lemma {:induction false} PortraitUrlIdempotentOutsideContent(path: string)
    requires !StartsWith(path, CONTENT_PREFIX)
    ensures PortraitUrl(PortraitUrl(path)) == PortraitUrl(path)
  {
    PortraitUrlKeepsSiteUrl(PortraitUrl(path));
  }

  /**
   * A relative path outside "content/" (the example configuration's
   * "static/images/portrait.jpg", say) is served from the site root as it is.
   */
  lemma PortraitUrlRelative(path: string)
    requires !StartsWith(path, CONTENT_PREFIX)
    requires path == [] || path[0] != '/'
    ensures PortraitUrl(path) == "/" + path
  {
    assert LStripChar(path, '/') == path;
  }

  /** A path made of "content/" and a rest that holds no further "content/" maps to "/" and that rest. */
  lemma PortraitUrlUnderContent(rest: string)
    requires !Occurs(CONTENT_PREFIX, rest)
    ensures PortraitUrl(CONTENT_PREFIX + rest) == "/" + rest
  {
    var path := CONTENT_PREFIX + rest;
    assert StartsWith(path, CONTENT_PREFIX);
    assert path[|CONTENT_PREFIX|..] == rest;
    RemoveAllAbsent(rest, CONTENT_PREFIX);
  }
}
