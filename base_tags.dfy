/** The site template tags (olyv/base/templatetags/base_tags.py): `get_env`, an environment lookup with static
    defaults for the site's image assets, and `title`, which builds the page's `<title>` element from a page
    title and the site name. The environment is a map from variable names to values, and `static` is the
    static URL prefix followed by the asset path. */
module BaseTags {
  import opened Common
  import Text

  /** The asset variables with a static default, and their paths under the static root. */
  const ASSET_DEFAULTS: map<string, string> := map[
    "SITE_LOGO" := "base/globals/logo.png",
    "SITE_FAVICON" := "base/globals/favicon.ico",
    "SITE_APPLE_TOUCH_ICON" := "base/globals/apple-touch-icon.png",
    "SITE_ANDROID_CHROME_ICON" := "base/globals/android-chrome-icon.png",
    "SITE_MS_TILE" := "base/globals/mstile.png",
    "SITE_HERO_1" := "base/sections/hero-1.jpg"]

  /** The default `get_env` falls back on: the asset's static URL, or "" for any other variable. */
  function DefaultFor(name: string, staticUrl: string): string
  {
    if name in ASSET_DEFAULTS then staticUrl + ASSET_DEFAULTS[name] else ""
  }

  /** The value `get_env` looks up: the variable's own value when it is set, else its default. */
  function Lookup(env: map<string, string>, staticUrl: string, name: string): string
  {
    if name in env then env[name] else DefaultFor(name, staticUrl)
  }

  /** `get_env`: the looked-up value with surrounding whitespace removed. */
  function GetEnv(env: map<string, string>, staticUrl: string, name: string): string
  {
    Text.Strip(Lookup(env, staticUrl, name))
  }

  /** Exactly six variables have a static default; an unset variable outside them reads as ""; a set variable
      reads as its stripped value, whatever its name; and the result never starts or ends with whitespace. */
  lemma GetEnvRules(env: map<string, string>, staticUrl: string, name: string)
    ensures |ASSET_DEFAULTS| == 6
    ensures name !in env && name !in ASSET_DEFAULTS ==> GetEnv(env, staticUrl, name) == ""
    ensures name in env ==> GetEnv(env, staticUrl, name) == Text.Strip(env[name])
    ensures name !in env && name in ASSET_DEFAULTS ==>
      GetEnv(env, staticUrl, name) == Text.Strip(staticUrl + ASSET_DEFAULTS[name])
    ensures var r := GetEnv(env, staticUrl, name);
      r == [] || (!Text.IsSpace(r[0]) && !Text.IsSpace(r[|r| - 1]))
  {
    AssetDefaultsCount();
    var v := Lookup(env, staticUrl, name);
    if name !in env && name !in ASSET_DEFAULTS {
      assert v == "";
      assert Text.StripLeft(v) == "";
    }
    Text.StripTrimsBothEnds(v);
  }

  lemma AssetDefaultsCount()
    ensures |ASSET_DEFAULTS| == 6
  {
    assert ASSET_DEFAULTS.Keys == {"SITE_LOGO", "SITE_FAVICON", "SITE_APPLE_TOUCH_ICON", "SITE_ANDROID_CHROME_ICON",
                                   "SITE_MS_TILE", "SITE_HERO_1"};
  }

  const DEFAULT_SEPARATOR := " | "

  /** The site name `title` reads: `SITE_NAME` with surrounding whitespace removed, "" when unset. */
  function SiteName(env: map<string, string>): string
  {
    Text.Strip(if "SITE_NAME" in env then env["SITE_NAME"] else "")
  }

  /** The site name is what `get_env("SITE_NAME")` reads, whatever the static prefix. */
  lemma SiteNameIsGetEnv(env: map<string, string>, staticUrl: string)
    ensures SiteName(env) == GetEnv(env, staticUrl, "SITE_NAME")
  {
    assert "SITE_NAME" !in ASSET_DEFAULTS;
  }

  /** A title that Python counts as true: present and non-empty. */
  predicate Given(t: Option<string>)
  {
    t.Some? && |t.value| > 0
  }

  /** The text inside the element: the page title (the argument when non-empty, else the context's
      `page_title`), the separator and the site name when that title is non-empty; else the site name alone. */
  function TitleContent(siteName: string, title: Option<string>, separator: string, pageTitle: Option<string>): string
  {
    var chosen := if Given(title) then title else pageTitle;
    if Given(chosen) then chosen.value + separator + siteName else siteName
  }

  /** `title`: the content wrapped in a `<title>` element, without escaping. */
  function TitleTag(env: map<string, string>, title: Option<string>, separator: string, pageTitle: Option<string>): string
  {
    "<title>" + TitleContent(SiteName(env), title, separator, pageTitle) + "</title>"
  }

  /** A non-empty title argument wins over the context's; a page title is followed by the separator and the
      site name; with no page title the content is the site name alone. */
  lemma TitleContentCases(siteName: string, title: Option<string>, separator: string, pageTitle: Option<string>)
    ensures Given(title) ==>
      TitleContent(siteName, title, separator, pageTitle) == title.value + separator + siteName
    ensures !Given(title) && Given(pageTitle) ==>
      TitleContent(siteName, title, separator, pageTitle) == pageTitle.value + separator + siteName
    ensures !Given(title) && !Given(pageTitle) ==>
      TitleContent(siteName, title, separator, pageTitle) == siteName
  {
    var site := siteName;
    if Given(title) {
      assert TitleContent(siteName, title, separator, pageTitle) == title.value + separator + site;
    } else if Given(pageTitle) {
      assert TitleContent(siteName, title, separator, pageTitle) == pageTitle.value + separator + site;
    } else {
      assert TitleContent(siteName, title, separator, pageTitle) == site;
    }
  }

  /** Whatever the titles, the content ends with the site name. */
  lemma TitleEndsWithSiteName(siteName: string, title: Option<string>, separator: string, pageTitle: Option<string>)
    ensures Text.IsSuffix(siteName, TitleContent(siteName, title, separator, pageTitle))
  {
    var chosen := if Given(title) then title else pageTitle;
    if Given(chosen) {
      EndsWith(chosen.value + separator, siteName);
    }
  }

  lemma EndsWith(front: string, back: string)
    ensures Text.IsSuffix(back, front + back)
  {
    assert (front + back)[|front|..] == back;
  }

  /** With the default separator and a non-empty title the element reads `<title>page | site</title>`. */
  lemma DefaultSeparatorTitle(env: map<string, string>, title: string, pageTitle: Option<string>)
    requires title != ""
    ensures TitleTag(env, Some(title), DEFAULT_SEPARATOR, pageTitle) == "<title>" + (title + " | " + SiteName(env)) + "</title>"
  {
    assert TitleContent(SiteName(env), Some(title), DEFAULT_SEPARATOR, pageTitle) == title + " | " + SiteName(env);
  }

  /** The element opens with `<title>`, closes with `</title>`, and holds exactly the content in between. */
  lemma TitleTagShape(env: map<string, string>, title: Option<string>, separator: string, pageTitle: Option<string>)
    ensures var tag := TitleTag(env, title, separator, pageTitle);
      Text.IsPrefix("<title>", tag) && Text.IsSuffix("</title>", tag)
      && tag[7..|tag| - 8] == TitleContent(SiteName(env), title, separator, pageTitle)
  {
    Wrapped(TitleContent(SiteName(env), title, separator, pageTitle));
  }

  lemma Wrapped(content: string)
    ensures var tag := "<title>" + content + "</title>";
      Text.IsPrefix("<title>", tag) && Text.IsSuffix("</title>", tag) && tag[7..|tag| - 8] == content
  {
    var tag := "<title>" + content + "</title>";
    assert tag[..7] == "<title>";
    assert tag[|tag| - 8..] == "</title>";
    assert tag[7..|tag| - 8] == content;
  }
}
