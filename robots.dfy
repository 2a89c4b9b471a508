/**
 * The crawler rules served at `/robots.txt` (apps/web/src/app/robots.ts).
 * The site's base URL comes from the environment and is a parameter here.
 */
module Robots {
  import opened Wrappers
  import opened Strings

  const DefaultBaseUrl := "http://localhost:3000"

  datatype Rules = Rules(userAgent: string, allow: string)

  datatype RobotsFile = RobotsFile(rules: Rules, sitemap: string)

  /** The configured base URL, or the default when it is unset or empty, with one trailing `/` removed. */
  function BaseUrl(env: Option<string>): (base: string)
    ensures base == DefaultBaseUrl ||
            (env.Some? && StartsWith(env.value, base) && |base| + 1 >= |env.value|)
  {
    var raw := if env.Some? && env.value != "" then env.value else DefaultBaseUrl;
    if EndsWith(raw, "/") then raw[..|raw| - 1] else raw
  }

  /** `robots()`. */
  function RobotsFor(env: Option<string>): (file: RobotsFile)
    ensures file.rules.userAgent == "*" && file.rules.allow == "/"
    ensures EndsWith(file.sitemap, "/sitemap.xml")
  {
    RobotsFile(Rules("*", "/"), BaseUrl(env) + "/sitemap.xml")
  }

  /**
   * Without a usable setting the base is the default; otherwise it is the
   * setting, less one trailing slash; exactly one slash is removed, so a
   * base that did not end in `//` no longer ends in `/`.
   */
  lemma BaseUrlNormalised(env: Option<string>)
    ensures env.None? || env == Some("") ==> BaseUrl(env) == DefaultBaseUrl
    ensures env.Some? && env.value != "" && !EndsWith(env.value, "/") ==> BaseUrl(env) == env.value
    ensures env.Some? && env.value != "" && EndsWith(env.value, "/") ==> BaseUrl(env) + "/" == env.value
    ensures env.Some? && !EndsWith(env.value, "//") ==> !EndsWith(BaseUrl(env), "/")
  {
    if env.Some? && env.value != "" && EndsWith(env.value, "/") {
      var raw := env.value;
      assert raw[..|raw| - 1] + "/" == raw by {
        assert raw[|raw| - 1..] == "/";
      }
      if |raw| >= 2 && raw[|raw| - 2] == '/' {
        assert raw[|raw| - 2..] == "//";
      }
    }
  }

  /** A setting of a lone `/` leaves an empty base, so the sitemap becomes the relative `/sitemap.xml`. */
  lemma LoneSlashBase()
    ensures BaseUrl(Some("/")) == "" && RobotsFor(Some("/")).sitemap == "/sitemap.xml"
  {
    assert EndsWith("/", "/");
  }

  /** Normalising a normalised base changes nothing, so the sitemap URL has no doubled slash before the file. */
  lemma BaseUrlIdempotent(env: Option<string>)
    requires env.Some? ==> !EndsWith(env.value, "//") && env.value != "/"
    ensures BaseUrl(Some(BaseUrl(env))) == BaseUrl(env)
    ensures RobotsFor(env).sitemap == BaseUrl(env) + "/sitemap.xml"
    ensures RobotsFor(env).rules == Rules("*", "/")
  {
    BaseUrlNormalised(env);
  }
}
