/** The API base URL of the web front end (services/apiBase.ts): read once
    from the environment, stripped of one trailing slash, and cached for the
    lifetime of the module. The environment variable is a parameter. */
module ApiBase {
  import opened Wrappers

  /** `raw.replace(/\/$/, "")`: the anchored pattern matches one "/" at the
      very end, so at most one character is removed. */
  function StripTrailingSlash(s: string): (r: string)
    ensures |s| > 0 && s[|s| - 1] == '/' ==> r == s[..|s| - 1]
    ensures (|s| == 0 || s[|s| - 1] != '/') ==> r == s
  {
    if |s| > 0 && s[|s| - 1] == '/' then s[..|s| - 1] else s
  }

  /** Stripping undoes appending a slash, and removes no more than one:
      "x//" becomes "x/". */
  lemma StripUndoesOneSlash(s: string)
    ensures StripTrailingSlash(s + "/") == s
    ensures StripTrailingSlash(s + "//") == s + "/"
  {
    assert (s + "//")[..|s| + 1] == s + "/";
  }

  /** The result ends in "/" only when the input ended in two slashes, so the
      normalisation is not idempotent. */
  lemma StripLeavesSlashOnlyFromDouble(s: string)
    ensures var r := StripTrailingSlash(s);
      (|r| > 0 && r[|r| - 1] == '/') <==> (|s| >= 2 && s[|s| - 1] == '/' && s[|s| - 2] == '/')
  {
  }

  /** The module-level `cachedBaseUrl`. */
  class BaseUrlCache {
    var cached: Option<string>

    constructor ()
      ensures cached == None
    {
      cached := None;
    }

    /** `getApiBaseUrl`. `env` is `process.env.NEXT_PUBLIC_API_BASE_URL`; an
        unset variable reads as "". The first call fixes the value, even when
        it is "", and later calls return it without reading `env`. */
    method GetApiBaseUrl(env: Option<string>) returns (url: string)
      modifies this
      ensures old(cached).Some? ==> url == old(cached).value && cached == old(cached)
      ensures old(cached).None? ==> url == StripTrailingSlash(env.GetOr("")) && cached == Some(url)
    {
      if cached.Some? {
        return cached.value;
      }
      var raw := if env.Some? then env.value else "";
      cached := Some(StripTrailingSlash(raw));
      url := cached.value;
    }
  }

  /** Two calls with different environments return the first call's value. */
  method TwoCalls(e1: Option<string>, e2: Option<string>) returns (first: string, second: string)
    ensures first == second == StripTrailingSlash(e1.GetOr(""))
  {
    var cache := new BaseUrlCache();
    first := cache.GetApiBaseUrl(e1);
    second := cache.GetApiBaseUrl(e2);
  }
}
