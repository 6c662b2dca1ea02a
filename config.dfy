/** Resolution of the API base URL from the build environment (todo_frontend/src/config.js). */
module Config {
  import opened Wrappers
  import opened Text

  /** The two environment variables the client consults, each possibly unset. */
  datatype Env = Env(apiBase: Option<string>, backendUrl: Option<string>)

  /** JavaScript truthiness of an optional string: unset and "" are both falsy. */
  predicate Truthy(v: Option<string>) {
    v.Some? && v.value != ""
  }

  /** `REACT_APP_API_BASE || REACT_APP_BACKEND_URL || ""`. */
  function Preferred(env: Env): (v: string)
    ensures v == "" <==> !Truthy(env.apiBase) && !Truthy(env.backendUrl)
    ensures Truthy(env.apiBase) ==> v == env.apiBase.value
    ensures !Truthy(env.apiBase) && v != "" ==> v == env.backendUrl.value
  {
    if Truthy(env.apiBase) then env.apiBase.value
    else if Truthy(env.backendUrl) then env.backendUrl.value
    else ""
  }

  predicate AllSlashes(s: string) {
    forall i :: 0 <= i < |s| ==> s[i] == '/'
  }

  /**
   * `s.replace(/\/+$/, "")`: removes the maximal run of `/` at the end of `s`.
   * What is removed is all slashes, and what is left does not end in one.
   */
  function StripTrailingSlashes(s: string): (r: string)
    ensures |r| <= |s| && r == s[..|r|]
    ensures AllSlashes(s[|r|..])
    ensures r == [] || r[|r| - 1] != '/'
    decreases |s|
  {
    if s != [] && s[|s| - 1] == '/' then
      var r := StripTrailingSlashes(s[..|s| - 1]);
      assert s[|r|..] == s[..|s| - 1][|r|..] + ['/'];
      r
    else
      s
  }

  /** `getApiBaseUrl()`: the preferred variable, trimmed, without trailing slashes; "" means unconfigured. */
  function GetApiBaseUrl(env: Env): (base: string)
    ensures base == [] || base[|base| - 1] != '/'
    ensures var trimmed := Trim(Preferred(env));
              |base| <= |trimmed| && trimmed == base + trimmed[|base|..] && AllSlashes(trimmed[|base|..])
  {
    var trimmed := Trim(Preferred(env));
    var base := StripTrailingSlashes(trimmed);
    assert trimmed == base + trimmed[|base|..];
    base
  }

  /** A set REACT_APP_API_BASE decides the result alone, whatever REACT_APP_BACKEND_URL holds. */
  lemma ApiBaseWins(a: string, b: Option<string>)
    requires a != ""
    ensures GetApiBaseUrl(Env(Some(a), b)) == GetApiBaseUrl(Env(Some(a), None))
    ensures GetApiBaseUrl(Env(Some(a), b)) == StripTrailingSlashes(Trim(a))
  {
  }

  /** A REACT_APP_API_BASE of white space only still wins, and leaves the client unconfigured. */
  lemma BlankApiBaseShadowsBackend(a: string, b: Option<string>)
    requires a != "" && AllSpace(a)
    ensures GetApiBaseUrl(Env(Some(a), b)) == ""
  {
  }

  /** REACT_APP_BACKEND_URL is consulted only when REACT_APP_API_BASE is unset or empty. */
  lemma BackendFallback(a: Option<string>, b: Option<string>)
    requires !Truthy(a)
    ensures GetApiBaseUrl(Env(a, b)) == GetApiBaseUrl(Env(None, b))
    ensures Truthy(b) ==> GetApiBaseUrl(Env(a, b)) == StripTrailingSlashes(Trim(b.value))
    ensures !Truthy(b) ==> GetApiBaseUrl(Env(a, b)) == ""
  {
  }

  /** The client is unconfigured exactly when the trimmed preferred value is slashes only (or empty). */
  lemma UnconfiguredIff(env: Env)
    ensures GetApiBaseUrl(env) == "" <==> AllSlashes(Trim(Preferred(env)))
  {
  }

  /** Normalising an already normalised base changes nothing. */
  lemma StripIdempotent(s: string)
    ensures StripTrailingSlashes(StripTrailingSlashes(s)) == StripTrailingSlashes(s)
  {
  }
}
