/**
 * Where the client sends its requests: a base URL kept under
 * `@powermon_api_url`, overriding the build-time value
 * (`EXPO_PUBLIC_API_BASE`, then `extra.apiBase`, then ''). Every form of
 * the URL loses a single trailing '/'.
 */
module ApiConfig {
  import opened Common
  import opened Text
  import opened Js
  import opened Storage

  const ApiUrlKey := "@powermon_api_url"

  /**
   * The two build-time sources: `process.env.EXPO_PUBLIC_API_BASE` and
   * `Constants.expoConfig?.extra?.apiBase`; `None` is `undefined`.
   */
  datatype BuildConfig = BuildConfig(envBase: Option<string>, extraBase: Option<string>)

  predicate NonEmpty(o: Option<string>) { o.Some? && o.value != [] }

  /** `env || extra || ''`. */
  function EnvOrExtra(cfg: BuildConfig): (r: string)
    ensures NonEmpty(cfg.envBase) ==> r == cfg.envBase.value
    ensures !NonEmpty(cfg.envBase) && NonEmpty(cfg.extraBase) ==> r == cfg.extraBase.value
    ensures !NonEmpty(cfg.envBase) && !NonEmpty(cfg.extraBase) ==> r == []
  {
    if NonEmpty(cfg.envBase) then cfg.envBase.value
    else if NonEmpty(cfg.extraBase) then cfg.extraBase.value
    else []
  }

  /** `getDefaultApiUrl()`: the first non-empty build-time source, with one trailing '/' stripped. */
  function DefaultApiUrl(cfg: BuildConfig): (r: string)
    ensures NonEmpty(cfg.envBase) ==> r == StripTrailingSlash(cfg.envBase.value)
    ensures !NonEmpty(cfg.envBase) && NonEmpty(cfg.extraBase) ==> r == StripTrailingSlash(cfg.extraBase.value)
    ensures !NonEmpty(cfg.envBase) && !NonEmpty(cfg.extraBase) ==> r == []
  {
    StripTrailingSlash(EnvOrExtra(cfg))
  }

  /** `(env ?? extra ?? '').replace(/\/$/, '')`, the form one device card uses: an empty env is kept. */
  function CoalescedBase(cfg: BuildConfig): (r: string)
    ensures cfg.envBase.Some? ==> r == StripTrailingSlash(cfg.envBase.value)
    ensures cfg.envBase.None? && cfg.extraBase.Some? ==> r == StripTrailingSlash(cfg.extraBase.value)
    ensures cfg.envBase.None? && cfg.extraBase.None? ==> r == []
  {
    StripTrailingSlash(if cfg.envBase.Some? then cfg.envBase.value else cfg.extraBase.GetOr([]))
  }

  /**
   * The `??` and `||` forms differ exactly when the env value is present but
   * empty while `extra.apiBase` is non-empty (and not just "/").
   */
  lemma CoalescedDiffersFromDefault(cfg: BuildConfig)
    ensures CoalescedBase(cfg) != DefaultApiUrl(cfg) <==>
      cfg.envBase == Some([]) && StripTrailingSlash(cfg.extraBase.GetOr([])) != []
  {
  }

  /** `url.trim().replace(/\/$/, '')`: the value `setApiUrl` stores. */
  function CleanUrl(url: string): (r: string)
    ensures r == [] || !IsJsWhitespace(r[0])
    ensures |r| <= |url|
    ensures Trim(url) == r + "/" || r == Trim(url)
    ensures r == Trim(url) <==> Trim(url) == [] || Trim(url)[|Trim(url)| - 1] != '/'
  {
    StripTrailingSlash(Trim(url))
  }

  /** The override `getApiUrl` honours: a stored, non-empty string. */
  function Override(items: map<string, Json>, readFails: bool): (r: Option<string>)
    ensures r.Some? ==> r.value != [] && ReadOf(items, ApiUrlKey, readFails) == Present(Str(r.value))
    ensures r.None? ==> readFails || ApiUrlKey !in items || !Truthy(items[ApiUrlKey]) || !items[ApiUrlKey].Str?
  {
    match ReadOf(items, ApiUrlKey, readFails)
    case Present(Str(s)) => if s != [] then Some(s) else None
    case _ => None
  }

  /**
   * What `getApiUrl()` returns: the stored override with one trailing '/'
   * stripped, or else (nothing stored, an empty value, a read error) the default.
   */
  function ResolvedUrl(items: map<string, Json>, cfg: BuildConfig, readFails: bool): (r: string)
    ensures Override(items, readFails).Some? ==> r == StripTrailingSlash(Override(items, readFails).value)
    ensures Override(items, readFails).None? ==> r == DefaultApiUrl(cfg)
  {
    match Override(items, readFails)
    case Some(s) => StripTrailingSlash(s)
    case None => DefaultApiUrl(cfg)
  }

  /** `getApiUrl()`; it never rejects (a storage error is caught). */
  method GetApiUrl(store: KeyValueStore, cfg: BuildConfig, readFails: bool) returns (url: string)
    ensures url == ResolvedUrl(store.items, cfg, readFails)
  {
    var stored := store.GetItem(ApiUrlKey, readFails);
    if stored.Present? && stored.value.Str? && stored.value.s != [] {
      return StripTrailingSlash(stored.value.s);
    }
    url := DefaultApiUrl(cfg);
  }

  /** `setApiUrl(url)`: stores the cleaned URL and reports `success`; a storage error gives `success: false`. */
  method SetApiUrl(store: KeyValueStore, url: string, writeFails: bool) returns (success: bool)
    modifies store
    ensures success == !writeFails
    ensures store.items == if writeFails then old(store.items) else old(store.items)[ApiUrlKey := Str(CleanUrl(url))]
  {
    success := store.SetItem(ApiUrlKey, Str(CleanUrl(url)), writeFails);
  }

  /** `clearApiUrl()`: removes the override; a storage error gives `success: false`. */
  method ClearApiUrl(store: KeyValueStore, removeFails: bool) returns (success: bool)
    modifies store
    ensures success == !removeFails
    ensures store.items == if removeFails then old(store.items) else old(store.items) - {ApiUrlKey}
  {
    success := store.RemoveItem(ApiUrlKey, removeFails);
  }

  /**
   * After `setApiUrl(u)`, `getApiUrl()` yields the cleaned `u` stripped once
   * more, and the default when the cleaned `u` is empty.
   */
  lemma ResolvedAfterSet(items: map<string, Json>, cfg: BuildConfig, url: string)
    ensures ResolvedUrl(items[ApiUrlKey := Str(CleanUrl(url))], cfg, false) ==
      if CleanUrl(url) == [] then DefaultApiUrl(cfg) else StripTrailingSlash(CleanUrl(url))
  {
  }

  /** When the trimmed input does not end in "//", `getApiUrl()` returns exactly the cleaned input. */
  lemma ResolvedAfterSetIsClean(items: map<string, Json>, cfg: BuildConfig, url: string)
    requires CleanUrl(url) != []
    requires |Trim(url)| < 2 || Trim(url)[|Trim(url)| - 2..] != "//"
    ensures ResolvedUrl(items[ApiUrlKey := Str(CleanUrl(url))], cfg, false) == CleanUrl(url)
  {
    StripIdempotentWithoutDoubleSlash(Trim(url));
  }

  /** A trimmed input ending in "//" loses two slashes: once when stored and once when read. */
  lemma ResolvedAfterSetStripsTwice(items: map<string, Json>, cfg: BuildConfig, url: string)
    requires |Trim(url)| >= 3 && Trim(url)[|Trim(url)| - 2..] == "//"
    ensures ResolvedUrl(items[ApiUrlKey := Str(CleanUrl(url))], cfg, false) == Trim(url)[..|Trim(url)| - 2]
    ensures ResolvedUrl(items[ApiUrlKey := Str(CleanUrl(url))], cfg, false) != CleanUrl(url)
  {
    var t := Trim(url);
    assert t[|t| - 1] == '/' && t[|t| - 2] == '/';
    assert CleanUrl(url) == t[..|t| - 1];
    assert CleanUrl(url) != [] && CleanUrl(url)[|CleanUrl(url)| - 1] == '/';
  }

  /** After `clearApiUrl()`, `getApiUrl()` is the default. */
  lemma ResolvedAfterClear(items: map<string, Json>, cfg: BuildConfig)
    ensures ResolvedUrl(items - {ApiUrlKey}, cfg, false) == DefaultApiUrl(cfg)
  {
  }

  /** A storage read error makes `getApiUrl()` the default whatever is stored. */
  lemma ResolvedOnReadError(items: map<string, Json>, cfg: BuildConfig)
    ensures ResolvedUrl(items, cfg, true) == DefaultApiUrl(cfg)
  {
  }

  /** Items under other keys do not change the resolved URL. */
  lemma ResolvedIgnoresOtherKeys(items: map<string, Json>, cfg: BuildConfig, key: string, value: Json, readFails: bool)
    requires key != ApiUrlKey
    ensures ResolvedUrl(items[key := value], cfg, readFails) == ResolvedUrl(items, cfg, readFails)
  {
    assert ReadOf(items[key := value], ApiUrlKey, readFails) == ReadOf(items, ApiUrlKey, readFails);
  }
}
