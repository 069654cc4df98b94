/**
 * The API settings screen: it shows the URL `getApiUrl()` resolves to,
 * validates an edited URL before `setApiUrl` stores it, and resets to the
 * build-time default after a confirmation.
 */
module ApiSettings {
  import opened Common
  import opened Text
  import opened Js
  import opened Storage
  import opened ApiConfig
  import opened Ui

  const BlankMessage := "Please enter a valid API URL"
  const SchemeMessage := "URL must start with http:// or https://"
  const SavedMessage := "API URL has been updated. Please restart the app for changes to take full effect."
  const SaveFailedMessage := "Failed to save API URL. Please try again."
  const ResetMessage := "API URL has been reset to default."

  /** `currentUrl || defUrl`: the text the field is loaded with. */
  function LoadedText(items: map<string, Json>, cfg: BuildConfig, readFails: bool): (r: string)
    ensures ResolvedUrl(items, cfg, readFails) != [] ==> r == ResolvedUrl(items, cfg, readFails)
    ensures ResolvedUrl(items, cfg, readFails) == [] ==> r == DefaultApiUrl(cfg)
  {
    var current := ResolvedUrl(items, cfg, readFails);
    if current != [] then current else DefaultApiUrl(cfg)
  }

  /** A stored "/" resolves to "", so the field shows the default instead. */
  lemma StoredSlashShowsDefault(items: map<string, Json>, cfg: BuildConfig)
    requires ApiUrlKey in items && items[ApiUrlKey] == Str("/")
    ensures ResolvedUrl(items, cfg, false) == []
    ensures LoadedText(items, cfg, false) == DefaultApiUrl(cfg)
  {
    assert StripTrailingSlash("/") == [];
  }

  /** The validation `handleSave` applies, in its order; `None` lets the save go ahead. */
  function Rejection(apiUrl: string): (r: Option<string>)
    ensures r == Some(BlankMessage) <==> AllWhitespace(apiUrl)
    ensures r == Some(SchemeMessage) <==>
      !AllWhitespace(apiUrl) && !StartsWith(apiUrl, "http://") && !StartsWith(apiUrl, "https://")
    ensures r.None? <==> !AllWhitespace(apiUrl) && (StartsWith(apiUrl, "http://") || StartsWith(apiUrl, "https://"))
  {
    TrimEmptyIffBlank(apiUrl);
    if Trim(apiUrl) == [] then Some(BlankMessage)
    else if !StartsWith(apiUrl, "http://") && !StartsWith(apiUrl, "https://") then Some(SchemeMessage)
    else None
  }

  /**
   * The scheme test looks at the untrimmed text, so a URL with leading
   * whitespace is refused even though `setApiUrl` would have trimmed it.
   */
  lemma LeadingSpaceIsRefused(url: string)
    requires StartsWith(url, "https://")
    ensures Rejection(" " + url) == Some(SchemeMessage)
  {
    assert (" " + url)[0] == ' ';
    assert !AllWhitespace(" " + url) by {
      assert (" " + url)[1] == 'h';
    }
  }

  lemma TrimStartOfVisible(s: string)
    requires s != [] && !IsJsWhitespace(s[0])
    ensures TrimStart(s) == s
  {
  }

  /**
   * A scheme-prefixed URL with more after its scheme is stored with the
   * scheme intact: trimming and the slash strip only touch its end.
   */
  lemma StoredUrlKeepsScheme(url: string, scheme: string)
    requires scheme != [] && !IsJsWhitespace(scheme[0])
    requires StartsWith(url, scheme) && |Trim(url)| > |scheme|
    ensures StartsWith(CleanUrl(url), scheme)
  {
    assert url[0] == scheme[0];
    TrimStartOfVisible(url);
    var t := TrimEnd(url);
    assert Trim(url) == t;
    var c := StripTrailingSlash(t);
    StripRemovesAtMostOneSlash(t);
    assert CleanUrl(url) == c;
    forall k | 0 <= k < |scheme|
      ensures c[k] == scheme[k]
    {
      assert c[k] == t[k];
      assert t[k] == url[k];
    }
  }

  /** A bare scheme passes validation but is stored as "http:/", which no longer passes it. */
  lemma BareSchemeLosesSlash()
    ensures Rejection("http://") == None
    ensures CleanUrl("http://") == "http:/"
    ensures Rejection(CleanUrl("http://")) == Some(SchemeMessage)
  {
    var u := "http://";
    assert u[0] == 'h' && u[|u| - 1] == '/';
    TrimStartOfVisible(u);
    assert TrimEnd(u) == u;
    assert Trim(u) == u;
    assert StripTrailingSlash(u) == u[..|u| - 1];
    assert u[..|u| - 1] == "http:/";
    assert !AllWhitespace(u);
  }

  /** The alert `handleSave()` raises: the validation error, or how `setApiUrl` went. */
  function SaveAlert(apiUrl: string, writeFails: bool): (a: Alert)
    ensures Rejection(apiUrl).Some? ==> a == Alert("Error", Rejection(apiUrl).value)
    ensures Rejection(apiUrl).None? ==> a == (if writeFails then Alert("Error", SaveFailedMessage) else Alert("Success", SavedMessage))
    ensures a.title == "Success" <==> Rejection(apiUrl).None? && !writeFails
  {
    match Rejection(apiUrl)
    case Some(message) => Alert("Error", message)
    case None => if writeFails then Alert("Error", SaveFailedMessage) else Alert("Success", SavedMessage)
  }

  /** The store after `handleSave()`: the cleaned URL when it passed validation and the write succeeded. */
  function SavedItems(items: map<string, Json>, apiUrl: string, writeFails: bool): (r: map<string, Json>)
    ensures Rejection(apiUrl).Some? || writeFails ==> r == items
    ensures Rejection(apiUrl).None? && !writeFails ==> r == items[ApiUrlKey := Str(CleanUrl(apiUrl))]
  {
    if Rejection(apiUrl).None? && !writeFails then items[ApiUrlKey := Str(CleanUrl(apiUrl))] else items
  }

  /**
   * After a successful save, `getApiUrl()` resolves to the cleaned URL with
   * one more trailing '/' stripped; a validated URL never cleans to "".
   */
  lemma SaveThenResolve(items: map<string, Json>, cfg: BuildConfig, apiUrl: string, writeFails: bool)
    requires SaveAlert(apiUrl, writeFails).title == "Success"
    ensures CleanUrl(apiUrl) != []
    ensures ResolvedUrl(SavedItems(items, apiUrl, writeFails), cfg, false) == StripTrailingSlash(CleanUrl(apiUrl))
  {
    ResolvedAfterSet(items, cfg, apiUrl);
    assert apiUrl[0] == 'h';
    TrimStartOfVisible(apiUrl);
  }

  class Screen {
    /** The text field. */
    var apiUrl: string
    var loading: bool
    var saving: bool
    var defaultUrl: string
    /** Every alert shown so far, oldest first. */
    var alerts: seq<Alert>
    const store: KeyValueStore
    const cfg: BuildConfig

    /** The initial state, before the mount effect's `loadCurrentUrl()`. */
    constructor (store: KeyValueStore, cfg: BuildConfig)
      ensures this.store == store && this.cfg == cfg
      ensures apiUrl == [] && loading && !saving && defaultUrl == [] && alerts == []
    {
      this.store := store;
      this.cfg := cfg;
      apiUrl := [];
      loading := true;
      saving := false;
      defaultUrl := [];
      alerts := [];
    }

    /** `loadCurrentUrl()`: `getApiUrl()` never rejects, so the field and the default are always set. */
    method LoadCurrentUrl(readFails: bool)
      modifies this`apiUrl, this`loading, this`defaultUrl
      ensures apiUrl == LoadedText(store.items, cfg, readFails)
      ensures defaultUrl == DefaultApiUrl(cfg) && !loading
    {
      loading := true;
      var current := GetApiUrl(store, cfg, readFails);
      var defUrl := DefaultApiUrl(cfg);
      apiUrl := if current != [] then current else defUrl;
      defaultUrl := defUrl;
      loading := false;
    }

    /** Typing into the field. */
    method Edit(text: string)
      modifies this`apiUrl
      ensures apiUrl == text
    {
      apiUrl := text;
    }

    /**
     * `handleSave()`: the alert `SaveAlert` describes and the store
     * `SavedItems` describes; `saving` ends false whenever the save went ahead.
     */
    method HandleSave(writeFails: bool)
      modifies this`saving, this`alerts, store
      ensures alerts == old(alerts) + [SaveAlert(old(apiUrl), writeFails)]
      ensures store.items == SavedItems(old(store.items), old(apiUrl), writeFails)
      ensures saving == (Rejection(old(apiUrl)).Some? && old(saving))
    {
      var url := apiUrl;
      var rejection := Rejection(url);
      if rejection.Some? {
        assert SaveAlert(url, writeFails) == Alert("Error", rejection.value);
        alerts := alerts + [Alert("Error", rejection.value)];
        return;
      }
      assert SavedItems(store.items, url, writeFails)
        == if writeFails then store.items else store.items[ApiUrlKey := Str(CleanUrl(url))];
      saving := true;
      var success := SetApiUrl(store, url, writeFails);
      if success {
        assert SaveAlert(url, writeFails) == Alert("Success", SavedMessage);
        alerts := alerts + [Alert("Success", SavedMessage)];
      } else {
        assert SaveAlert(url, writeFails) == Alert("Error", SaveFailedMessage);
        alerts := alerts + [Alert("Error", SaveFailedMessage)];
      }
      saving := false;
    }

    /**
     * The "Reset to Default" confirmation: Cancel does nothing; Reset clears
     * the override, shows the default and reports success, even when the
     * removal failed (`clearApiUrl` reports failure instead of rejecting).
     */
    method ConfirmReset(reset: bool, removeFails: bool)
      modifies this`apiUrl, this`saving, this`alerts, store
      ensures !reset ==> apiUrl == old(apiUrl) && alerts == old(alerts) && store.items == old(store.items)
      ensures reset ==>
        && apiUrl == old(defaultUrl)
        && alerts == old(alerts) + [Alert("Success", ResetMessage)]
        && store.items == (if removeFails then old(store.items) else old(store.items) - {ApiUrlKey})
      ensures saving == (!reset && old(saving))
    {
      if !reset {
        return;
      }
      saving := true;
      var _ := ClearApiUrl(store, removeFails);
      apiUrl := defaultUrl;
      alerts := alerts + [Alert("Success", ResetMessage)];
      saving := false;
    }
  }
}
