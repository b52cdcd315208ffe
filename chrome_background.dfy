/**
 * The Chrome background script: the per-tab URL cache with its listeners, delivery of the current
 * URL to the server with bounded retries, and the notifications sent after a page refresh.
 * Listeners return the `updateServerWithUrl` calls they make as `UrlSync` records.
 */
module ChromeBackground {
  import opened Protocol
  import opened TabCache
  import Handshake

  /** `maxRetries` of the delivery loop. */
  const MAX_RETRIES: nat := 3

  const SOURCE_URL_CHANGE: string := "tab_url_change"
  const SOURCE_PAGE_COMPLETE: string := "page_complete"
  const SOURCE_ACTIVATED: string := "tab_activated"
  const SOURCE_DEFAULT: string := "background_update"

  class Background {
    var tabUrls: map<int, string>

    ghost predicate Valid()
      reads this
    {
      NonEmptyValues(tabUrls)
    }

    constructor ()
      ensures Valid() && tabUrls == map[]
    {
      tabUrls := map[];
    }

    /**
     * `tabs.onUpdated`: a URL change is cached and sent; a completed load caches and sends the
     * tab's URL (when it has one) and then retests the connection.
     */
    method OnUpdated(tabId: int, changeUrl: Option<string>, complete: bool, tabUrl: Option<string>)
      returns (syncs: seq<UrlSync>, retest: bool)
      requires Valid()
      modifies this
      ensures Valid()
      ensures tabUrls == Remember(Remember(old(tabUrls), tabId, changeUrl), tabId, if complete then tabUrl else None)
      ensures syncs ==
        (if HasText(changeUrl) then [UrlSync(tabId, changeUrl.value, SOURCE_URL_CHANGE)] else [])
        + (if complete && HasText(tabUrl) then [UrlSync(tabId, tabUrl.value, SOURCE_PAGE_COMPLETE)] else [])
      ensures retest == complete
    {
      syncs := [];
      if HasText(changeUrl) {
        tabUrls := tabUrls[tabId := changeUrl.value];
        syncs := syncs + [UrlSync(tabId, changeUrl.value, SOURCE_URL_CHANGE)];
      }
      retest := false;
      if complete {
        if HasText(tabUrl) {
          tabUrls := tabUrls[tabId := tabUrl.value];
          syncs := syncs + [UrlSync(tabId, tabUrl.value, SOURCE_PAGE_COMPLETE)];
        }
        retest := true;
      }
    }

    /** `tabs.onActivated`: the activated tab's URL, when `tabs.get` yields one, is cached and sent. */
    method OnActivated(tabId: int, tabUrl: Option<string>) returns (syncs: seq<UrlSync>)
      requires Valid()
      modifies this
      ensures Valid()
      ensures tabUrls == Remember(old(tabUrls), tabId, tabUrl)
      ensures syncs == if HasText(tabUrl) then [UrlSync(tabId, tabUrl.value, SOURCE_ACTIVATED)] else []
    {
      syncs := [];
      if HasText(tabUrl) {
        tabUrls := tabUrls[tabId := tabUrl.value];
        syncs := [UrlSync(tabId, tabUrl.value, SOURCE_ACTIVATED)];
      }
    }

    /** `tabs.onRemoved`: the closed tab's entry is dropped and no other. */
    method OnRemoved(tabId: int)
      requires Valid()
      modifies this
      ensures Valid()
      ensures tabUrls == old(tabUrls) - {tabId}
      ensures tabId !in tabUrls
    {
      tabUrls := tabUrls - {tabId};
    }

    /** `processTabForAudit`: a tab with a URL is cached and sent with the default source. */
    method ProcessTabForAudit(tabId: int, tabUrl: Option<string>) returns (syncs: seq<UrlSync>)
      requires Valid()
      modifies this
      ensures Valid()
      ensures tabUrls == Remember(old(tabUrls), tabId, tabUrl)
      ensures syncs == if HasText(tabUrl) then [UrlSync(tabId, tabUrl.value, SOURCE_DEFAULT)] else []
    {
      syncs := [];
      if !HasText(tabUrl) {
        return;
      }
      tabUrls := tabUrls[tabId := tabUrl.value];
      syncs := [UrlSync(tabId, tabUrl.value, SOURCE_DEFAULT)];
    }

    /** `getCurrentTabUrl`, against its specification `LookupTabUrl`. */
    method GetCurrentTabUrl(tabId: int, tabUrl: Option<string>, activeUrl: Option<string>) returns (url: Option<string>)
      requires Valid()
      modifies this
      ensures Valid()
      ensures url == LookupTabUrl(old(tabUrls), tabId, tabUrl, activeUrl).url
      ensures tabUrls == LookupTabUrl(old(tabUrls), tabId, tabUrl, activeUrl).cache
    {
      if tabId in tabUrls {
        return Some(tabUrls[tabId]);
      }
      if HasText(tabUrl) {
        tabUrls := tabUrls[tabId := tabUrl.value];
        return tabUrl;
      }
      if HasText(activeUrl) {
        tabUrls := tabUrls[tabId := activeUrl.value];
        return activeUrl;
      }
      return None;
    }
  }

  /** A POST attempt succeeds when the response is OK and its body parses as JSON. */
  predicate Delivered(p: Probe)
  {
    p.Response? && p.ok && p.body.Json?
  }

  /**
   * `updateServerWithUrl`: nothing is sent for a falsy URL; otherwise the URL is POSTed to the
   * stored server (default `localhost:3025`), retrying after each failure, at most three times.
   * `attempt(i)` is the outcome of the `i`-th POST.
   */
  method UpdateServerWithUrl(tabId: int, url: Option<string>, source: string, stored: Option<Endpoint>,
                             attempt: nat -> Probe) returns (posts: seq<Request>, success: bool)
    ensures !HasText(url) ==> posts == [] && !success
    ensures HasText(url) ==> 1 <= |posts| <= MAX_RETRIES
    ensures forall i :: 0 <= i < |posts| ==> posts[i] == UrlPost(Target(stored), url.value, tabId, source)
    // Every attempt before the last failed; the loop stops at the first success.
    ensures forall i :: 0 <= i < |posts| - 1 ==> !Delivered(attempt(i))
    ensures HasText(url) ==> success == Delivered(attempt(|posts| - 1))
    // Giving up takes exactly three failed attempts.
    ensures HasText(url) && !success ==> |posts| == MAX_RETRIES
  {
    posts, success := [], false;
    if !HasText(url) {
      return;
    }
    var settings := Target(stored);
    var retryCount := 0;
    while retryCount < MAX_RETRIES && !success
      invariant 0 <= retryCount <= MAX_RETRIES
      invariant |posts| == retryCount + (if success then 1 else 0)
      invariant success ==> retryCount < MAX_RETRIES && Delivered(attempt(retryCount))
      invariant forall i :: 0 <= i < retryCount ==> !Delivered(attempt(i))
      invariant forall i :: 0 <= i < |posts| ==> posts[i] == UrlPost(settings, url.value, tabId, source)
      decreases MAX_RETRIES - retryCount, if success then 0 else 1
    {
      posts := posts + [UrlPost(settings, url.value, tabId, source)];
      if Delivered(attempt(retryCount)) {
        success := true;
      } else {
        retryCount := retryCount + 1;
      }
    }
  }

  /**
   * `retestConnectionOnRefresh`: the stored server (default `localhost:3025`) is validated with
   * `identity` as its answer; a status update carrying the result is sent, then a forced
   * page-refresh discovery request, whatever the result.
   */
  function RetestConnectionOnRefresh(tabId: int, identity: Probe): (msgs: seq<RuntimeMessage>)
    ensures |msgs| == 2
    ensures msgs[0].ConnectionStatusUpdate? && msgs[0].tabId == tabId
    ensures msgs[0].isConnected <==> Handshake.Classify(identity) == Handshake.Verified
    ensures msgs[1] == InitiateAutoDiscovery("page_refresh", tabId, true)
  {
    [ConnectionStatusUpdate(Handshake.ValidateServerIdentity(identity), tabId),
     InitiateAutoDiscovery("page_refresh", tabId, true)]
  }

  /** The discovery request after a refresh does not depend on the validation outcome. */
  lemma RetestAlwaysRestartsDiscovery(tabId: int, p: Probe, q: Probe)
    ensures RetestConnectionOnRefresh(tabId, p)[1] == RetestConnectionOnRefresh(tabId, q)[1]
    ensures RetestConnectionOnRefresh(tabId, p)[1].forceRestart
  {
  }
}
