/**
 * The Firefox background script: the per-tab URL cache (never pruned), the `storedData` record
 * refreshed from content-script replies, the validate-then-post URL delivery, and the status
 * notifications sent after a page refresh.
 */
module FirefoxBackground {
  import opened Protocol
  import opened TabCache
  import Handshake

  const SOURCE_URL_CHANGE: string := "tab_url_change"
  const SOURCE_PAGE_COMPLETE: string := "page_complete"
  const SOURCE_ACTIVATION: string := "tab_activation"
  const SOURCE_DEFAULT: string := "background_update"

  /** The forwarded actions whose reply refreshes `storedData`. */
  const GET_CONSOLE_LOGS: string := "getConsoleLogs"
  const GET_CONSOLE_ERRORS: string := "getConsoleErrors"
  const GET_NETWORK_LOGS: string := "getNetworkLogs"
  const GET_NETWORK_ERRORS: string := "getNetworkErrors"
  const WIPE_LOGS: string := "wipeLogs"

  /** `Entry` is a log entry as the content script serialises it; the background never looks inside. */
  class Background<Entry> {
    var tabUrls: map<int, string>
    var consoleLogs: seq<Entry>
    var consoleErrors: seq<Entry>
    var networkLogs: seq<Entry>
    var networkErrors: seq<Entry>

    ghost predicate Valid()
      reads this
    {
      NonEmptyValues(tabUrls)
    }

    constructor ()
      ensures Valid() && tabUrls == map[]
      ensures consoleLogs == [] && consoleErrors == [] && networkLogs == [] && networkErrors == []
    {
      tabUrls := map[];
      consoleLogs, consoleErrors, networkLogs, networkErrors := [], [], [], [];
    }

    /**
     * The reply to a forwarded message: when its `data` is truthy (any array, even an empty one),
     * a `get*` action replaces only its own field and `wipeLogs` empties all four.
     */
    method OnContentResponse(action: string, data: Option<seq<Entry>>)
      requires Valid()
      modifies this
      ensures Valid()
      ensures tabUrls == old(tabUrls)
      ensures data.None? ==> consoleLogs == old(consoleLogs) && consoleErrors == old(consoleErrors)
                             && networkLogs == old(networkLogs) && networkErrors == old(networkErrors)
      ensures data.Some? && action == WIPE_LOGS ==>
        consoleLogs == [] && consoleErrors == [] && networkLogs == [] && networkErrors == []
      ensures consoleLogs == if data.Some? && action == GET_CONSOLE_LOGS then data.value
                             else if data.Some? && action == WIPE_LOGS then [] else old(consoleLogs)
      ensures consoleErrors == if data.Some? && action == GET_CONSOLE_ERRORS then data.value
                               else if data.Some? && action == WIPE_LOGS then [] else old(consoleErrors)
      ensures networkLogs == if data.Some? && action == GET_NETWORK_LOGS then data.value
                             else if data.Some? && action == WIPE_LOGS then [] else old(networkLogs)
      ensures networkErrors == if data.Some? && action == GET_NETWORK_ERRORS then data.value
                               else if data.Some? && action == WIPE_LOGS then [] else old(networkErrors)
    {
      if data.None? {
        return;
      }
      if action == GET_CONSOLE_LOGS {
        consoleLogs := data.value;
      } else if action == GET_CONSOLE_ERRORS {
        consoleErrors := data.value;
      } else if action == GET_NETWORK_LOGS {
        networkLogs := data.value;
      } else if action == GET_NETWORK_ERRORS {
        networkErrors := data.value;
      } else if action == WIPE_LOGS {
        consoleLogs, consoleErrors, networkLogs, networkErrors := [], [], [], [];
      }
    }

    /**
     * `tabs.onUpdated`: a URL change is cached and sent; a completed load caches and sends the
     * tab's URL (when it has one) and then retests the connection.
     */
    method OnUpdated(tabId: int, changeUrl: Option<string>, complete: bool, tabUrl: Option<string>)
      returns (syncs: seq<UrlSync>, retest: bool)
      requires Valid()
      modifies this`tabUrls
      ensures Valid()
      ensures tabUrls == Remember(Remember(old(tabUrls), tabId, changeUrl), tabId, if complete then tabUrl else None)
      ensures syncs ==
        (if HasText(changeUrl) then [UrlSync(tabId, changeUrl.value, SOURCE_URL_CHANGE)] else [])
        + (if complete && HasText(tabUrl) then [UrlSync(tabId, tabUrl.value, SOURCE_PAGE_COMPLETE)] else [])
      ensures retest == complete
    {
      syncs := [];
      if HasText(changeUrl) {
        tabUrls := tabUrls[tabId := changeUrl.value];
        syncs := syncs + [UrlSync(tabId, changeUrl.value, SOURCE_URL_CHANGE)];
      }
      retest := false;
      if complete {
        if HasText(tabUrl) {
          tabUrls := tabUrls[tabId := tabUrl.value];
          syncs := syncs + [UrlSync(tabId, tabUrl.value, SOURCE_PAGE_COMPLETE)];
        }
        retest := true;
      }
    }

    /** `tabs.onActivated`: the activated tab's URL, when `tabs.get` yields one, is cached and sent. */
    method OnActivated(tabId: int, tabUrl: Option<string>) returns (syncs: seq<UrlSync>)
      requires Valid()
      modifies this`tabUrls
      ensures Valid()
      ensures tabUrls == Remember(old(tabUrls), tabId, tabUrl)
      ensures syncs == if HasText(tabUrl) then [UrlSync(tabId, tabUrl.value, SOURCE_ACTIVATION)] else []
    {
      syncs := [];
      if HasText(tabUrl) {
        tabUrls := tabUrls[tabId := tabUrl.value];
        syncs := [UrlSync(tabId, tabUrl.value, SOURCE_ACTIVATION)];
      }
    }

    /** `processTabForAudit`: a tab with a URL is cached and sent with the default source. */
    method ProcessTabForAudit(tabId: int, tabUrl: Option<string>) returns (syncs: seq<UrlSync>)
      requires Valid()
      modifies this`tabUrls
      ensures Valid()
      ensures tabUrls == Remember(old(tabUrls), tabId, tabUrl)
      ensures syncs == if HasText(tabUrl) then [UrlSync(tabId, tabUrl.value, SOURCE_DEFAULT)] else []
    {
      syncs := [];
      if !HasText(tabUrl) {
        return;
      }
      tabUrls := tabUrls[tabId := tabUrl.value];
      syncs := [UrlSync(tabId, tabUrl.value, SOURCE_DEFAULT)];
    }

    /** `getCurrentTabUrl`, against its specification `LookupTabUrl`. */
    method GetCurrentTabUrl(tabId: int, tabUrl: Option<string>, activeUrl: Option<string>) returns (url: Option<string>)
      requires Valid()
      modifies this`tabUrls
      ensures Valid()
      ensures url == LookupTabUrl(old(tabUrls), tabId, tabUrl, activeUrl).url
      ensures tabUrls == LookupTabUrl(old(tabUrls), tabId, tabUrl, activeUrl).cache
    {
      if tabId in tabUrls {
        return Some(tabUrls[tabId]);
      }
      if HasText(tabUrl) {
        tabUrls := tabUrls[tabId := tabUrl.value];
        return tabUrl;
      }
      if HasText(activeUrl) {
        tabUrls := tabUrls[tabId := activeUrl.value];
        return activeUrl;
      }
      return None;
    }
  }

  /**
   * `updateServerWithUrl`: the requests sent, given `identity` as the answer to the identity check
   * of the stored server (default `localhost:3025`). The URL is posted once, and only to a server
   * that passed the check; the POST's own outcome is only logged.
   */
  function UpdateServerWithUrl(tabId: int, url: string, source: string, stored: Option<Endpoint>, identity: Probe): (reqs: seq<Request>)
    ensures 1 <= |reqs| <= 2
    ensures reqs[0] == IdentityGet(Target(stored))
    ensures |reqs| == 2 <==> Handshake.Classify(identity) == Handshake.Verified
    ensures forall i :: 1 <= i < |reqs| ==> reqs[i] == UrlPost(Target(stored), url, tabId, source)
  {
    var settings := Target(stored);
    if !Handshake.ValidateServerIdentity(identity) then [IdentityGet(settings)]
    else [IdentityGet(settings), UrlPost(settings, url, tabId, source)]
  }

  /** An HTTP error or a wrong signature from the identity check means no POST at all. */
  lemma NoPostWithoutIdentity(tabId: int, url: string, source: string, stored: Option<Endpoint>, identity: Probe)
    requires identity.Response? && (!identity.ok || identity.body != Json(Some(Protocol.SIGNATURE)))
    ensures forall r :: r in UpdateServerWithUrl(tabId, url, source, stored, identity) ==> !r.UrlPost?
  {
  }

  /**
   * `retestConnectionOnRefresh`: a provisional disconnected status, then the result of validating
   * the stored server with `identity` as its answer. No discovery request is sent.
   */
  function RetestConnectionOnRefresh(tabId: int, identity: Probe): (msgs: seq<RuntimeMessage>)
    ensures |msgs| == 2
    ensures msgs[0] == ConnectionStatusUpdate(false, tabId)
    ensures msgs[1].ConnectionStatusUpdate? && msgs[1].tabId == tabId
    ensures msgs[1].isConnected <==> Handshake.Classify(identity) == Handshake.Verified
    ensures forall m :: m in msgs ==> !m.InitiateAutoDiscovery?
  {
    [ConnectionStatusUpdate(false, tabId), ConnectionStatusUpdate(Handshake.ValidateServerIdentity(identity), tabId)]
  }
}
