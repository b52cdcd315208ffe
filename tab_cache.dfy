/**
 * The `tabUrls` cache both background scripts keep: a map from tab id to the last URL seen for
 * that tab, consulted first by `getCurrentTabUrl`. Browser lookups are inputs: `tabUrl` is what
 * `tabs.get` yields (None when it throws or the tab has no URL) and `activeUrl` what the
 * active-tab query yields.
 */
module TabCache {
  import opened Protocol

  /** Only truthy URLs are ever written, so no cached URL is empty. */
  predicate NonEmptyValues(cache: map<int, string>)
  {
    forall t :: t in cache ==> cache[t] != ""
  }

  /** The write every listener guards with `if (url)`: a falsy URL leaves the cache alone. */
  function Remember(cache: map<int, string>, tabId: int, url: Option<string>): (r: map<int, string>)
    ensures HasText(url) ==> tabId in r && r[tabId] == url.value
    ensures !HasText(url) ==> r == cache
    ensures forall t :: t != tabId ==> (t in r <==> t in cache) && (t in cache ==> r[t] == cache[t])
    ensures NonEmptyValues(cache) ==> NonEmptyValues(r)
  {
    if HasText(url) then cache[tabId := url.value] else cache
  }

  /** What `getCurrentTabUrl` returns (None for `null`) and the cache it leaves. */
  datatype Lookup = Lookup(url: Option<string>, cache: map<int, string>)

  /**
   * `getCurrentTabUrl`: the cached URL if there is one, without consulting the browser; else the
   * tab's own URL; else the active tab's URL; each found URL is cached under the requested id.
   */
  function LookupTabUrl(cache: map<int, string>, tabId: int, tabUrl: Option<string>, activeUrl: Option<string>): (r: Lookup)
    // Cache first: a hit returns the cached value and leaves the cache as it was.
    ensures tabId in cache ==> r.url == Some(cache[tabId]) && r.cache == cache
    // On a miss the tab's own URL is preferred to the active tab's.
    ensures tabId !in cache && HasText(tabUrl) ==> r.url == tabUrl
    ensures tabId !in cache && !HasText(tabUrl) && HasText(activeUrl) ==> r.url == activeUrl
    // `null` exactly when nothing is cached and neither lookup yields a URL.
    ensures r.url.None? <==> tabId !in cache && !HasText(tabUrl) && !HasText(activeUrl)
    ensures r.url.None? ==> r.cache == cache
    // Whatever is returned is then cached under the requested id, even the active tab's URL.
    ensures r.url.Some? ==> tabId in r.cache && r.cache[tabId] == r.url.value
    ensures forall t :: t != tabId ==> (t in r.cache <==> t in cache) && (t in cache ==> r.cache[t] == cache[t])
    ensures NonEmptyValues(cache) ==> NonEmptyValues(r.cache)
  {
    if tabId in cache then Lookup(Some(cache[tabId]), cache)
    else if HasText(tabUrl) then Lookup(tabUrl, cache[tabId := tabUrl.value])
    else if HasText(activeUrl) then Lookup(activeUrl, cache[tabId := activeUrl.value])
    else Lookup(None, cache)
  }

  /** A URL once found is sticky: a second lookup returns it whatever the browser now reports. */
  lemma LookupSticky(cache: map<int, string>, tabId: int, tabUrl: Option<string>, activeUrl: Option<string>,
                     tabUrl2: Option<string>, activeUrl2: Option<string>)
    requires LookupTabUrl(cache, tabId, tabUrl, activeUrl).url.Some?
    ensures
      var r := LookupTabUrl(cache, tabId, tabUrl, activeUrl);
      LookupTabUrl(r.cache, tabId, tabUrl2, activeUrl2) == r
  {
  }

  /** A lookup that misses on the tab and finds the active tab caches another tab's URL under `tabId`. */
  lemma ActiveTabFallbackCached(cache: map<int, string>, tabId: int, active: string)
    requires tabId !in cache && active != ""
    ensures LookupTabUrl(cache, tabId, None, Some(active)) == Lookup(Some(active), cache[tabId := active])
  {
  }

  /** With only truthy writes, a cached URL is never returned as an empty string. */
  lemma LookupNeverEmpty(cache: map<int, string>, tabId: int, tabUrl: Option<string>, activeUrl: Option<string>)
    requires NonEmptyValues(cache)
    ensures HasText(LookupTabUrl(cache, tabId, tabUrl, activeUrl).url)
            || LookupTabUrl(cache, tabId, tabUrl, activeUrl).url.None?
  {
  }
}
