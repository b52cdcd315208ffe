/**
 * The Firefox content script's collector: four capped buffers fed by the console, fetch, XHR and
 * resource-timing hooks, the messages that read and clear them, and the truncation of selected HTML.
 * Serialising console arguments, durations and timestamps are not part of the entries here.
 */
module ContentScript {
  import opened Protocol
  import opened LogBuffer

  datatype Transport = Fetch | Xhr | Resource

  /** Why an entry is in `networkErrors`. */
  datatype Failure =
    | HttpStatus(status: int)   // a completed request with an error status
    | Rejected(message: string) // a fetch whose promise rejected
    | NetworkError              // an XHR `error` event
    | Timeout                   // an XHR `timeout` event
    | PossibleError             // a resource-timing entry the heuristic flagged

  /** One network record; `status` and `ok` are absent for requests that never completed. */
  datatype NetworkEntry = NetworkEntry(
    transport: Transport, url: string, verb: string,
    status: Option<int>, ok: Option<bool>, failure: Option<Failure>)

  /** The reply `handleMessage` sends back. */
  datatype Reply =
    | ConsoleReply(logs: seq<string>)
    | NetworkReply(entries: seq<NetworkEntry>)
    | HtmlReply(html: Option<string>)
    | Success
    | Unsupported
    | Deferred   // an action answered asynchronously by a screenshot or an audit

  const GET_CONSOLE_LOGS: string := "getConsoleLogs"
  const GET_CONSOLE_ERRORS: string := "getConsoleErrors"
  const CLEAR_CONSOLE_LOGS: string := "clearConsoleLogs"
  const GET_NETWORK_LOGS: string := "getNetworkLogs"
  const GET_NETWORK_ERRORS: string := "getNetworkErrors"
  const CLEAR_NETWORK_LOGS: string := "clearNetworkLogs"
  const GET_SELECTED_ELEMENT: string := "getSelectedElement"
  const RUN_DEBUGGER_MODE: string := "runDebuggerMode"

  /** The other actions `handleMessage` answers, with operations outside this model. */
  const OTHER_ACTIONS: set<string> := {"takeScreenshot", "runAccessibilityAudit", "runPerformanceAudit",
                                       "runSeoAudit", "runBestPracticesAudit"}

  /** The actions `handleMessage` has a case for; any other action is refused. */
  predicate Handled(action: string)
  {
    || action in OTHER_ACTIONS
    || action in {GET_CONSOLE_LOGS, GET_CONSOLE_ERRORS, CLEAR_CONSOLE_LOGS, GET_NETWORK_LOGS,
                  GET_NETWORK_ERRORS, CLEAR_NETWORK_LOGS, GET_SELECTED_ELEMENT, RUN_DEBUGGER_MODE}
  }

  /** A fetch's method is the init's truthy `method`, else GET. */
  function FetchMethod(initMethod: Option<string>): (m: string)
    ensures HasText(initMethod) ==> m == initMethod.value
    ensures !HasText(initMethod) ==> m == "GET"
    ensures m != ""
  {
    if HasText(initMethod) then initMethod.value else "GET"
  }

  /** An XHR load is `ok` for a 2xx status. */
  predicate XhrOk(status: int)
  {
    200 <= status < 300
  }

  /** An XHR load is recorded as an error from status 400 on. */
  predicate XhrIsError(status: int)
  {
    status >= 400
  }

  /** The two XHR classifications never overlap, and 1xx and 3xx statuses fall in neither. */
  lemma XhrClassification(status: int)
    ensures !(XhrOk(status) && XhrIsError(status))
    ensures (status < 200 || 300 <= status < 400) <==> !XhrOk(status) && !XhrIsError(status)
  {
  }

  const HTML_LIMIT: nat := 10000
  const TRUNCATION_SUFFIX: string := "... [contenuto troncato]"

  /** `getSelectedElement`'s size cap on the selected element's outer HTML. */
  function TruncateHtml(html: string): (r: string)
    ensures |html| <= HTML_LIMIT ==> r == html
    ensures |html| > HTML_LIMIT ==> |r| == HTML_LIMIT + |TRUNCATION_SUFFIX|
    ensures r[..if |html| <= HTML_LIMIT then |html| else HTML_LIMIT] == html[..if |html| <= HTML_LIMIT then |html| else HTML_LIMIT]
    ensures |html| > HTML_LIMIT ==> r[HTML_LIMIT..] == TRUNCATION_SUFFIX
  {
    if |html| > HTML_LIMIT then html[..HTML_LIMIT] + TRUNCATION_SUFFIX else html
  }

  class Collector {
    var consoleLogs: seq<string>
    var consoleErrors: seq<string>
    var networkLogs: seq<NetworkEntry>
    var networkErrors: seq<NetworkEntry>

    /** No buffer ever exceeds its capacity. */
    ghost predicate Valid()
      reads this
    {
      |consoleLogs| <= CAPACITY && |consoleErrors| <= CAPACITY
      && |networkLogs| <= CAPACITY && |networkErrors| <= CAPACITY
    }

    constructor ()
      ensures Valid()
      ensures consoleLogs == [] && consoleErrors == [] && networkLogs == [] && networkErrors == []
    {
      consoleLogs, consoleErrors, networkLogs, networkErrors := [], [], [], [];
    }

    /** The `console.log` hook. */
    method LogConsole(entry: string)
      requires Valid()
      modifies this`consoleLogs
      ensures Valid()
      ensures consoleLogs == BoundedPush(old(consoleLogs), entry)
    {
      if |consoleLogs| > LIMIT {
        consoleLogs := consoleLogs[1..];
      }
      consoleLogs := consoleLogs + [entry];
    }

    /** The `console.error` hook. */
    method ErrorConsole(entry: string)
      requires Valid()
      modifies this`consoleErrors
      ensures Valid()
      ensures consoleErrors == BoundedPush(old(consoleErrors), entry)
    {
      if |consoleErrors| > LIMIT {
        consoleErrors := consoleErrors[1..];
      }
      consoleErrors := consoleErrors + [entry];
    }

    /** The capped push into `networkLogs` that every network hook performs. */
    method PushNetworkLog(entry: NetworkEntry)
      requires Valid()
      modifies this`networkLogs
      ensures Valid()
      ensures networkLogs == BoundedPush(old(networkLogs), entry)
    {
      if |networkLogs| > LIMIT {
        networkLogs := networkLogs[1..];
      }
      networkLogs := networkLogs + [entry];
    }

    /** The capped push into `networkErrors` that every failing network hook performs. */
    method PushNetworkError(entry: NetworkEntry)
      requires Valid()
      modifies this`networkErrors
      ensures Valid()
      ensures networkErrors == BoundedPush(old(networkErrors), entry)
    {
      if |networkErrors| > LIMIT {
        networkErrors := networkErrors[1..];
      }
      networkErrors := networkErrors + [entry];
    }

    /** A resolved fetch is always logged, and also recorded as an error exactly when not `ok`. */
    method RecordFetchResponse(url: string, initMethod: Option<string>, status: int, ok: bool)
      requires Valid()
      modifies this`networkLogs, this`networkErrors
      ensures Valid()
      ensures
        var entry := NetworkEntry(Fetch, url, FetchMethod(initMethod), Some(status), Some(ok), None);
        && networkLogs == BoundedPush(old(networkLogs), entry)
        && networkErrors == if ok then old(networkErrors)
                            else BoundedPush(old(networkErrors), entry.(failure := Some(HttpStatus(status))))
    {
      var entry := NetworkEntry(Fetch, url, FetchMethod(initMethod), Some(status), Some(ok), None);
      PushNetworkLog(entry);
      if !ok {
        PushNetworkError(entry.(failure := Some(HttpStatus(status))));
      }
    }

    /** A rejected fetch is recorded as an error only. */
    method RecordFetchRejection(url: string, initMethod: Option<string>, message: string)
      requires Valid()
      modifies this`networkErrors
      ensures Valid()
      ensures networkErrors == BoundedPush(old(networkErrors),
        NetworkEntry(Fetch, url, FetchMethod(initMethod), None, None, Some(Rejected(message))))
    {
      PushNetworkError(NetworkEntry(Fetch, url, FetchMethod(initMethod), None, None, Some(Rejected(message))));
    }

    /** An XHR `load` is always logged, with `ok` for 2xx, and also recorded as an error from 400 on. */
    method RecordXhrLoad(url: string, verb: string, status: int)
      requires Valid()
      modifies this`networkLogs, this`networkErrors
      ensures Valid()
      ensures
        var entry := NetworkEntry(Xhr, url, verb, Some(status), Some(XhrOk(status)), None);
        && networkLogs == BoundedPush(old(networkLogs), entry)
        && networkErrors == if XhrIsError(status)
                            then BoundedPush(old(networkErrors), entry.(failure := Some(HttpStatus(status))))
                            else old(networkErrors)
    {
      var entry := NetworkEntry(Xhr, url, verb, Some(status), Some(XhrOk(status)), None);
      PushNetworkLog(entry);
      if XhrIsError(status) {
        PushNetworkError(entry.(failure := Some(HttpStatus(status))));
      }
    }

    /** An XHR `error` or `timeout` event is recorded as an error only. */
    method RecordXhrFailure(url: string, verb: string, timedOut: bool)
      requires Valid()
      modifies this`networkErrors
      ensures Valid()
      ensures networkErrors == BoundedPush(old(networkErrors),
        NetworkEntry(Xhr, url, verb, None, None, Some(if timedOut then Timeout else NetworkError)))
    {
      PushNetworkError(NetworkEntry(Xhr, url, verb, None, None, Some(if timedOut then Timeout else NetworkError)));
    }

    /**
     * A resource-timing entry is logged; `flagged` is the outcome of the long-or-empty heuristic,
     * and a flagged entry is also recorded as a possible error.
     */
    method RecordResource(url: string, flagged: bool)
      requires Valid()
      modifies this`networkLogs, this`networkErrors
      ensures Valid()
      ensures
        var entry := NetworkEntry(Resource, url, "", None, None, None);
        && networkLogs == BoundedPush(old(networkLogs), entry)
        && networkErrors == if flagged then BoundedPush(old(networkErrors), entry.(failure := Some(PossibleError)))
                            else old(networkErrors)
    {
      var entry := NetworkEntry(Resource, url, "", None, None, None);
      PushNetworkLog(entry);
      if flagged {
        PushNetworkError(entry.(failure := Some(PossibleError)));
      }
    }

    /**
     * `runDebuggerMode`: each of its `console.log` lines, serialised as `entries`, goes through the
     * `console.log` hook in turn.
     */
    method RunDebuggerMode(entries: seq<string>)
      requires Valid()
      modifies this`consoleLogs
      ensures Valid()
      ensures consoleLogs == PushAll(old(consoleLogs), entries)
    {
      for i := 0 to |entries|
        invariant Valid()
        invariant consoleLogs == PushAll(old(consoleLogs), entries[..i])
      {
        assert entries[..i + 1][..i] == entries[..i];
        LogConsole(entries[i]);
      }
      assert entries[..|entries|] == entries;
    }

    /**
     * `handleMessage`: the message is first logged through the `console.log` hook as `logged`, then
     * its action is dispatched.
     */
    method HandleMessage(action: string, logged: string, debugEntries: seq<string>, selection: Option<string>)
      returns (reply: Reply)
      requires Valid()
      modifies this
      ensures Valid()
      ensures
        var received := BoundedPush(old(consoleLogs), logged);
        && (action == GET_CONSOLE_LOGS ==> reply == ConsoleReply(received))
        && consoleLogs == if action == CLEAR_CONSOLE_LOGS then []
                          else if action == RUN_DEBUGGER_MODE then PushAll(received, debugEntries)
                          else received
      ensures action == GET_CONSOLE_ERRORS ==> reply == ConsoleReply(old(consoleErrors))
      ensures action == GET_NETWORK_LOGS ==> reply == NetworkReply(old(networkLogs))
      ensures action == GET_NETWORK_ERRORS ==> reply == NetworkReply(old(networkErrors))
      ensures action == CLEAR_CONSOLE_LOGS || action == CLEAR_NETWORK_LOGS || action == RUN_DEBUGGER_MODE ==>
        reply == Success
      ensures action == GET_SELECTED_ELEMENT ==>
        && reply.HtmlReply? && (reply.html.None? <==> selection.None?)
        && (selection.Some? ==> reply.html.value == TruncateHtml(selection.value))
      ensures action in OTHER_ACTIONS ==> reply == Deferred
      ensures consoleErrors == (if action == CLEAR_CONSOLE_LOGS then [] else old(consoleErrors))
      ensures networkLogs == (if action == CLEAR_NETWORK_LOGS then [] else old(networkLogs))
      ensures networkErrors == (if action == CLEAR_NETWORK_LOGS then [] else old(networkErrors))
      ensures reply == Unsupported <==> !Handled(action)
    {
      LogConsole(logged);
      reply := Dispatch(action, debugEntries, selection);
    }

    /**
     * The `switch` of `handleMessage`: a get replies with its buffer, a clear empties exactly its
     * two buffers, the selection is answered with its capped HTML, debugger mode logs
     * `debugEntries` and is acknowledged at once, and an unknown action is refused. `selection` is
     * the outer HTML of the selected element, `None` when nothing is selected.
     */
    method Dispatch(action: string, debugEntries: seq<string>, selection: Option<string>) returns (reply: Reply)
      requires Valid()
      modifies this
      ensures Valid()
      ensures action == GET_CONSOLE_LOGS ==> reply == ConsoleReply(old(consoleLogs))
      ensures action == GET_CONSOLE_ERRORS ==> reply == ConsoleReply(old(consoleErrors))
      ensures action == GET_NETWORK_LOGS ==> reply == NetworkReply(old(networkLogs))
      ensures action == GET_NETWORK_ERRORS ==> reply == NetworkReply(old(networkErrors))
      ensures action == CLEAR_CONSOLE_LOGS || action == CLEAR_NETWORK_LOGS || action == RUN_DEBUGGER_MODE ==>
        reply == Success
      ensures action == GET_SELECTED_ELEMENT ==>
        && reply.HtmlReply? && (reply.html.None? <==> selection.None?)
        && (selection.Some? ==> reply.html.value == TruncateHtml(selection.value))
      ensures action in OTHER_ACTIONS ==> reply == Deferred
      ensures consoleLogs == if action == CLEAR_CONSOLE_LOGS then []
                             else if action == RUN_DEBUGGER_MODE then PushAll(old(consoleLogs), debugEntries)
                             else old(consoleLogs)
      ensures consoleErrors == (if action == CLEAR_CONSOLE_LOGS then [] else old(consoleErrors))
      ensures networkLogs == (if action == CLEAR_NETWORK_LOGS then [] else old(networkLogs))
      ensures networkErrors == (if action == CLEAR_NETWORK_LOGS then [] else old(networkErrors))
      ensures reply == Unsupported <==> !Handled(action)
    {
      if action == GET_CONSOLE_LOGS {
        reply := ConsoleReply(consoleLogs);
      } else if action == GET_CONSOLE_ERRORS {
        reply := ConsoleReply(consoleErrors);
      } else if action == CLEAR_CONSOLE_LOGS {
        consoleLogs, consoleErrors := [], [];
        reply := Success;
      } else if action == GET_NETWORK_LOGS {
        reply := NetworkReply(networkLogs);
      } else if action == GET_NETWORK_ERRORS {
        reply := NetworkReply(networkErrors);
      } else if action == CLEAR_NETWORK_LOGS {
        networkLogs, networkErrors := [], [];
        reply := Success;
      } else if action == GET_SELECTED_ELEMENT {
        reply := HtmlReply(if selection.None? then None else Some(TruncateHtml(selection.value)));
      } else if action == RUN_DEBUGGER_MODE {
        RunDebuggerMode(debugEntries);
        reply := Success;
      } else if action in OTHER_ACTIONS {
        reply := Deferred;
      } else {
        reply := Unsupported;
      }
    }
  }
}
