/**
 * The devtools panel's connection bookkeeping: discovery of the server, the handshake that accepts
 * a candidate, the single reconnect timer, and the connection flag driven by runtime messages.
 * Every handler runs to completion before the next one starts; probes are answered by `oracle`.
 */
module Panel {
  import opened Protocol
  import opened Discovery
  import opened ReconnectTimer

  /** The settings the panel starts from before storage is read. */
  const DEFAULT_HOST: string := "100.65.170.44"
  const DEFAULT_PORT: int := 3025

  /** The `reason` of a discovery request sent after a page reload. */
  const PAGE_REFRESH: string := "page_refresh"

  /**
   * The server settings, connection flag and saved server a scan leaves, given those it started
   * from: a found endpoint is adopted, connected to and saved; otherwise nothing changes.
   */
  predicate Adopted(found: Option<Endpoint>, host0: string, port0: int, connected0: bool, saved0: Option<Endpoint>,
                    host: string, port: int, connected: bool, saved: Option<Endpoint>)
  {
    if found.Some? then
      host == found.value.host && port == found.value.port && connected && saved == found
    else
      host == host0 && port == port0 && connected == connected0 && saved == saved0
  }

  /** The panel's fields as one value, for stating what a handler leaves behind. */
  datatype Snapshot = Snapshot(
    host: string, port: int, connected: bool, inProgress: bool, controller: bool,
    banner: bool, reconnect: Timer, saved: Option<Endpoint>)

  /**
   * A full scan of the candidate order of `s0`'s server ends in `s1`: the probes are the scan's, the
   * panel adopts what it finds (starting from the flag `connected0`), and the flag ends false.
   */
  predicate ScannedFrom(s0: Snapshot, connected0: bool, oracle: Endpoint -> Probe, s1: Snapshot, probed: seq<Endpoint>)
  {
    var s := Scan(CandidateOrder(s0.host, s0.port), oracle);
    && probed == s.probed
    && !s1.inProgress && s1.controller && s1.banner == s0.banner
    && Adopted(s.found, s0.host, s0.port, connected0, s0.saved, s1.host, s1.port, s1.connected, s1.saved)
  }

  /** A quiet `discoverServer`: nothing while a discovery runs, otherwise a scan that leaves the timer alone. */
  predicate QuietDiscovery(oracle: Endpoint -> Probe, s0: Snapshot, s1: Snapshot, probed: seq<Endpoint>)
  {
    if s0.inProgress then probed == [] && s1 == s0
    else ScannedFrom(s0, s0.connected, oracle, s1, probed) && s1.reconnect == s0.reconnect
  }

  /** Startup, step one: stored settings replace host and port together. */
  function Merged(s: Snapshot, stored: Option<Endpoint>): Snapshot
  {
    if stored.Some? then s.(host := stored.value.host, port := stored.value.port) else s
  }

  /**
   * Startup, step two: an existing banner is left alone; a new banner tests a configured server,
   * whose verdict becomes the flag, and a rejection schedules a reconnect.
   */
  function WithBanner(s: Snapshot, oracle: Endpoint -> Probe): Snapshot
  {
    if s.banner then s
    else if !IsConfigured(s.host, s.port) then s.(banner := true)
    else
      var ok := Accepted(oracle(Endpoint(s.host, s.port)));
      s.(banner := true, connected := ok, reconnect := if ok then s.reconnect else Schedule(s.reconnect))
  }

  /** `CONNECTION_STATUS_UPDATE`: the flag follows the message; a disconnect with a banner schedules. */
  predicate StatusUpdated(isConnected: bool, s0: Snapshot, s1: Snapshot)
  {
    s1 == s0.(connected := isConnected,
              reconnect := if !isConnected && s0.banner then Schedule(s0.reconnect) else s0.reconnect)
  }

  /** `SERVER_VALIDATION_SUCCESS` and `WEBSOCKET_CONNECTED`: connected, and nothing else changes. */
  predicate MarkedConnected(s0: Snapshot, s1: Snapshot)
  {
    s1 == s0.(connected := true)
  }

  /**
   * `INITIATE_AUTO_DISCOVERY`: a page refresh or a forced restart clears the timer, schedules a
   * reconnect when the banner exists and always scans; any other request is a quiet discovery.
   */
  predicate AutoDiscoveryHandled(reason: string, forceRestart: bool, oracle: Endpoint -> Probe,
                                 s0: Snapshot, s1: Snapshot, probed: seq<Endpoint>)
  {
    if reason == PAGE_REFRESH || forceRestart then
      && ScannedFrom(s0, s0.connected, oracle, s1, probed)
      && s1.reconnect == (if s0.banner then Schedule(Clear(s0.reconnect)) else Clear(s0.reconnect))
    else
      QuietDiscovery(oracle, s0, s1, probed)
  }

  /**
   * `SERVER_VALIDATION_FAILED`: disconnected, a reconnect scheduled when the banner exists, and a
   * scan for a connection or HTTP error when no discovery runs.
   */
  predicate ValidationFailedHandled(reason: string, oracle: Endpoint -> Probe,
                                    s0: Snapshot, s1: Snapshot, probed: seq<Endpoint>)
  {
    var timer := if s0.banner then Schedule(s0.reconnect) else s0.reconnect;
    if (reason == "connection_error" || reason == "http_error") && !s0.inProgress then
      ScannedFrom(s0, false, oracle, s1, probed) && s1.reconnect == timer
    else
      probed == [] && s1 == s0.(connected := false, reconnect := timer)
  }

  /** What the runtime-message listener leaves, message type by message type. */
  predicate MessageHandled(msg: RuntimeMessage, oracle: Endpoint -> Probe, s0: Snapshot, s1: Snapshot, probed: seq<Endpoint>)
  {
    match msg
    case ConnectionStatusUpdate(isConnected, _) => probed == [] && StatusUpdated(isConnected, s0, s1)
    case InitiateAutoDiscovery(reason, _, forceRestart) => AutoDiscoveryHandled(reason, forceRestart, oracle, s0, s1, probed)
    case ServerValidationSuccess => probed == [] && MarkedConnected(s0, s1)
    case ServerValidationFailed(reason) => ValidationFailedHandled(reason, oracle, s0, s1, probed)
    case WebSocketConnected => probed == [] && MarkedConnected(s0, s1)
    case OtherMessage => probed == [] && s1 == s0
  }

  class DevtoolsPanel {
    var serverHost: string
    var serverPort: int
    var serverConnected: bool
    var isDiscoveryInProgress: bool
    /** Whether `discoveryController` holds an abort controller. */
    var hasDiscoveryController: bool
    /** Whether the connection banner exists in the panel's document. */
    var bannerPresent: bool
    /** `reconnectAttemptTimeout` and the timers it may name. */
    var reconnect: Timer
    /** The server last written to the stored settings by a successful discovery. */
    var savedServer: Option<Endpoint>

    ghost predicate Valid()
      reads this
    {
      Consistent(reconnect)
    }

    ghost function State(): Snapshot
      reads this
    {
      Snapshot(serverHost, serverPort, serverConnected, isDiscoveryInProgress, hasDiscoveryController,
               bannerPresent, reconnect, savedServer)
    }

    constructor ()
      ensures Valid()
      ensures serverHost == DEFAULT_HOST && serverPort == DEFAULT_PORT
      ensures !serverConnected && !isDiscoveryInProgress && !hasDiscoveryController && !bannerPresent
      ensures reconnect == NO_TIMER && savedServer == None
    {
      serverHost, serverPort := DEFAULT_HOST, DEFAULT_PORT;
      serverConnected, isDiscoveryInProgress := false, false;
      hasDiscoveryController, bannerPresent := false, false;
      reconnect := NO_TIMER;
      savedServer := None;
    }

    /** `scheduleReconnectAttempt`: replaces any pending reconnect timer by a fresh one. */
    method ScheduleReconnectAttempt()
      requires Valid()
      modifies this`reconnect
      ensures Valid()
      ensures reconnect == Schedule(old(reconnect))
      ensures reconnect.pending == {old(reconnect.nextId)}
    {
      reconnect := Schedule(reconnect);
    }

    /** The state effect of `updateConnectionBanner`: a disconnected banner schedules a reconnect. */
    method UpdateConnectionBanner(connected: bool)
      requires Valid()
      modifies this`reconnect
      ensures Valid()
      ensures reconnect == (if !connected && bannerPresent then Schedule(old(reconnect)) else old(reconnect))
    {
      if !bannerPresent {
        return;
      }
      if !connected {
        ScheduleReconnectAttempt();
      }
    }

    /** `cancelOngoingDiscovery`: no controller, no pending reconnect, no discovery in progress. */
    method CancelOngoingDiscovery()
      requires Valid()
      modifies this
      ensures Valid()
      ensures !hasDiscoveryController && !isDiscoveryInProgress
      ensures reconnect == Clear(old(reconnect)) && reconnect.handle == None && reconnect.pending == {}
      ensures serverHost == old(serverHost) && serverPort == old(serverPort)
      ensures serverConnected == old(serverConnected) && bannerPresent == old(bannerPresent)
      ensures savedServer == old(savedServer)
    {
      if hasDiscoveryController {
        hasDiscoveryController := false;
      }
      if reconnect.handle.Some? {
        reconnect := Clear(reconnect);
      }
      isDiscoveryInProgress := false;
    }

    /**
     * `testConnection`: an accepted handshake marks the panel connected; anything else marks it
     * disconnected (which schedules a reconnect when the banner exists). The settings are left as they are.
     */
    method TestConnection(host: string, port: int, oracle: Endpoint -> Probe) returns (ok: bool)
      requires Valid()
      modifies this
      ensures Valid()
      ensures ok == Accepted(oracle(Endpoint(host, port)))
      ensures serverConnected == ok
      ensures reconnect == (if !ok && bannerPresent then Schedule(old(reconnect)) else old(reconnect))
      ensures serverHost == old(serverHost) && serverPort == old(serverPort) && savedServer == old(savedServer)
      ensures isDiscoveryInProgress == old(isDiscoveryInProgress)
      ensures hasDiscoveryController == old(hasDiscoveryController) && bannerPresent == old(bannerPresent)
    {
      ok := Accepted(oracle(Endpoint(host, port)));
      if !ok {
        serverConnected := false;
        UpdateConnectionBanner(false);
        return;
      }
      serverConnected := true;
      UpdateConnectionBanner(true);
    }

    /**
     * `tryServerConnection`: on an accepted handshake the candidate becomes the configured and saved
     * server and the panel is connected; a rejected or failed probe changes nothing but the controller.
     */
    method TryServerConnection(host: string, port: int, oracle: Endpoint -> Probe) returns (ok: bool)
      requires Valid()
      modifies this
      ensures Valid()
      ensures ok == Accepted(oracle(Endpoint(host, port)))
      ensures hasDiscoveryController
      ensures ok ==> serverHost == host && serverPort == port && serverConnected
                     && savedServer == Some(Endpoint(host, port))
      ensures !ok ==> serverHost == old(serverHost) && serverPort == old(serverPort)
                      && serverConnected == old(serverConnected) && savedServer == old(savedServer)
      ensures reconnect == old(reconnect) && bannerPresent == old(bannerPresent)
      ensures isDiscoveryInProgress == old(isDiscoveryInProgress)
    {
      hasDiscoveryController := true;
      ok := Accepted(oracle(Endpoint(host, port)));
      if !ok {
        return;
      }
      serverHost, serverPort := host, port;
      savedServer := Some(Endpoint(host, port));
      serverConnected := true;
      UpdateConnectionBanner(true);
    }

    /**
     * The fallback loop of `discoverServer`: `localhost` on each common port except the configured
     * server, stopping at the first one accepted.
     */
    method ProbeFallbacks(oracle: Endpoint -> Probe) returns (tried: seq<Endpoint>, success: bool)
      requires Valid()
      modifies this
      ensures Valid()
      ensures
        var s := Scan(Fallbacks(old(serverHost), old(serverPort), COMMON_PORTS), oracle);
        && tried == s.probed && success == s.found.Some?
        && Adopted(s.found, old(serverHost), old(serverPort), old(serverConnected), old(savedServer),
                   serverHost, serverPort, serverConnected, savedServer)
      ensures reconnect == old(reconnect) && bannerPresent == old(bannerPresent)
      ensures isDiscoveryInProgress == old(isDiscoveryInProgress)
      ensures hasDiscoveryController
    {
      hasDiscoveryController := true;
      var host, port := serverHost, serverPort;
      tried := [];
      assert COMMON_PORTS[..0] == [];
      for i := 0 to |COMMON_PORTS|
        invariant Valid()
        invariant serverHost == host && serverPort == port
        invariant serverConnected == old(serverConnected) && savedServer == old(savedServer)
        invariant reconnect == old(reconnect) && bannerPresent == old(bannerPresent)
        invariant isDiscoveryInProgress == old(isDiscoveryInProgress) && hasDiscoveryController
        invariant tried == Fallbacks(host, port, COMMON_PORTS[..i])
        invariant forall e :: e in tried ==> !Accepted(oracle(e))
      {
        FallbacksStep(host, port, COMMON_PORTS, i);
        var p := COMMON_PORTS[i];
        if serverHost == LOCALHOST && serverPort == p {
          continue;
        }
        success := TryServerConnection(LOCALHOST, p, oracle);
        if success {
          FallbackAccepted(host, port, COMMON_PORTS, i, oracle);
          tried := tried + [Endpoint(LOCALHOST, p)];
          return;
        }
        tried := tried + [Endpoint(LOCALHOST, p)];
      }
      assert COMMON_PORTS[..|COMMON_PORTS|] == COMMON_PORTS;
      FallbacksExhausted(host, port, COMMON_PORTS, oracle);
      success := false;
    }

    /**
     * `discoverServer`: unless a discovery is already in progress, probe the configured server and
     * then the localhost fallbacks in order, stopping at the first accepted one; the flag ends false.
     */
    method DiscoverServer(quiet: bool, oracle: Endpoint -> Probe) returns (probed: seq<Endpoint>)
      requires Valid()
      modifies this
      ensures Valid()
      ensures bannerPresent == old(bannerPresent)
      ensures old(isDiscoveryInProgress) ==> probed == [] && unchanged(this)
      ensures !old(isDiscoveryInProgress) ==>
        var s := Scan(CandidateOrder(old(serverHost), old(serverPort)), oracle);
        && probed == s.probed
        && !isDiscoveryInProgress && hasDiscoveryController
        && Adopted(s.found, old(serverHost), old(serverPort), old(serverConnected), old(savedServer),
                   serverHost, serverPort, serverConnected, savedServer)
        && reconnect == (if s.found.None? && !quiet && bannerPresent then Schedule(old(reconnect)) else old(reconnect))
    {
      if isDiscoveryInProgress {
        return [];
      }
      CandidateScan(serverHost, serverPort, oracle);
      probed := RunDiscovery(quiet, oracle);
    }

    /** The body of `discoverServer` once its in-progress guard has let it through. */
    method RunDiscovery(quiet: bool, oracle: Endpoint -> Probe) returns (probed: seq<Endpoint>)
      requires Valid() && !isDiscoveryInProgress
      modifies this
      ensures Valid()
      ensures bannerPresent == old(bannerPresent)
      ensures
        var s := TwoPhaseScan(old(serverHost), old(serverPort), oracle);
        && probed == s.probed
        && !isDiscoveryInProgress && hasDiscoveryController
        && Adopted(s.found, old(serverHost), old(serverPort), old(serverConnected), old(savedServer),
                   serverHost, serverPort, serverConnected, savedServer)
        && reconnect == (if s.found.None? && !quiet && bannerPresent then Schedule(old(reconnect)) else old(reconnect))
    {
      isDiscoveryInProgress := true;
      hasDiscoveryController := true;
      var host, port := serverHost, serverPort;
      ghost var fb := Scan(Fallbacks(host, port, COMMON_PORTS), oracle);
      probed := [];
      var success := false;
      if IsConfigured(host, port) {
        probed := [Endpoint(host, port)];
        success := TryServerConnection(host, port, oracle);
      }
      assert probed == Configured(host, port);
      if !success {
        var tried;
        tried, success := ProbeFallbacks(oracle);
        assert tried == fb.probed && success == fb.found.Some?;
        probed := probed + tried;
        if !success && !quiet {
          UpdateConnectionBanner(false);
        }
      }
      isDiscoveryInProgress := false;
    }

    /** The reconnect timer fires: discovery (quiet) starts only when disconnected and idle. */
    method ReconnectTimerFires(id: nat, oracle: Endpoint -> Probe) returns (probed: seq<Endpoint>)
      requires Valid() && id in reconnect.pending
      modifies this
      ensures Valid()
      ensures bannerPresent == old(bannerPresent)
      ensures old(serverConnected) || old(isDiscoveryInProgress) ==>
        && probed == [] && reconnect == Fire(old(reconnect), id)
        && serverHost == old(serverHost) && serverPort == old(serverPort)
        && serverConnected == old(serverConnected) && savedServer == old(savedServer)
        && isDiscoveryInProgress == old(isDiscoveryInProgress)
        && hasDiscoveryController == old(hasDiscoveryController)
      ensures !old(serverConnected) && !old(isDiscoveryInProgress) ==>
        var s := Scan(CandidateOrder(old(serverHost), old(serverPort)), oracle);
        && probed == s.probed
        && !isDiscoveryInProgress && hasDiscoveryController
        && Adopted(s.found, old(serverHost), old(serverPort), false, old(savedServer),
                   serverHost, serverPort, serverConnected, savedServer)
        && reconnect == Fire(old(reconnect), id)
    {
      reconnect := Fire(reconnect, id);
      probed := [];
      if !serverConnected && !isDiscoveryInProgress {
        probed := DiscoverServer(true, oracle);
      }
    }

    /** The Reconnect button: cancel whatever is running, then discover with visible status. */
    method OnReconnectClicked(oracle: Endpoint -> Probe) returns (probed: seq<Endpoint>)
      requires Valid()
      modifies this
      ensures Valid()
      ensures bannerPresent == old(bannerPresent)
      ensures
        var s := Scan(CandidateOrder(old(serverHost), old(serverPort)), oracle);
        && probed == s.probed
        && !isDiscoveryInProgress && hasDiscoveryController
        && Adopted(s.found, old(serverHost), old(serverPort), old(serverConnected), old(savedServer),
                   serverHost, serverPort, serverConnected, savedServer)
        && reconnect == (if s.found.None? && bannerPresent then Schedule(Clear(old(reconnect))) else Clear(old(reconnect)))
    {
      CancelOngoingDiscovery();
      probed := DiscoverServer(false, oracle);
    }

    /**
     * `createConnectionBanner`: an existing banner is left alone; a new one tests the configured
     * server when host and port are both set.
     */
    method CreateConnectionBanner(oracle: Endpoint -> Probe)
      requires Valid()
      modifies this
      ensures Valid()
      ensures State() == WithBanner(old(State()), oracle)
    {
      if bannerPresent {
        return;
      }
      bannerPresent := true;
      if IsConfigured(serverHost, serverPort) {
        var _ := TestConnection(serverHost, serverPort, oracle);
      }
    }

    /**
     * Startup: stored settings override the defaults, the banner is created (testing the configured
     * server), then a quiet discovery runs over the merged settings.
     */
    method LoadSettings(stored: Option<Endpoint>, oracle: Endpoint -> Probe) returns (probed: seq<Endpoint>)
      requires Valid()
      modifies this
      ensures Valid()
      ensures bannerPresent
      ensures QuietDiscovery(oracle, WithBanner(Merged(old(State()), stored), oracle), State(), probed)
    {
      if stored.Some? {
        serverHost, serverPort := stored.value.host, stored.value.port;
      }
      CreateConnectionBanner(oracle);
      ghost var started := State();
      assert started == WithBanner(Merged(old(State()), stored), oracle);
      probed := DiscoverServer(true, oracle);
    }

    /** `CONNECTION_STATUS_UPDATE`: the flag follows the message; a disconnected one schedules a reconnect. */
    method OnConnectionStatusUpdate(isConnected: bool)
      requires Valid()
      modifies this`serverConnected, this`reconnect
      ensures Valid()
      ensures StatusUpdated(isConnected, old(State()), State())
    {
      if isConnected {
        if !serverConnected {
          serverConnected := true;
          UpdateConnectionBanner(true);
        }
      } else {
        serverConnected := false;
        UpdateConnectionBanner(false);
      }
    }

    /**
     * `INITIATE_AUTO_DISCOVERY`: a page refresh or a forced restart cancels whatever runs, shows the
     * disconnected banner and always scans; any other request is ignored while a discovery runs.
     */
    method OnAutoDiscoveryRequest(reason: string, forceRestart: bool, oracle: Endpoint -> Probe) returns (probed: seq<Endpoint>)
      requires Valid()
      modifies this
      ensures Valid()
      ensures AutoDiscoveryHandled(reason, forceRestart, oracle, old(State()), State(), probed)
    {
      probed := [];
      if reason == PAGE_REFRESH || forceRestart {
        CancelOngoingDiscovery();
        UpdateConnectionBanner(false);
        probed := DiscoverServer(true, oracle);
      } else if !isDiscoveryInProgress {
        probed := DiscoverServer(true, oracle);
      }
    }

    /** `SERVER_VALIDATION_SUCCESS`: the panel is connected. */
    method OnValidationSuccess()
      requires Valid()
      modifies this`serverConnected, this`reconnect
      ensures Valid()
      ensures MarkedConnected(old(State()), State())
    {
      serverConnected := true;
      UpdateConnectionBanner(true);
    }

    /**
     * `SERVER_VALIDATION_FAILED`: the panel is disconnected (a reconnect is scheduled); a connection
     * or HTTP error also starts a quiet discovery unless one is in progress.
     */
    method OnValidationFailed(reason: string, oracle: Endpoint -> Probe) returns (probed: seq<Endpoint>)
      requires Valid()
      modifies this
      ensures Valid()
      ensures ValidationFailedHandled(reason, oracle, old(State()), State(), probed)
    {
      probed := [];
      serverConnected := false;
      UpdateConnectionBanner(false);
      if reason == "connection_error" || reason == "http_error" {
        if !isDiscoveryInProgress {
          probed := DiscoverServer(true, oracle);
        }
      }
    }

    /** `WEBSOCKET_CONNECTED`: the panel is connected. */
    method OnWebSocketConnected()
      requires Valid()
      modifies this`serverConnected, this`reconnect
      ensures Valid()
      ensures MarkedConnected(old(State()), State())
    {
      if !serverConnected {
        serverConnected := true;
        UpdateConnectionBanner(true);
      }
    }

    /** The runtime-message listener: each message type goes to its handler. */
    method OnMessage(msg: RuntimeMessage, oracle: Endpoint -> Probe) returns (probed: seq<Endpoint>)
      requires Valid()
      modifies this
      ensures Valid()
      ensures MessageHandled(msg, oracle, old(State()), State(), probed)
    {
      probed := [];
      match msg
      case ConnectionStatusUpdate(isConnected, _) =>
        OnConnectionStatusUpdate(isConnected);
      case InitiateAutoDiscovery(reason, _, forceRestart) =>
        probed := OnAutoDiscoveryRequest(reason, forceRestart, oracle);
      case ServerValidationSuccess =>
        OnValidationSuccess();
      case ServerValidationFailed(reason) =>
        probed := OnValidationFailed(reason, oracle);
      case WebSocketConnected =>
        OnWebSocketConnected();
      case OtherMessage =>
    }
  }
}
