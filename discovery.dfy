/**
 * The candidate search of `discoverServer` in the devtools panel, as values: the order in which
 * endpoints are probed and what a scan that stops at the first accepted endpoint sees.
 */
module Discovery {
  import opened Protocol
  import Handshake

  const LOCALHOST: string := "localhost"

  /** The fixed list of localhost ports tried after the configured server, in this order. */
  const COMMON_PORTS: seq<int> := [3025, 3000, 8000, 8080, 4000, 5000]

  /** The configured server is tried only when both host and port are truthy. */
  predicate IsConfigured(host: string, port: int)
  {
    host != "" && port != 0
  }

  /** The fallback on port `p` is skipped when it is the configured server itself. */
  predicate SkipsFallback(host: string, port: int, p: int)
  {
    host == LOCALHOST && port == p
  }

  function Configured(host: string, port: int): (r: seq<Endpoint>)
    ensures IsConfigured(host, port) ==> r == [Endpoint(host, port)]
    ensures !IsConfigured(host, port) ==> r == []
  {
    if IsConfigured(host, port) then [Endpoint(host, port)] else []
  }

  /** `localhost` on each of `ports`, in order. */
  function Localhosts(ports: seq<int>): (r: seq<Endpoint>)
    ensures |r| == |ports|
    ensures forall i :: 0 <= i < |ports| ==> r[i] == Endpoint(LOCALHOST, ports[i])
  {
    seq(|ports|, i requires 0 <= i < |ports| => Endpoint(LOCALHOST, ports[i]))
  }

  /** The fallback endpoints the `for` loop probes over `ports`, leaving out the configured one. */
  function Fallbacks(host: string, port: int, ports: seq<int>): (r: seq<Endpoint>)
    ensures |r| <= |ports|
    decreases |ports|
  {
    if ports == [] then []
    else
      var last := ports[|ports| - 1];
      Fallbacks(host, port, ports[..|ports| - 1])
        + (if SkipsFallback(host, port, last) then [] else [Endpoint(LOCALHOST, last)])
  }

  /** Every endpoint `discoverServer` may probe, in the order it probes them. */
  function CandidateOrder(host: string, port: int): (r: seq<Endpoint>)
    ensures IsConfigured(host, port) ==> |r| > 0 && r[0] == Endpoint(host, port)
    ensures forall e :: e in r ==> e == Endpoint(host, port) || (e.host == LOCALHOST && e.port in COMMON_PORTS)
  {
    FallbacksMembers(host, port, COMMON_PORTS);
    Configured(host, port) + Fallbacks(host, port, COMMON_PORTS)
  }

  predicate Distinct<T(==)>(s: seq<T>)
  {
    forall i, j :: 0 <= i < j < |s| ==> s[i] != s[j]
  }

  /** The fallbacks are exactly the `localhost` endpoints on `ports` that are not the configured server. */
  lemma {:induction false} FallbacksMembers(host: string, port: int, ports: seq<int>)
    ensures forall e :: e in Fallbacks(host, port, ports) ==>
      e.host == LOCALHOST && e.port in ports && !SkipsFallback(host, port, e.port)
    ensures forall p :: p in ports && !SkipsFallback(host, port, p) ==> Endpoint(LOCALHOST, p) in Fallbacks(host, port, ports)
    decreases |ports|
  {
    if ports != [] {
      var init := ports[..|ports| - 1];
      var last := ports[|ports| - 1];
      FallbacksMembers(host, port, init);
      assert ports == init + [last];
    }
  }

  /** The fallbacks of a prefix of the ports are a prefix of the fallbacks: the loop only appends. */
  lemma {:induction false} FallbacksPrefix(host: string, port: int, ports: seq<int>, i: nat)
    requires i <= |ports|
    ensures Fallbacks(host, port, ports[..i]) <= Fallbacks(host, port, ports)
    decreases |ports|
  {
    if i < |ports| {
      var init := ports[..|ports| - 1];
      assert init[..i] == ports[..i];
      FallbacksPrefix(host, port, init, i);
    } else {
      assert ports[..i] == ports;
    }
  }

  /** One more iteration of the fallback loop appends at most the endpoint for `ports[i]`. */
  lemma FallbacksStep(host: string, port: int, ports: seq<int>, i: nat)
    requires i < |ports|
    ensures Fallbacks(host, port, ports[..i + 1]) ==
      Fallbacks(host, port, ports[..i]) + (if SkipsFallback(host, port, ports[i]) then [] else [Endpoint(LOCALHOST, ports[i])])
  {
    assert ports[..i + 1][..i] == ports[..i];
  }

  /** When the configured server is not one of the fallbacks, no fallback is skipped. */
  lemma {:induction false} FallbacksNoSkip(host: string, port: int, ports: seq<int>)
    requires !(host == LOCALHOST && port in ports)
    ensures Fallbacks(host, port, ports) == Localhosts(ports)
    decreases |ports|
  {
    if ports != [] {
      var init := ports[..|ports| - 1];
      var last := ports[|ports| - 1];
      assert forall p :: p in init ==> p in ports;
      FallbacksNoSkip(host, port, init);
      assert !SkipsFallback(host, port, last);
      assert Localhosts(ports) == Localhosts(init) + [Endpoint(LOCALHOST, last)];
    }
  }

  /** When the configured server is `localhost` on the fallback `ports[k]`, exactly that fallback is dropped. */
  lemma {:induction false} FallbacksSkipOne(port: int, ports: seq<int>, k: nat)
    requires Distinct(ports)
    requires k < |ports| && ports[k] == port
    ensures Fallbacks(LOCALHOST, port, ports) == Localhosts(ports[..k] + ports[k + 1..])
    decreases |ports|
  {
    var n := |ports|;
    var init := ports[..n - 1];
    if k == n - 1 {
      assert init == ports[..k] + ports[k + 1..];
      assert port !in init;
      FallbacksNoSkip(LOCALHOST, port, init);
    } else {
      assert Distinct(init);
      FallbacksSkipOne(port, init, k);
      assert ports[n - 1] != port;
      assert init[..k] + init[k + 1..] + [ports[n - 1]] == ports[..k] + ports[k + 1..];
    }
  }

  lemma {:induction false} FallbacksDistinct(host: string, port: int, ports: seq<int>)
    requires Distinct(ports)
    ensures Distinct(Fallbacks(host, port, ports))
    decreases |ports|
  {
    if ports != [] {
      var init := ports[..|ports| - 1];
      var last := ports[|ports| - 1];
      assert Distinct(init);
      FallbacksDistinct(host, port, init);
      FallbacksMembers(host, port, init);
      assert last !in init;
    }
  }

  /** No endpoint is probed twice in one scan. */
  lemma CandidateOrderDistinct(host: string, port: int)
    ensures Distinct(CandidateOrder(host, port))
  {
    CommonPortsDistinct();
    FallbacksDistinct(host, port, COMMON_PORTS);
    var fb := Fallbacks(host, port, COMMON_PORTS);
    FallbacksMembers(host, port, COMMON_PORTS);
    if IsConfigured(host, port) {
      assert Endpoint(host, port) !in fb;
    }
  }

  /**
   * The full probe order: the configured server first (when host and port are set), then localhost
   * on 3025, 3000, 8000, 8080, 4000, 5000 minus the configured one.
   */
  lemma CandidateOrderShape(host: string, port: int)
    ensures !(host == LOCALHOST && port in COMMON_PORTS) ==>
      CandidateOrder(host, port) == Configured(host, port) + Localhosts(COMMON_PORTS)
    ensures forall k :: 0 <= k < |COMMON_PORTS| && host == LOCALHOST && port == COMMON_PORTS[k] ==>
      CandidateOrder(host, port) == [Endpoint(LOCALHOST, port)] + Localhosts(COMMON_PORTS[..k] + COMMON_PORTS[k + 1..])
  {
    if !(host == LOCALHOST && port in COMMON_PORTS) {
      FallbacksNoSkip(host, port, COMMON_PORTS);
    }
    forall k | 0 <= k < |COMMON_PORTS| && host == LOCALHOST && port == COMMON_PORTS[k]
      ensures CandidateOrder(host, port) == [Endpoint(LOCALHOST, port)] + Localhosts(COMMON_PORTS[..k] + COMMON_PORTS[k + 1..])
    {
      FallbacksSkipOne(port, COMMON_PORTS, k);
    }
  }

  /** A configured `localhost:p` with `p` among the fallbacks is probed exactly once, and first. */
  lemma ConfiguredLocalhostProbedOnceFirst(p: int)
    requires p in COMMON_PORTS
    ensures CandidateOrder(LOCALHOST, p)[0] == Endpoint(LOCALHOST, p)
    ensures multiset(CandidateOrder(LOCALHOST, p))[Endpoint(LOCALHOST, p)] == 1
  {
    var r := CandidateOrder(LOCALHOST, p);
    CandidateOrderDistinct(LOCALHOST, p);
    assert r == [r[0]] + r[1..];
    assert Endpoint(LOCALHOST, p) !in r[1..] by {
      forall j | 1 <= j < |r| ensures r[j] != r[0] { }
    }
  }

  lemma CommonPortsDistinct()
    ensures Distinct(COMMON_PORTS)
  {
    var c := COMMON_PORTS;
    forall i, j | 0 <= i < j < |c| ensures c[i] != c[j] {
      assert c[0] == 3025 && c[1] == 3000 && c[2] == 8000 && c[3] == 8080 && c[4] == 4000 && c[5] == 5000;
    }
  }

  /** The order with the panel's built-in default settings. */
  lemma DefaultSettingsOrder()
    ensures CandidateOrder("100.65.170.44", 3025) ==
      [Endpoint("100.65.170.44", 3025), Endpoint(LOCALHOST, 3025), Endpoint(LOCALHOST, 3000),
       Endpoint(LOCALHOST, 8000), Endpoint(LOCALHOST, 8080), Endpoint(LOCALHOST, 4000), Endpoint(LOCALHOST, 5000)]
  {
    assert "100.65.170.44"[0] != LOCALHOST[0];
    CandidateOrderShape("100.65.170.44", 3025);
    var l := Localhosts(COMMON_PORTS);
    assert l == [l[0], l[1], l[2], l[3], l[4], l[5]];
  }

  /** With `localhost:8080` configured, 8080 moves to the front and is not probed again. */
  lemma LocalhostSettingsOrder()
    ensures CandidateOrder(LOCALHOST, 8080) ==
      [Endpoint(LOCALHOST, 8080), Endpoint(LOCALHOST, 3025), Endpoint(LOCALHOST, 3000),
       Endpoint(LOCALHOST, 8000), Endpoint(LOCALHOST, 4000), Endpoint(LOCALHOST, 5000)]
  {
    assert COMMON_PORTS[3] == 8080;
    CommonPortsDistinct();
    FallbacksSkipOne(8080, COMMON_PORTS, 3);
    assert CandidateOrder(LOCALHOST, 8080) == [Endpoint(LOCALHOST, 8080)] + Fallbacks(LOCALHOST, 8080, COMMON_PORTS);
    var rest := COMMON_PORTS[..3] + COMMON_PORTS[4..];
    assert rest == [3025, 3000, 8000, 4000, 5000];
    var l := Localhosts(rest);
    assert l == [l[0], l[1], l[2], l[3], l[4]];
  }

  predicate Accepted(p: Probe)
  {
    Handshake.ValidateServerIdentity(p)
  }

  /** The index of the first candidate whose probe is accepted, if any. */
  function FirstAccepted(cands: seq<Endpoint>, oracle: Endpoint -> Probe): (k: Option<nat>)
    ensures k.Some? ==> k.value < |cands| && Accepted(oracle(cands[k.value]))
    ensures k.Some? ==> forall j :: 0 <= j < k.value ==> !Accepted(oracle(cands[j]))
    ensures k.None? ==> forall j :: 0 <= j < |cands| ==> !Accepted(oracle(cands[j]))
  {
    if cands == [] then None
    else if Accepted(oracle(cands[0])) then Some(0)
    else match FirstAccepted(cands[1..], oracle)
      case None => None
      case Some(i) => Some(i + 1)
  }

  /** What a sequential scan probes and finds. */
  datatype ScanResult = ScanResult(probed: seq<Endpoint>, found: Option<Endpoint>)

  /** A scan probes candidates in order and stops at the first accepted one. */
  function Scan(cands: seq<Endpoint>, oracle: Endpoint -> Probe): (s: ScanResult)
    ensures s.probed <= cands
    ensures forall j :: 0 <= j < |s.probed| - 1 ==> !Accepted(oracle(s.probed[j]))
    ensures s.found.Some? <==> exists j :: 0 <= j < |cands| && Accepted(oracle(cands[j]))
    ensures s.found.Some? ==> |s.probed| > 0 && s.found.value == s.probed[|s.probed| - 1]
                              && Accepted(oracle(s.found.value))
    ensures s.found.None? ==> s.probed == cands
  {
    match FirstAccepted(cands, oracle)
    case None => ScanResult(cands, None)
    case Some(k) => ScanResult(cands[..k + 1], Some(cands[k]))
  }

  /** The scan's outcome is determined by the first accepted candidate: if `k` is it, `k + 1` probes are made. */
  lemma ScanStopsAt(cands: seq<Endpoint>, oracle: Endpoint -> Probe, k: nat)
    requires k < |cands| && Accepted(oracle(cands[k]))
    requires forall j :: 0 <= j < k ==> !Accepted(oracle(cands[j]))
    ensures Scan(cands, oracle) == ScanResult(cands[..k + 1], Some(cands[k]))
  {
  }

  /** A scan in which nothing is accepted probes every candidate and finds nothing. */
  lemma ScanExhausts(cands: seq<Endpoint>, oracle: Endpoint -> Probe)
    requires forall j :: 0 <= j < |cands| ==> !Accepted(oracle(cands[j]))
    ensures Scan(cands, oracle) == ScanResult(cands, None)
  {
  }

  /** A scan stops right after `e` when `before + [e]` opens the candidates and only `e` is accepted. */
  lemma ScanStopsAfter(cands: seq<Endpoint>, before: seq<Endpoint>, e: Endpoint, oracle: Endpoint -> Probe)
    requires before + [e] <= cands
    requires forall x :: x in before ==> !Accepted(oracle(x))
    requires Accepted(oracle(e))
    ensures Scan(cands, oracle) == ScanResult(before + [e], Some(e))
  {
    var k := |before|;
    assert cands[k] == (before + [e])[k] == e;
    forall j | 0 <= j < k
      ensures !Accepted(oracle(cands[j]))
    {
      assert cands[j] == (before + [e])[j] == before[j];
    }
    ScanStopsAt(cands, oracle, k);
    assert cands[..k + 1] == before + [e];
  }

  /**
   * The fallback loop stops at port `i`: when the fallbacks of the ports before it were all rejected
   * and its own fallback is accepted, the scan of all fallbacks ends there.
   */
  lemma FallbackAccepted(host: string, port: int, ports: seq<int>, i: nat, oracle: Endpoint -> Probe)
    requires i < |ports| && !SkipsFallback(host, port, ports[i])
    requires forall e :: e in Fallbacks(host, port, ports[..i]) ==> !Accepted(oracle(e))
    requires Accepted(oracle(Endpoint(LOCALHOST, ports[i])))
    ensures
      var e := Endpoint(LOCALHOST, ports[i]);
      Scan(Fallbacks(host, port, ports), oracle) == ScanResult(Fallbacks(host, port, ports[..i]) + [e], Some(e))
  {
    FallbacksStep(host, port, ports, i);
    FallbacksPrefix(host, port, ports, i + 1);
    ScanStopsAfter(Fallbacks(host, port, ports), Fallbacks(host, port, ports[..i]), Endpoint(LOCALHOST, ports[i]), oracle);
  }

  /** The fallback loop runs out: every fallback was rejected, so the scan probes them all and finds nothing. */
  lemma FallbacksExhausted(host: string, port: int, ports: seq<int>, oracle: Endpoint -> Probe)
    requires forall e :: e in Fallbacks(host, port, ports) ==> !Accepted(oracle(e))
    ensures Scan(Fallbacks(host, port, ports), oracle) == ScanResult(Fallbacks(host, port, ports), None)
  {
    var all := Fallbacks(host, port, ports);
    assert forall j :: 0 <= j < |all| ==> all[j] in all;
    ScanExhausts(all, oracle);
  }

  /** `ScanAppend` when the scan of `rest` finds something. */
  lemma ScanAppendFound(pre: seq<Endpoint>, rest: seq<Endpoint>, oracle: Endpoint -> Probe)
    requires forall e :: e in pre ==> !Accepted(oracle(e))
    requires Scan(rest, oracle).found.Some?
    ensures Scan(pre + rest, oracle) == ScanResult(pre + Scan(rest, oracle).probed, Scan(rest, oracle).found)
  {
    var s := Scan(rest, oracle);
    var k := |s.probed| - 1;
    var before := pre + s.probed[..k];
    assert s.probed == s.probed[..k] + [s.found.value];
    assert pre + s.probed == before + [s.found.value];
    assert forall e :: e in before ==> !Accepted(oracle(e));
    assert pre + rest == (pre + s.probed) + rest[|s.probed|..];
    ScanStopsAfter(pre + rest, before, s.found.value, oracle);
  }

  /** `ScanAppend` when nothing in `rest` is accepted. */
  lemma ScanAppendExhausted(pre: seq<Endpoint>, rest: seq<Endpoint>, oracle: Endpoint -> Probe)
    requires forall e :: e in pre ==> !Accepted(oracle(e))
    requires Scan(rest, oracle).found.None?
    ensures Scan(pre + rest, oracle) == ScanResult(pre + rest, None)
  {
    forall j | 0 <= j < |pre + rest|
      ensures !Accepted(oracle((pre + rest)[j]))
    {
      if j >= |pre| {
        assert (pre + rest)[j] == rest[j - |pre|];
      }
    }
    ScanExhausts(pre + rest, oracle);
  }

  /** Scanning past a run of rejected candidates: the run is probed, then the scan goes on as before. */
  lemma ScanAppend(pre: seq<Endpoint>, rest: seq<Endpoint>, oracle: Endpoint -> Probe)
    requires forall e :: e in pre ==> !Accepted(oracle(e))
    ensures Scan(pre + rest, oracle) == ScanResult(pre + Scan(rest, oracle).probed, Scan(rest, oracle).found)
  {
    if Scan(rest, oracle).found.Some? {
      ScanAppendFound(pre, rest, oracle);
    } else {
      ScanAppendExhausted(pre, rest, oracle);
    }
  }

  /**
   * A discovery phase by phase: an accepted configured server ends it at once; otherwise the
   * configured server (when set) is probed and rejected, and the scan of the fallbacks decides.
   */
  function TwoPhaseScan(host: string, port: int, oracle: Endpoint -> Probe): ScanResult
  {
    if IsConfigured(host, port) && Accepted(oracle(Endpoint(host, port))) then
      ScanResult([Endpoint(host, port)], Some(Endpoint(host, port)))
    else
      var fb := Scan(Fallbacks(host, port, COMMON_PORTS), oracle);
      ScanResult(Configured(host, port) + fb.probed, fb.found)
  }

  /** The two phases together are exactly one scan of the candidate order. */
  lemma CandidateScan(host: string, port: int, oracle: Endpoint -> Probe)
    ensures TwoPhaseScan(host, port, oracle) == Scan(CandidateOrder(host, port), oracle)
  {
    var cands := CandidateOrder(host, port);
    if IsConfigured(host, port) && Accepted(oracle(Endpoint(host, port))) {
      ScanStopsAt(cands, oracle, 0);
      assert cands[..1] == [Endpoint(host, port)];
    } else {
      ScanAppend(Configured(host, port), Fallbacks(host, port, COMMON_PORTS), oracle);
    }
  }
}
