/**
 * The shaping logic of the Prometheus router (api/app/routers/prometheus_router.py):
 * host extraction, the instance and host listings, the live metrics endpoint, one
 * cycle of each poll worker, the WebSocket push payload and the single-slot
 * connection manager.
 *
 * The endpoints' calls of `fetch_prometheus_metrics` go to the model of the service;
 * the Redis cache is a `Cache` object; the WebSocket is a handle with no state.
 */
module PrometheusRouter {
  import opened Wrappers
  import opened Strings
  import opened PrometheusService
  import opened RedisService

  /** PROMETEUS_CACHE_STATUS_KEY and PROMETEUS_CACHE_METRICS_KEY. */
  const StatusKey: string := "prometheus_metrics_cache"
  const MetricsKey: string := "prometheus_other_metrics_cache"

  /** The metric classes of the two poll workers. */
  const StatusNames: seq<string> := ["status"]
  const OtherNames: seq<string> := ["cpu_usage", "memory_usage", "disk_usage"]

  // ---------------------------------------------------------------------------
  // `_extract_host_from_instance`

  /** The part of `instance` before its last `:`, or all of it when it has none. */
  function ExtractHost(instance: string): (host: string)
    ensures host <= instance
    ensures ':' !in instance ==> host == instance
    ensures ':' in instance ==>
      && |host| < |instance| && instance[|host|] == ':'
      && ':' !in instance[|host| + 1..]
  {
    if instance == "" then instance   // `if not instance: return instance`
    else if ':' in instance then instance[..LastIndexOf(instance, ':')]
    else instance
  }

  /** The helper applied to a record's `instance`, which may be `None` (then returned as it is). */
  function HostOf(instance: Option<string>): Option<string> {
    match instance
    case None => None
    case Some(s) => Some(ExtractHost(s))
  }

  /** Extraction undoes `host + ":" + port` for a port without a colon, whatever colons the host has. */
  lemma ExtractHostInverts(host: string, port: string)
    requires ':' !in port
    ensures ExtractHost(host + ":" + port) == host
  {
    var s := host + ":" + port;
    assert s[|host|] == ':';
    assert s[|host| + 1..] == port;
    assert s[..|host|] == host;
  }

  /** The helper on the router test's instance, on the empty string and on a bare host name. */
  lemma ExtractHostExamples()
    ensures ExtractHost("host1:9090") == "host1"
    ensures ExtractHost("") == ""
    ensures ExtractHost("host1") == "host1"
  {
    ExtractHostInverts("host1", "9090");
    assert "host1" + ":" + "9090" == "host1:9090";
    assert ':' !in "host1" by {
      assert forall i :: 0 <= i < 5 ==> "host1"[i] != ':';
    }
  }

  /** The helper is not idempotent: on an instance with two colons a second application strips again. */
  lemma ExtractHostNotIdempotent()
    ensures ExtractHost("a:b:c") == "a:b"
    ensures ExtractHost(ExtractHost("a:b:c")) == "a" != ExtractHost("a:b:c")
  {
    ExtractHostInverts("a:b", "c");
    assert "a:b" + ":" + "c" == "a:b:c";
    ExtractHostInverts("a", "b");
    assert "a" + ":" + "b" == "a:b";
  }

  // ---------------------------------------------------------------------------
  // `get_prometheus_instances` and `get_prometheus_hosts`

  /** `payload.get("status", [])`: the status entry of a fetch result, or an empty list. */
  function StatusesIn(snapshot: FetchResult): Entry {
    if "status" in snapshot then snapshot["status"] else Records([])
  }

  /**
   * The distinct `instance` values of a status entry. Every formatted record has an
   * `instance` key, so `"instance" in item` holds for each of them, `None` included.
   * Iterating an error entry `{"error": msg}` visits its one key, the string "error",
   * and `"instance" in "error"` is a substring test that fails: nothing is collected.
   */
  function InstancesOf(statuses: Entry): set<Option<string>> {
    match statuses
    case Records(items) => set j | 0 <= j < |items| :: items[j].instance
    case Error(_) => {}
  }

  /** The distinct extracted hosts of a status entry. */
  function HostsOf(statuses: Entry): set<Option<string>> {
    match statuses
    case Records(items) => set j | 0 <= j < |items| :: HostOf(items[j].instance)
    case Error(_) => {}
  }

  /** The loop of `get_prometheus_instances`. */
  method CollectInstances(statuses: Entry) returns (instances: set<Option<string>>)
    ensures instances == InstancesOf(statuses)
  {
    instances := {};
    if statuses.Records? {
      var items := statuses.items;
      for i := 0 to |items|
        invariant instances == set j | 0 <= j < i :: items[j].instance
      {
        instances := instances + {items[i].instance};
      }
    }
  }

  /** The loop of `get_prometheus_hosts`. */
  method CollectHosts(statuses: Entry) returns (hosts: set<Option<string>>)
    ensures hosts == HostsOf(statuses)
  {
    hosts := {};
    if statuses.Records? {
      var items := statuses.items;
      for i := 0 to |items|
        invariant hosts == set j | 0 <= j < i :: HostOf(items[j].instance)
      {
        var host := HostOf(items[i].instance);
        hosts := hosts + {host};
      }
    }
  }

  /** The host listing is the image of the instance listing under the extraction helper. */
  lemma HostsAreHostsOfInstances(statuses: Entry)
    ensures HostsOf(statuses) == set x | x in InstancesOf(statuses) :: HostOf(x)
  {
    if statuses.Records? {
      var items := statuses.items;
      var image := set x | x in InstancesOf(statuses) :: HostOf(x);
      forall h | h in HostsOf(statuses) ensures h in image {
        var j :| 0 <= j < |items| && h == HostOf(items[j].instance);
        assert items[j].instance in InstancesOf(statuses);
      }
      forall h | h in image ensures h in HostsOf(statuses) {
        var x :| x in InstancesOf(statuses) && h == HostOf(x);
        var j :| 0 <= j < |items| && x == items[j].instance;
      }
    }
  }

  /** Adding one more record adds at most its instance. */
  lemma InstancesOfSnoc(items: seq<MetricRecord>, r: MetricRecord)
    ensures InstancesOf(Records(items + [r])) == InstancesOf(Records(items)) + {r.instance}
  {
    var all := items + [r];
    forall x | x in InstancesOf(Records(all)) ensures x in InstancesOf(Records(items)) + {r.instance} {
      var j :| 0 <= j < |all| && x == all[j].instance;
      if j < |items| {
        assert all[j] == items[j];
      }
    }
    forall x | x in InstancesOf(Records(items)) ensures x in InstancesOf(Records(all)) {
      var j :| 0 <= j < |items| && x == items[j].instance;
      assert all[j] == items[j];
    }
    assert all[|items|] == r;
  }

  /** Adding one more record adds at most its host. */
  lemma HostsOfSnoc(items: seq<MetricRecord>, r: MetricRecord)
    ensures HostsOf(Records(items + [r])) == HostsOf(Records(items)) + {HostOf(r.instance)}
  {
    var all := items + [r];
    forall x | x in HostsOf(Records(all)) ensures x in HostsOf(Records(items)) + {HostOf(r.instance)} {
      var j :| 0 <= j < |all| && x == HostOf(all[j].instance);
      if j < |items| {
        assert all[j] == items[j];
      }
    }
    forall x | x in HostsOf(Records(items)) ensures x in HostsOf(Records(all)) {
      var j :| 0 <= j < |items| && x == HostOf(items[j].instance);
      assert all[j] == items[j];
    }
    assert all[|items|] == r;
  }

  /** Duplicates collapse: there are never more instances than records. */
  lemma {:induction false} InstancesAtMostRecords(items: seq<MetricRecord>)
    ensures |InstancesOf(Records(items))| <= |items|
  {
    if items != [] {
      var init := items[..|items| - 1];
      InstancesAtMostRecords(init);
      InstancesOfSnoc(init, items[|items| - 1]);
      assert items == init + [items[|items| - 1]];
    }
  }

  /** The router tests' status records: two instances on one port. */
  lemma InstancesExample()
    ensures var h1 := MetricRecord(Some("host1:9090"), None, None, None);
            var h2 := MetricRecord(Some("host2:9090"), None, None, None);
      InstancesOf(Records([h1, h2])) == {Some("host1:9090"), Some("host2:9090")}
  {
    var h1 := MetricRecord(Some("host1:9090"), None, None, None);
    var h2 := MetricRecord(Some("host2:9090"), None, None, None);
    InstancesOfSnoc([], h1);
    InstancesOfSnoc([h1], h2);
    assert [] + [h1] == [h1] && [h1] + [h2] == [h1, h2];
  }

  lemma HostsExtractedExample()
    ensures HostOf(Some("host1:9090")) == Some("host1")
    ensures HostOf(Some("host2:9090")) == Some("host2")
  {
    ExtractHostInverts("host1", "9090");
    assert "host1" + ":" + "9090" == "host1:9090";
    ExtractHostInverts("host2", "9090");
    assert "host2" + ":" + "9090" == "host2:9090";
  }

  /** The same records give the two host names, port stripped. */
  lemma HostsExample()
    ensures var h1 := MetricRecord(Some("host1:9090"), None, None, None);
            var h2 := MetricRecord(Some("host2:9090"), None, None, None);
      HostsOf(Records([h1, h2])) == {Some("host1"), Some("host2")}
  {
    var h1 := MetricRecord(Some("host1:9090"), None, None, None);
    var h2 := MetricRecord(Some("host2:9090"), None, None, None);
    HostsExtractedExample();
    HostsOfSnoc([], h1);
    HostsOfSnoc([h1], h2);
    assert [] + [h1] == [h1] && [h1] + [h2] == [h1, h2];
    assert HostsOf(Records([])) == {};
  }

  /** Two records of one instance collapse into one. */
  lemma DuplicatesCollapseExample()
    ensures var h1 := MetricRecord(Some("host1:9090"), None, None, None);
      InstancesOf(Records([h1, h1])) == {Some("host1:9090")}
  {
    var h1 := MetricRecord(Some("host1:9090"), None, None, None);
    InstancesOfSnoc([], h1);
    InstancesOfSnoc([h1], h1);
    assert [] + [h1] == [h1] && [h1] + [h1] == [h1, h1];
  }

  /** `get_prometheus_instances`: the distinct instances of a live status fetch. */
  method GetPrometheusInstances(baseUrl: string, backend: string -> nat -> Outcome)
    returns (instances: set<Option<string>>)
    ensures instances == InstancesOf(EntryFor(baseUrl, backend, None, "status"))
  {
    assert Known("status");
    AsWrittenAgreesOnKnownNames(baseUrl, backend, Some(StatusNames), None);
    var outcome := FetchPrometheusMetrics(baseUrl, backend, Some(StatusNames), None);
    instances := CollectInstances(StatusesIn(outcome.results));
  }

  /** `get_prometheus_hosts`: the distinct hosts of a live status fetch. */
  method GetPrometheusHosts(baseUrl: string, backend: string -> nat -> Outcome)
    returns (hosts: set<Option<string>>)
    ensures hosts == HostsOf(EntryFor(baseUrl, backend, None, "status"))
  {
    assert Known("status");
    AsWrittenAgreesOnKnownNames(baseUrl, backend, Some(StatusNames), None);
    var outcome := FetchPrometheusMetrics(baseUrl, backend, Some(StatusNames), None);
    hosts := CollectHosts(StatusesIn(outcome.results));
  }

  // ---------------------------------------------------------------------------
  // `get_prometheus_metrics`

  /** `instances.split(",") if instances else None` */
  function HostFilter(instances: Option<string>): Option<seq<string>> {
    if instances.None? || instances.value == "" then None else Some(Split(instances.value, ','))
  }

  /**
   * A present, non-empty `instances` becomes a non-empty list of comma-free instance
   * strings that joins back to it, so the fetch filters on exactly those; an absent or
   * empty one means no filter.
   */
  lemma HostFilterSplits(instances: Option<string>)
    ensures instances.None? || instances == Some("") ==> HostFilter(instances).None?
    ensures instances.Some? && instances.value != "" ==>
      && HostFilter(instances).Some?
      && HostFilter(instances).value != []
      && Join(HostFilter(instances).value, ',') == instances.value
      && forall i :: 0 <= i < |HostFilter(instances).value| ==> ',' !in HostFilter(instances).value[i]
  {
    if instances.Some? && instances.value != "" {
      JoinSplit(instances.value, ',');
    }
  }

  /** `get_prometheus_metrics(instances)`: every metric class, fetched live and filtered by the given instances. */
  method GetPrometheusMetrics(baseUrl: string, backend: string -> nat -> Outcome, instances: Option<string>)
    returns (results: FetchResult)
    ensures results == Collect(baseUrl, backend, DefaultNames, HostFilter(instances))
    ensures results.Keys == DefaultQueries.Keys
  {
    var filter := HostFilter(instances);
    DefaultNamesAreTheQueryKeys();
    AsWrittenAgreesOnKnownNames(baseUrl, backend, Some(DefaultNames), filter);
    var outcome := FetchPrometheusMetrics(baseUrl, backend, Some(DefaultNames), filter);
    results := outcome.results;
  }

  // ---------------------------------------------------------------------------
  // One cycle of `status_worker` and of `metrics_worker`

  /** One pass of `status_worker`'s loop body before its sleep. */
  method StatusWorkerCycle(cache: Cache<FetchResult>, baseUrl: string, backend: string -> nat -> Outcome)
    modifies cache
    ensures cache.entries == old(cache.entries)[StatusKey := Collect(baseUrl, backend, StatusNames, None)]
    ensures Lookup(cache.entries, MetricsKey) == Lookup(old(cache.entries), MetricsKey)
  {
    assert Known("status");
    AsWrittenAgreesOnKnownNames(baseUrl, backend, Some(StatusNames), None);
    var status := FetchPrometheusMetrics(baseUrl, backend, Some(StatusNames), None);
    cache.Set(StatusKey, status.results);
  }

  /** One pass of `metrics_worker`'s loop body before its sleep. */
  method MetricsWorkerCycle(cache: Cache<FetchResult>, baseUrl: string, backend: string -> nat -> Outcome)
    modifies cache
    ensures cache.entries == old(cache.entries)[MetricsKey := Collect(baseUrl, backend, OtherNames, None)]
    ensures Lookup(cache.entries, StatusKey) == Lookup(old(cache.entries), StatusKey)
  {
    assert Known("cpu_usage") && Known("memory_usage") && Known("disk_usage");
    AsWrittenAgreesOnKnownNames(baseUrl, backend, Some(OtherNames), None);
    var metrics := FetchPrometheusMetrics(baseUrl, backend, Some(OtherNames), None);
    cache.Set(MetricsKey, metrics.results);
  }

  // ---------------------------------------------------------------------------
  // The WebSocket push

  /** `{"statuses": ..., "metrics": ...}` */
  datatype PushPayload = PushPayload(statuses: Entry, metrics: FetchResult)

  /** The payload built from the two cache reads, where `None` is a miss. */
  function MergePayload(statusData: Option<FetchResult>, metricsData: Option<FetchResult>): (p: PushPayload)
    ensures p.statuses == if statusData.Some? && "status" in statusData.value then statusData.value["status"] else Records([])
    ensures p.metrics == if metricsData.Some? then metricsData.value else map[]
  {
    // `json.loads(data) if data else {}`
    PushPayload(StatusesIn(statusData.GetOr(map[])), metricsData.GetOr(map[]))
  }

  /** One pass of the push loop: read both keys and build the payload, without calling the backend. */
  method PushOnce(cache: Cache<FetchResult>) returns (payload: PushPayload)
    ensures payload == MergePayload(Lookup(cache.entries, StatusKey), Lookup(cache.entries, MetricsKey))
  {
    var statusData := cache.Get(StatusKey);
    var metricsData := cache.Get(MetricsKey);
    payload := MergePayload(statusData, metricsData);
  }

  /**
   * The first push after a status poll and before any metrics poll carries the
   * fetched status entry and an empty metrics map; with both keys missing it is empty.
   */
  lemma FirstPushAfterStatusPoll(baseUrl: string, backend: string -> nat -> Outcome, entries: map<string, FetchResult>)
    requires MetricsKey !in entries
    ensures var polled := entries[StatusKey := Collect(baseUrl, backend, StatusNames, None)];
      MergePayload(Lookup(polled, StatusKey), Lookup(polled, MetricsKey))
        == PushPayload(EntryFor(baseUrl, backend, None, "status"), map[])
    ensures StatusKey !in entries ==>
      MergePayload(Lookup(entries, StatusKey), Lookup(entries, MetricsKey)) == PushPayload(Records([]), map[])
  {
  }

  /** End to end: a backend answering the status query with one up host yields that host's record in the first push. */
  lemma EndToEndStatusPush(baseUrl: string, entries: map<string, FetchResult>)
    requires MetricsKey !in entries
    ensures var item := RawItem(Some(map["instance" := "h1:9090"]), Some(["1000", "1"]));
            var backend := (q: string) => (i: nat) => Response(200, Payload(Some(QueryData(Some([item])))));
            var polled := entries[StatusKey := Collect(baseUrl, backend, StatusNames, None)];
      MergePayload(Lookup(polled, StatusKey), Lookup(polled, MetricsKey))
        == PushPayload(Records([MetricRecord(Some("h1:9090"), None, Some(Float("1")), Some(Float("1000")))]), map[])
  {
    var item := RawItem(Some(map["instance" := "h1:9090"]), Some(["1000", "1"]));
    var backend := (q: string) => (i: nat) => Response(200, Payload(Some(QueryData(Some([item])))));
    SuccessBecomesEntry(baseUrl, backend, None, "status", 0);
    FirstPushAfterStatusPoll(baseUrl, backend, entries);
    assert FormatAll([item]) == [Format(item)];
  }

  /** A transport handle; only its identity matters. */
  class WebSocket {
    constructor () {}
  }

  /** `WSConnectionManager`: one slot for the current connection. */
  class WSConnectionManager {
    var websocket: WebSocket?

    constructor ()
      ensures websocket == null
    {
      websocket := null;
    }

    /** The endpoint's `manager.websocket = ws`: the new connection takes the slot, replacing whatever it held. */
    method Connect(ws: WebSocket)
      modifies this
      ensures websocket == ws
    {
      websocket := ws;
    }

    /** Clears the slot, whichever connection it holds. */
    method Disconnect()
      modifies this
      ensures websocket == null
    {
      websocket := null;
    }
  }

  /**
   * One `websocket_endpoint` session: register the socket in the slot, push the
   * current payload `delivered` times, then, when the client has gone, clear the slot.
   */
  method WebsocketEndpoint(manager: WSConnectionManager, ws: WebSocket, cache: Cache<FetchResult>, delivered: nat)
    returns (registered: WebSocket?, sent: seq<PushPayload>)
    modifies manager
    ensures registered == ws
    ensures manager.websocket == null
    ensures |sent| == delivered
    ensures forall k :: 0 <= k < |sent| ==>
      sent[k] == MergePayload(Lookup(cache.entries, StatusKey), Lookup(cache.entries, MetricsKey))
  {
    manager.Connect(ws);
    // the slot as the pushes see it
    registered := manager.websocket;
    sent := [];
    while |sent| < delivered
      invariant |sent| <= delivered
      invariant forall k :: 0 <= k < |sent| ==>
        sent[k] == MergePayload(Lookup(cache.entries, StatusKey), Lookup(cache.entries, MetricsKey))
    {
      var payload := PushOnce(cache);
      sent := sent + [payload];
    }
    // WebSocketDisconnect
    manager.Disconnect();
  }

  /**
   * Two overlapping sessions: the second connect overwrites the first one's
   * registration, and the first session's disconnect then empties the slot although
   * the second session is still connected.
   */
  method OverlappingSessions(manager: WSConnectionManager, first: WebSocket, second: WebSocket)
    returns (afterFirst: WebSocket?, afterSecond: WebSocket?)
    modifies manager
    ensures afterFirst == first
    ensures afterSecond == second
    ensures manager.websocket == null
  {
    manager.Connect(first);
    afterFirst := manager.websocket;
    manager.Connect(second);
    afterSecond := manager.websocket;
    // the first session ends
    manager.Disconnect();
  }
}
