/**
 * The query client, the metric formatter and the fetcher of the Prometheus service
 * (api/app/utils/prometheus_service.py).
 *
 * The HTTP client is replaced by an oracle: for each PromQL expression, the outcome
 * the i-th GET attempt for it would have. `asyncio.sleep` is replaced by a record of
 * the delays the retry loop asks for.
 */
module PrometheusService {
  import opened Wrappers
  import opened Strings

  // ---------------------------------------------------------------------------
  // Configuration

  /** The PromQL expressions of the four metric classes. */
  const StatusQuery: string := "up"
  const CpuQuery: string := "100 - (avg by (instance) (irate(node_cpu_seconds_total{mode='idle'}[5m])) * 100)"
  const MemoryQuery: string := "(node_memory_MemTotal_bytes - node_memory_MemAvailable_bytes) / node_memory_MemTotal_bytes * 100"
  const DiskQuery: string := "100 - (node_filesystem_avail_bytes{fstype!=\"tmpfs\", mountpoint!=\"/boot\"} * 100) / node_filesystem_size_bytes{fstype!=\"tmpfs\", mountpoint!=\"/boot\"}"

  /** DEFAULT_QUERIES: every metric class the service knows, with its PromQL expression. */
  const DefaultQueries: map<string, string> := map[
    "status" := StatusQuery,
    "cpu_usage" := CpuQuery,
    "memory_usage" := MemoryQuery,
    "disk_usage" := DiskQuery
  ]

  /** The keys of DEFAULT_QUERIES in the dictionary's insertion order. */
  const DefaultNames: seq<string> := ["status", "cpu_usage", "memory_usage", "disk_usage"]

  /** The defaults of `_request`'s `retries` and `backoff_factor` parameters. */
  const DefaultRetries: int := 3
  const DefaultBackoff: real := 0.5

  /** The query endpoint below the configured PROMETHEUS_URL. */
  function QueryUrl(baseUrl: string): string {
    baseUrl + "/api/v1/query"
  }

  /** `DEFAULT_QUERIES.get(m)` is truthy: the name has a (non-empty) query. */
  predicate Known(name: string) {
    name in DefaultQueries && DefaultQueries[name] != ""
  }

  lemma DefaultNamesAreTheQueryKeys()
    ensures (set m | m in DefaultNames) == DefaultQueries.Keys
    ensures forall m :: m in DefaultNames ==> Known(m)
  {
    assert forall m :: m in DefaultQueries.Keys ==> m in DefaultNames;
  }

  // ---------------------------------------------------------------------------
  // What the backend sends

  /**
   * One element of `data.result`: its label set (`metric`) and its `[timestamp, value]`
   * pair (`value`), each absent or present. The pair's elements are kept as the text
   * that `float()` would parse.
   */
  datatype RawItem = RawItem(metric: Option<map<string, string>>, value: Option<seq<string>>)
  datatype QueryData = QueryData(result: Option<seq<RawItem>>)
  /** The parsed JSON body of a query response: `{data: {result: [...]}}`, keys optional. */
  datatype Payload = Payload(data: Option<QueryData>)

  /** What one GET attempt ends with. */
  datatype Outcome =
    | Response(status: int, body: Payload)
    | RequestError    // httpx.RequestError: connection refused, DNS failure, ...
    | TimeoutError    // asyncio.TimeoutError

  /** The `httpx.HTTPError`s `_request` raises. */
  datatype HttpError =
    | StatusError(status: int, url: string)   // the re-raised HTTPStatusError of a 4xx response
    | Exhausted(url: string, retries: int)    // "Failed to fetch data from ... after N attempts"

  datatype RequestResult = Returned(body: Payload) | Raised(error: HttpError)

  /** A run of the retry loop: how it ended, how many GETs it made, how many times it slept. */
  datatype Trace = Trace(result: RequestResult, attempts: nat, sleeps: nat)

  // ---------------------------------------------------------------------------
  // Query client: `_request`

  predicate IsClientError(status: int) { 400 <= status < 500 }

  /** An outcome after which `_request` sleeps and tries again: a 5xx, a RequestError or a timeout. */
  predicate Retryable(o: Outcome) {
    match o
    case Response(status, _) => status >= 500
    case _ => true
  }

  /** A response below 400: `_request` returns its body on this attempt. */
  predicate Succeeds(o: Outcome) {
    o.Response? && o.status < 400
  }

  /** The number of iterations of `for _ in range(retries)`. */
  function Iterations(retries: int): nat {
    if retries > 0 then retries else 0
  }

  /** The retry loop from attempt `i` on: the reference definition of `_request`. */
  function RetryFrom(url: string, net: nat -> Outcome, retries: int, i: nat): Trace
    decreases retries - i
  {
    if i >= retries then Trace(Raised(Exhausted(url, retries)), i, i)
    else
      match net(i)
      case Response(status, body) =>
        if IsClientError(status) then Trace(Raised(StatusError(status, url)), i + 1, i)
        else if status >= 500 then RetryFrom(url, net, retries, i + 1)
        else Trace(Returned(body), i + 1, i)
      case _ => RetryFrom(url, net, retries, i + 1)
  }

  function Retry(url: string, net: nat -> Outcome, retries: int): Trace {
    RetryFrom(url, net, retries, 0)
  }

  /**
   * How a run from attempt `i` can end. Every attempt before the last one it makes was
   * retryable and was followed by exactly one sleep; a run that returns or re-raises
   * stops on its deciding attempt and does not sleep after it; a run that exhausts its
   * attempts made all of them and slept after each.
   */
  lemma {:induction false} RetryFromShape(url: string, net: nat -> Outcome, retries: int, i: nat)
    ensures var t := RetryFrom(url, net, retries, i);
      && i <= t.sleeps <= t.attempts
      && t.attempts <= (if i < retries then retries else i)
      && (i < retries ==> i < t.attempts)
      && (forall j :: i <= j < t.sleeps ==> Retryable(net(j)))
      && (t.result.Returned? ==>
            t.attempts == t.sleeps + 1 && Succeeds(net(t.sleeps)) && net(t.sleeps).body == t.result.body)
      && (t.result.Raised? && t.result.error.StatusError? ==>
            t.attempts == t.sleeps + 1 && net(t.sleeps).Response? && IsClientError(net(t.sleeps).status)
            && t.result.error == StatusError(net(t.sleeps).status, url))
      && (t.result.Raised? && t.result.error.Exhausted? ==>
            t.attempts == t.sleeps && t.attempts == (if i < retries then retries else i)
            && t.result.error == Exhausted(url, retries))
    decreases retries - i
  {
    if i < retries && Retryable(net(i)) {
      RetryFromShape(url, net, retries, i + 1);
    }
  }

  /**
   * The attempt that decides the run: when attempts `0 .. k-1` were all retryable and
   * attempt `k` (within the budget) is not, the run stops at attempt `k` after `k` sleeps,
   * re-raising a 4xx or returning the body of anything below 400.
   */
  lemma {:induction false} RetryStopsAtFirstDecisive(url: string, net: nat -> Outcome, retries: int, k: nat)
    requires k < retries
    requires forall j :: 0 <= j < k ==> Retryable(net(j))
    requires !Retryable(net(k))
    ensures Retry(url, net, retries).attempts == k + 1
    ensures Retry(url, net, retries).sleeps == k
    ensures Retry(url, net, retries).result ==
      if IsClientError(net(k).status) then Raised(StatusError(net(k).status, url)) else Returned(net(k).body)
  {
    var i := k;
    while i > 0
      invariant 0 <= i <= k
      invariant RetryFrom(url, net, retries, i) == RetryFrom(url, net, retries, k)
    {
      // Unfolding RetryFrom one step from i - 1, a retryable attempt.
      assert Retryable(net(i - 1));
      i := i - 1;
    }
  }

  /** When every attempt within the budget is retryable, the run ends with the "after N attempts" error. */
  lemma {:induction false} RetryExhausts(url: string, net: nat -> Outcome, retries: int)
    requires forall j :: 0 <= j < retries ==> Retryable(net(j))
    ensures Retry(url, net, retries) ==
      Trace(Raised(Exhausted(url, retries)), Iterations(retries), Iterations(retries))
  {
    var i := Iterations(retries);
    while i > 0
      invariant 0 <= i <= Iterations(retries)
      invariant RetryFrom(url, net, retries, i) == Trace(Raised(Exhausted(url, retries)), Iterations(retries), Iterations(retries))
    {
      assert Retryable(net(i - 1));
      i := i - 1;
    }
  }

  /** The run reads no outcome beyond its last attempt: two networks that agree up to there give the same run. */
  lemma {:induction false} RetryReadsOnlyItsAttempts(url: string, net: nat -> Outcome, net': nat -> Outcome, retries: int, i: nat)
    requires forall j :: i <= j < RetryFrom(url, net, retries, i).attempts ==> net(j) == net'(j)
    ensures RetryFrom(url, net', retries, i) == RetryFrom(url, net, retries, i)
    decreases retries - i
  {
    if i < retries {
      RetryFromShape(url, net, retries, i);
      assert net(i) == net'(i);
      if Retryable(net(i)) {
        RetryReadsOnlyItsAttempts(url, net, net', retries, i + 1);
      }
    }
  }

  /**
   * `_request(url, params, retries, backoff_factor)` against the outcomes `net` of the
   * GETs for `params`. Returns what the call returns or raises, the number of GETs made
   * and the delays passed to `asyncio.sleep`, in order.
   */
  method Request(url: string, net: nat -> Outcome, retries: int, backoff: real)
    returns (result: RequestResult, attempts: nat, sleeps: seq<real>)
    ensures Trace(result, attempts, |sleeps|) == Retry(url, net, retries)
    ensures attempts <= Iterations(retries)
    ensures forall k :: 0 <= k < |sleeps| ==> sleeps[k] == backoff
    ensures forall j :: 0 <= j < |sleeps| ==> Retryable(net(j))
    ensures result.Returned? ==>
      attempts == |sleeps| + 1 && Succeeds(net(|sleeps|)) && net(|sleeps|).body == result.body
    ensures result.Raised? && result.error.StatusError? ==>
      attempts == |sleeps| + 1 && net(|sleeps|).Response? && IsClientError(net(|sleeps|).status)
      && result.error == StatusError(net(|sleeps|).status, url)
    ensures result.Raised? && result.error.Exhausted? ==>
      attempts == |sleeps| == Iterations(retries) && result.error == Exhausted(url, retries)
  {
    RetryFromShape(url, net, retries, 0);
    attempts, sleeps := 0, [];
    var i := 0;
    while i < retries
      invariant 0 <= i && (retries >= 0 ==> i <= retries)
      decreases retries - i
      invariant attempts == i && |sleeps| == i
      invariant forall k :: 0 <= k < |sleeps| ==> sleeps[k] == backoff
      invariant RetryFrom(url, net, retries, i) == Retry(url, net, retries)
    {
      attempts := attempts + 1;
      match net(i) {
        case Response(status, body) =>
          if IsClientError(status) {
            result := Raised(StatusError(status, url));
            return;
          }
          if status >= 500 {
            sleeps := sleeps + [backoff];
          } else {
            result := Returned(body);
            return;
          }
        case RequestError =>
          sleeps := sleeps + [backoff];
        case TimeoutError =>
          sleeps := sleeps + [backoff];
      }
      i := i + 1;
    }
    result := Raised(Exhausted(url, retries));
  }

  /** `str(e)` for the errors `_request` raises. */
  function Describe(e: HttpError): string {
    match e
    case StatusError(status, url) => "Client error '" + IntToString(status) + "' for url '" + url + "'"
    case Exhausted(url, retries) =>
      "Failed to fetch data from " + url + " after " + IntToString(retries) + " attempts"
  }

  // ---------------------------------------------------------------------------
  // Metric formatter: `_format_metrics_to_readable`

  /** The result of `float(text)`; the conversion itself is left uninterpreted. */
  datatype Float = Float(text: string)

  /** A normalised series element: `{instance, job, value, timestamp}`, each possibly `None`. */
  datatype MetricRecord = MetricRecord(
    instance: Option<string>, job: Option<string>, value: Option<Float>, timestamp: Option<Float>)

  function Format(item: RawItem): (r: MetricRecord)
    ensures r.value.Some? <==> item.value.Some? && |item.value.value| >= 2
    ensures r.value.Some? ==> r.value.value == Float(item.value.value[1])
    ensures r.timestamp.Some? <==> item.value.Some? && |item.value.value| >= 1
    ensures r.timestamp.Some? ==> r.timestamp.value == Float(item.value.value[0])
    ensures r.instance == (if item.metric.Some? then Lookup(item.metric.value, "instance") else None)
    ensures r.job == (if item.metric.Some? then Lookup(item.metric.value, "job") else None)
  {
    // `item.get("metric", {}) or {}` and `item.get("value", []) or []`
    var metric := item.metric.GetOr(map[]);
    var value := item.value.GetOr([]);
    MetricRecord(
      Lookup(metric, "instance"),
      Lookup(metric, "job"),
      if |value| > 1 then Some(Float(value[1])) else None,
      if |value| > 0 then Some(Float(value[0])) else None)
  }

  /** A missing `metric` or `value` key formats exactly like an empty one; labels beyond instance and job are ignored. */
  lemma FormatTreatsMissingAsEmpty(labels: map<string, string>, value: Option<seq<string>>)
    ensures Format(RawItem(None, value)) == Format(RawItem(Some(map[]), value))
    ensures Format(RawItem(Some(labels), None)) == Format(RawItem(Some(labels), Some([])))
    ensures Format(RawItem(None, value)).instance == None && Format(RawItem(None, value)).job == None
    ensures Format(RawItem(Some(labels), value)) ==
      Format(RawItem(Some(map k | k in labels && (k == "instance" || k == "job") :: labels[k]), value))
  {
  }

  /** The `asyncio.gather` over every element of the series: one record per element, in order. */
  function FormatAll(items: seq<RawItem>): seq<MetricRecord> {
    seq(|items|, i requires 0 <= i < |items| => Format(items[i]))
  }

  /** `payload.get("data", {}).get("result", [])` */
  function Series(p: Payload): seq<RawItem> {
    match p.data
    case None => []
    case Some(d) => d.result.GetOr([])
  }

  // ---------------------------------------------------------------------------
  // Host filter: `[item for item in readable if item.get("instance") in hosts]`

  /** The record's `instance` is, as a whole string, one of `hosts`. */
  predicate Matches(r: MetricRecord, hosts: seq<string>) {
    r.instance.Some? && r.instance.value in hosts
  }

  function Filter(rs: seq<MetricRecord>, hosts: seq<string>): seq<MetricRecord> {
    if rs == [] then []
    else (if Matches(rs[0], hosts) then [rs[0]] else []) + Filter(rs[1..], hosts)
  }

  /** `if hosts:` an absent or empty host list keeps every record. */
  function KeepHosts(rs: seq<MetricRecord>, hosts: Option<seq<string>>): seq<MetricRecord> {
    if hosts.None? || hosts.value == [] then rs else Filter(rs, hosts.value)
  }

  /** A record survives the filter exactly when it was there and its instance is one of the hosts. */
  lemma {:induction false} FilterMembers(rs: seq<MetricRecord>, hosts: seq<string>, r: MetricRecord)
    ensures r in Filter(rs, hosts) <==> r in rs && Matches(r, hosts)
  {
    if rs != [] {
      FilterMembers(rs[1..], hosts, r);
      assert rs == [rs[0]] + rs[1..];
    }
  }

  /** The filter works element by element, so it keeps the survivors in their original order. */
  lemma {:induction false} FilterAppend(a: seq<MetricRecord>, b: seq<MetricRecord>, hosts: seq<string>)
    ensures Filter(a + b, hosts) == Filter(a, hosts) + Filter(b, hosts)
  {
    if a == [] {
      assert a + b == b;
    } else {
      var ab := a + b;
      var head := if Matches(a[0], hosts) then [a[0]] else [];
      assert ab[0] == a[0] && ab[1..] == a[1..] + b;
      calc {
        Filter(ab, hosts);
        head + Filter(a[1..] + b, hosts);
        { FilterAppend(a[1..], b, hosts); }
        head + (Filter(a[1..], hosts) + Filter(b, hosts));
        (head + Filter(a[1..], hosts)) + Filter(b, hosts);
        Filter(a, hosts) + Filter(b, hosts);
      }
    }
  }

  /** The filter never adds records. */
  lemma {:induction false} FilterShrinks(rs: seq<MetricRecord>, hosts: seq<string>)
    ensures |Filter(rs, hosts)| <= |rs|
  {
    if rs != [] {
      FilterShrinks(rs[1..], hosts);
    }
  }

  /** What `KeepHosts` keeps, with and without a host list. */
  lemma KeepHostsSelects(rs: seq<MetricRecord>, hosts: Option<seq<string>>, r: MetricRecord)
    ensures (hosts.None? || hosts.value == []) ==> KeepHosts(rs, hosts) == rs
    ensures hosts.Some? && hosts.value != [] ==>
      (r in KeepHosts(rs, hosts) <==> r in rs && r.instance.Some? && r.instance.value in hosts.value)
  {
    if hosts.Some? && hosts.value != [] {
      FilterMembers(rs, hosts.value, r);
    }
  }

  /** The match is on the whole `host:port` string: a host name alone matches nothing. */
  lemma KeepHostsIsExact()
    ensures var h1 := MetricRecord(Some("host1:9090"), None, None, None);
            var h2 := MetricRecord(Some("host2:9090"), None, None, None);
      && KeepHosts([h1, h2], Some(["host1:9090"])) == [h1]
      && KeepHosts([h1, h2], Some(["host1"])) == []
  {
  }

  // ---------------------------------------------------------------------------
  // Fetcher: `fetch_prometheus_metrics`

  /** One `results` value: the list of records, or `{"error": message}`. */
  datatype Entry = Records(items: seq<MetricRecord>) | Error(message: string)

  type FetchResult = map<string, Entry>

  /** How a call of `fetch_prometheus_metrics` ends: with its `results`, or with a TypeError raised at name `name`. */
  datatype FetchOutcome = Fetched(results: FetchResult) | Aborted(name: string)

  /** `metrics or DEFAULT_QUERIES.keys()` */
  function Requested(metrics: Option<seq<string>>): seq<string> {
    if metrics.None? || metrics.value == [] then DefaultNames else metrics.value
  }

  /** The entry that a query run leaves in `results`. */
  function EntryOf(r: RequestResult, hosts: Option<seq<string>>): Entry {
    match r
    case Returned(payload) => Records(KeepHosts(FormatAll(Series(payload)), hosts))
    case Raised(e) => Error(Describe(e))
  }

  /**
   * The entry for one name: the filtered records or the error of its own query run,
   * and for a name without a query the "Metric not found" marker that the fetcher is
   * meant to record (see `FetchAsWritten` for what line 92 actually does).
   */
  function EntryFor(baseUrl: string, backend: string -> nat -> Outcome, hosts: Option<seq<string>>, name: string): Entry {
    if !Known(name) then Error("Metric not found")
    else EntryOf(Retry(QueryUrl(baseUrl), backend(DefaultQueries[name]), DefaultRetries).result, hosts)
  }

  /** Every requested name with its entry. */
  function Collect(baseUrl: string, backend: string -> nat -> Outcome, names: seq<string>, hosts: Option<seq<string>>): FetchResult {
    map m | m in names :: EntryFor(baseUrl, backend, hosts, m)
  }

  /** The first index whose name has no query, if there is one. */
  function FirstUnknown(names: seq<string>): (k: Option<nat>)
    ensures k.None? <==> forall j :: 0 <= j < |names| ==> Known(names[j])
    ensures k.Some? ==>
      && k.value < |names| && !Known(names[k.value])
      && forall j :: 0 <= j < k.value ==> Known(names[j])
  {
    if names == [] then None
    else if !Known(names[0]) then Some(0)
    else match FirstUnknown(names[1..])
      case None => None
      case Some(k) => Some(k + 1)
  }

  /**
   * The reference definition of `fetch_prometheus_metrics` as written: the loop stops
   * at the first name without a query, where `metrics[m] = ...` indexes a list by a
   * string and raises TypeError, discarding every entry made so far.
   */
  function FetchAsWritten(baseUrl: string, backend: string -> nat -> Outcome, metrics: Option<seq<string>>, hosts: Option<seq<string>>): FetchOutcome {
    var names := Requested(metrics);
    match FirstUnknown(names)
    case None => Fetched(Collect(baseUrl, backend, names, hosts))
    case Some(k) => Aborted(names[k])
  }

  /**
   * Every requested name gets exactly one entry and no other key appears; each entry
   * depends only on its own name's query run.
   */
  lemma CollectEntryPerName(baseUrl: string, backend: string -> nat -> Outcome, names: seq<string>, hosts: Option<seq<string>>)
    ensures Collect(baseUrl, backend, names, hosts).Keys == set m | m in names
    ensures forall m :: m in names ==> Collect(baseUrl, backend, names, hosts)[m] == EntryFor(baseUrl, backend, hosts, m)
  {
  }

  /** The four metric classes have four different queries. */
  lemma DefaultQueriesDistinct(m: string, n: string)
    requires Known(m) && Known(n) && m != n
    ensures DefaultQueries[m] != DefaultQueries[n]
  {
    // The four queries have four different lengths.
    assert |StatusQuery| == 2;
    assert |CpuQuery| == 80;
    assert |MemoryQuery| == 96;
    assert |DiskQuery| == 146;
  }

  /**
   * Failure isolation: changing what the backend does for one name's query, whether it
   * fails or not, leaves the entry of every other requested name as it was.
   */
  lemma CollectIsolatesNames(baseUrl: string, backend: string -> nat -> Outcome, backend': string -> nat -> Outcome,
                             names: seq<string>, hosts: Option<seq<string>>, n: string)
    requires Known(n)
    requires forall q :: q != DefaultQueries[n] ==> backend(q) == backend'(q)
    ensures forall m :: m in names && m != n ==>
      Collect(baseUrl, backend', names, hosts)[m] == Collect(baseUrl, backend, names, hosts)[m]
  {
    forall m | m in names && m != n && Known(m) {
      DefaultQueriesDistinct(m, n);
    }
  }

  /** A re-raised 4xx becomes that name's error entry, like any other HTTPError. */
  lemma ClientErrorBecomesEntry(baseUrl: string, backend: string -> nat -> Outcome, hosts: Option<seq<string>>, name: string, k: nat)
    requires Known(name) && k < DefaultRetries
    requires forall j :: 0 <= j < k ==> Retryable(backend(DefaultQueries[name])(j))
    requires backend(DefaultQueries[name])(k).Response? && IsClientError(backend(DefaultQueries[name])(k).status)
    ensures EntryFor(baseUrl, backend, hosts, name) ==
      Error(Describe(StatusError(backend(DefaultQueries[name])(k).status, QueryUrl(baseUrl))))
  {
    RetryStopsAtFirstDecisive(QueryUrl(baseUrl), backend(DefaultQueries[name]), DefaultRetries, k);
  }

  /** Three retryable outcomes in a row become the "after 3 attempts" error entry. */
  lemma ExhaustionBecomesEntry(baseUrl: string, backend: string -> nat -> Outcome, hosts: Option<seq<string>>, name: string)
    requires Known(name)
    requires forall j :: 0 <= j < DefaultRetries ==> Retryable(backend(DefaultQueries[name])(j))
    ensures EntryFor(baseUrl, backend, hosts, name) ==
      Error("Failed to fetch data from " + QueryUrl(baseUrl) + " after 3 attempts")
  {
    RetryExhausts(QueryUrl(baseUrl), backend(DefaultQueries[name]), DefaultRetries);
    ExhaustedMessage(QueryUrl(baseUrl));
  }

  /** The text of the "after N attempts" error for the default three retries. */
  lemma ExhaustedMessage(url: string)
    ensures Describe(Exhausted(url, DefaultRetries)) == "Failed to fetch data from " + url + " after 3 attempts"
  {
    assert IntToString(3) == "3";
  }

  /** A successful query becomes the list of its formatted, filtered records. */
  lemma SuccessBecomesEntry(baseUrl: string, backend: string -> nat -> Outcome, hosts: Option<seq<string>>, name: string, k: nat)
    requires Known(name) && k < DefaultRetries
    requires forall j :: 0 <= j < k ==> Retryable(backend(DefaultQueries[name])(j))
    requires Succeeds(backend(DefaultQueries[name])(k))
    ensures EntryFor(baseUrl, backend, hosts, name) ==
      Records(KeepHosts(FormatAll(Series(backend(DefaultQueries[name])(k).body)), hosts))
  {
    RetryStopsAtFirstDecisive(QueryUrl(baseUrl), backend(DefaultQueries[name]), DefaultRetries, k);
  }

  lemma CollectSnoc(baseUrl: string, backend: string -> nat -> Outcome, names: seq<string>, m: string, hosts: Option<seq<string>>)
    ensures Collect(baseUrl, backend, names + [m], hosts) ==
      Collect(baseUrl, backend, names, hosts)[m := EntryFor(baseUrl, backend, hosts, m)]
  {
    var lhs := Collect(baseUrl, backend, names + [m], hosts);
    var rhs := Collect(baseUrl, backend, names, hosts)[m := EntryFor(baseUrl, backend, hosts, m)];
    assert forall x :: x in names + [m] <==> x in names || x == m;
    assert lhs.Keys == rhs.Keys;
  }

  /** The first unknown name is the one the loop stops at. */
  lemma FirstUnknownAt(names: seq<string>, k: nat)
    requires k < |names| && !Known(names[k])
    requires forall j :: 0 <= j < k ==> Known(names[j])
    ensures FirstUnknown(names) == Some(k)
  {
  }

  /**
   * The fetch as written returns its results exactly when every requested name has a
   * query, and then holds one entry per name; otherwise it aborts at a name without one.
   */
  lemma FetchAsWrittenCases(baseUrl: string, backend: string -> nat -> Outcome,
                            metrics: Option<seq<string>>, hosts: Option<seq<string>>)
    ensures var outcome := FetchAsWritten(baseUrl, backend, metrics, hosts);
      && (outcome.Fetched? <==> forall m :: m in Requested(metrics) ==> Known(m))
      && (outcome.Fetched? ==> outcome.results == Collect(baseUrl, backend, Requested(metrics), hosts))
      && (outcome.Aborted? ==> outcome.name in Requested(metrics) && !Known(outcome.name))
  {
    var names := Requested(metrics);
    if forall j :: 0 <= j < |names| ==> Known(names[j]) {
      assert forall m :: m in names ==> Known(m);
    }
  }

  /**
   * `fetch_prometheus_metrics(metrics, hosts)` as written, with `PROMETHEUS_URL` as
   * `baseUrl` and the backend's outcomes for each query as `backend`.
   */
  method FetchPrometheusMetrics(baseUrl: string, backend: string -> nat -> Outcome,
                                metrics: Option<seq<string>>, hosts: Option<seq<string>>)
    returns (outcome: FetchOutcome)
    ensures outcome == FetchAsWritten(baseUrl, backend, metrics, hosts)
  {
    var names := Requested(metrics);
    var url := QueryUrl(baseUrl);
    var results: FetchResult := map[];
    var k := 0;
    while k < |names|
      invariant 0 <= k <= |names|
      invariant forall j :: 0 <= j < k ==> Known(names[j])
      invariant results == Collect(baseUrl, backend, names[..k], hosts)
    {
      var m := names[k];
      if !Known(m) {
        // `metrics[m] = {"error": "Metric not found"}` on a list: TypeError.
        FirstUnknownAt(names, k);
        outcome := Aborted(m);
        return;
      }
      var r, _, _ := Request(url, backend(DefaultQueries[m]), DefaultRetries, DefaultBackoff);
      CollectSnoc(baseUrl, backend, names[..k], m, hosts);
      assert names[..k + 1] == names[..k] + [m];
      results := results[m := EntryOf(r, hosts)];
      k := k + 1;
    }
    assert names[..k] == names;
    outcome := Fetched(results);
  }

  /** `fetch_prometheus_metrics` with line 92 writing into `results`, as the loop evidently intends. */
  method FetchPrometheusMetricsIntended(baseUrl: string, backend: string -> nat -> Outcome,
                                        metrics: Option<seq<string>>, hosts: Option<seq<string>>)
    returns (results: FetchResult)
    ensures results == Collect(baseUrl, backend, Requested(metrics), hosts)
    ensures results.Keys == set m | m in Requested(metrics)
    ensures forall m :: m in results && !Known(m) ==> results[m] == Error("Metric not found")
  {
    var names := Requested(metrics);
    var url := QueryUrl(baseUrl);
    results := map[];
    var k := 0;
    while k < |names|
      invariant 0 <= k <= |names|
      invariant results == Collect(baseUrl, backend, names[..k], hosts)
    {
      var m := names[k];
      CollectSnoc(baseUrl, backend, names[..k], m, hosts);
      assert names[..k + 1] == names[..k] + [m];
      if !Known(m) {
        results := results[m := Error("Metric not found")];
      } else {
        var r, _, _ := Request(url, backend(DefaultQueries[m]), DefaultRetries, DefaultBackoff);
        results := results[m := EntryOf(r, hosts)];
      }
      k := k + 1;
    }
    assert names[..k] == names;
  }

  /**
   * A status fetch filtered to `host1`, the query answering with series for `host1`
   * (value "1") and `host2` (value "0"): only the `host1` record is kept, with value 1.
   */
  lemma FilteredFetchExample(baseUrl: string)
    ensures var h1 := RawItem(Some(map["instance" := "host1", "job" := "job1"]), Some(["1625247600", "1"]));
            var h2 := RawItem(Some(map["instance" := "host2", "job" := "job1"]), Some(["1625247600", "0"]));
            var backend := (q: string) => (i: nat) => Response(200, Payload(Some(QueryData(Some([h1, h2])))));
      FetchAsWritten(baseUrl, backend, Some(["status"]), Some(["host1"])) ==
        Fetched(map["status" := Records([MetricRecord(Some("host1"), Some("job1"), Some(Float("1")), Some(Float("1625247600")))])])
  {
    var h1 := RawItem(Some(map["instance" := "host1", "job" := "job1"]), Some(["1625247600", "1"]));
    var h2 := RawItem(Some(map["instance" := "host2", "job" := "job1"]), Some(["1625247600", "0"]));
    var backend := (q: string) => (i: nat) => Response(200, Payload(Some(QueryData(Some([h1, h2])))));
    var r1 := Format(h1);
    var r2 := Format(h2);
    assert FormatAll([h1, h2]) == [r1, r2];
    assert r1.instance == Some("host1") && r2.instance == Some("host2");
    FilterAppend([r1], [r2], ["host1"]);
    assert [r1] + [r2] == [r1, r2];
    assert Filter([r1, r2], ["host1"]) == [r1];
    SuccessBecomesEntry(baseUrl, backend, Some(["host1"]), "status", 0);
    AsWrittenAgreesOnKnownNames(baseUrl, backend, Some(["status"]), Some(["host1"]));
    assert Collect(baseUrl, backend, ["status"], Some(["host1"])) == map["status" := Records([r1])];
  }

  /**
   * The discrepancy of line 92: a request naming an unknown metric ends in TypeError,
   * losing every entry, while the intended fetch records "Metric not found" for it and
   * keeps the other names' entries.
   */
  lemma UnknownMetricAborts(baseUrl: string, backend: string -> nat -> Outcome, hosts: Option<seq<string>>)
    ensures FetchAsWritten(baseUrl, backend, Some(["status", "no_such_metric"]), hosts) == Aborted("no_such_metric")
    ensures var intended := Collect(baseUrl, backend, ["status", "no_such_metric"], hosts);
      && intended.Keys == {"status", "no_such_metric"}
      && intended["no_such_metric"] == Error("Metric not found")
      && intended["status"] == EntryFor(baseUrl, backend, hosts, "status")
  {
    var names := ["status", "no_such_metric"];
    assert Known("status") && !Known("no_such_metric");
    assert FirstUnknown(names) == Some(1);
    assert forall x :: x in names <==> x == "status" || x == "no_such_metric";
  }

  /** When every requested name has a query, the fetch as written and the intended one agree. */
  lemma AsWrittenAgreesOnKnownNames(baseUrl: string, backend: string -> nat -> Outcome,
                                    metrics: Option<seq<string>>, hosts: Option<seq<string>>)
    requires forall m :: m in Requested(metrics) ==> Known(m)
    ensures FetchAsWritten(baseUrl, backend, metrics, hosts) == Fetched(Collect(baseUrl, backend, Requested(metrics), hosts))
  {
    var names := Requested(metrics);
    assert forall j :: 0 <= j < |names| ==> Known(names[j]);
  }
}
