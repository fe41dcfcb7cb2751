# Prometheus polling, caching and push — a Dafny model

This project models the metric collection core of a small monitoring API. The API
pulls host status and resource usage from a Prometheus server, caches the latest
snapshots in Redis, and pushes them to a WebSocket client on a timer.

The model covers these parts:

- **The query client `_request`.** A bounded retry loop. A 4xx response is re-raised at
  once. A 5xx response, a transport error or a timeout sleeps a constant
  `backoff_factor` and tries again. A run that uses up its attempts raises "Failed to
  fetch data from `<url>` after `<retries>` attempts". The docstring calls the backoff
  "exponential", but the code waits the same fixed delay every time, and the model
  proves that.
- **The formatter `_format_metrics_to_readable`.** It turns one raw series element into
  `{instance, job, value, timestamp}`. Each field is `None` when its source is missing.
- **The fetcher `fetch_prometheus_metrics`.** It runs one query per requested metric
  name and formats the series. It keeps only the records whose `instance` is one of the
  given hosts, compared as whole strings. It records `{"error": str(e)}` for a failed
  query and leaves the other names' entries alone.
- **The router's shaping logic:**
  - host extraction from `host:port`;
  - the de-duplicated instance and host listings;
  - the comma-separated instance filter of the live metrics endpoint;
  - one cycle of each poll worker, which writes the cache;
  - the WebSocket payload merge;
  - the single-slot connection manager.

The I/O is replaced by parameters:

- **The Prometheus backend** is `backend: string -> nat -> Outcome`. It gives, for each
  query expression, the outcome of the i-th GET attempt: a response with its status
  and parsed body, a `RequestError` or a `TimeoutError`.
- **`asyncio.sleep`** becomes the list of delays the retry loop asks for.
- **Redis** is a `Cache` object that holds a map. A miss reads as `None`.
- **`PROMETHEUS_URL`** is the `baseUrl` parameter.
- **`json.dumps` and `json.loads`** are treated as cancelling each other.

The formatter reads `instance` and `job` from a series element's `metric` label set
(line 68 of `prometheus_service.py`). An element that carries `instance` at its top
level instead, outside `metric`, therefore formats with `instance = None`. The model
follows the code: `EndToEndStatusPush` places the instance inside `metric`.

Every formatted record has an `instance` key, even when its value is `None`. So the
listing endpoints' test `"instance" in item` always holds for records, and `None` can
appear among the listed instances and hosts. When the status query failed, the status
entry is `{"error": msg}`. Iterating it visits only the string `"error"`, and
`"instance" in "error"` is a substring test that fails. So a failed status query
yields empty listings.

## Model

| member | source | states |
|---|---|---|
| PrometheusService.Request | api/app/utils/prometheus_service.py:30-56 | The loop's result, GET count and sleep count equal the reference run `Retry`. It makes at most `max(retries, 0)` GETs. Every sleep is exactly `backoff`. Every attempt before the last was retryable. A return is the body of a response below 400 on the last attempt. A re-raise is the 4xx of the last attempt with no sleep after it. Exhaustion means all attempts were made with a sleep after each, and the error names the url and `retries`. |
| PrometheusService.RetryFromShape | api/app/utils/prometheus_service.py:41-56 | From any attempt index: the attempts before the last were retryable and each was followed by one sleep. The deciding attempt decides the result. An exhausted run made exactly the budgeted attempts. |
| PrometheusService.RetryStopsAtFirstDecisive | api/app/utils/prometheus_service.py:43-52 | If attempts 0..k-1 are retryable and attempt k < retries is not, the run stops after k+1 GETs and k sleeps. It re-raises a 4xx, or returns the body of any status below 400. |
| PrometheusService.RetryExhausts | api/app/utils/prometheus_service.py:41-56 | If every budgeted attempt is retryable, the run raises `Exhausted(url, retries)` after `max(retries, 0)` GETs and as many sleeps. With `retries <= 0` that is zero attempts. |
| PrometheusService.RetryReadsOnlyItsAttempts | api/app/utils/prometheus_service.py:41-48 | Two backends that agree on the attempts a run makes give the same run, so no outcome after the deciding attempt is consumed. |
| PrometheusService.Format | api/app/utils/prometheus_service.py:59-73 | `value` is `Some` iff the value list has at least 2 elements, and it is the conversion of element 1. `timestamp` is `Some` iff the list has at least 1 element, and it is the conversion of element 0. `instance` and `job` are the labels' entries, and `None` when the label set is missing. |
| PrometheusService.FormatTreatsMissingAsEmpty | api/app/utils/prometheus_service.py:65-66 | A missing `metric` formats like an empty one, giving `instance = job = None`. A missing `value` formats like an empty one. Labels other than `instance` and `job` do not matter. |
| PrometheusService.FilterMembers | api/app/utils/prometheus_service.py:101 | A record survives the host filter iff it was in the input and its `instance` is present and is one of the hosts. |
| PrometheusService.FilterAppend | api/app/utils/prometheus_service.py:101 | The filter distributes over concatenation, so the survivors keep their original order. |
| PrometheusService.FilterShrinks | api/app/utils/prometheus_service.py:101 | The filter never yields more records than it is given. |
| PrometheusService.KeepHostsSelects | api/app/utils/prometheus_service.py:100-101 | An absent or empty host list keeps every record. A non-empty one keeps exactly the records whose instance is in it. |
| PrometheusService.KeepHostsIsExact | api/app/utils/prometheus_service.py:100-101 | Given `host1:9090` and `host2:9090`, the filter `["host1:9090"]` keeps only the first record. The filter `["host1"]` keeps none, because the match is not a prefix or host-part match. |
| PrometheusService.FilteredFetchExample | api/tests/unit-tests/test_prometheus_service.py:31-52 | A status fetch filtered to `["host1"]`, with series for `host1` (value "1") and `host2` (value "0"), returns exactly one status record: `host1`, job `job1`, value `1`. |
| PrometheusService.DefaultNamesAreTheQueryKeys | api/app/utils/prometheus_service.py:20-27 | The default name list, used when `metrics` is `None` or empty, is exactly the key set of DEFAULT_QUERIES, and every key has a query. |
| PrometheusService.FirstUnknown | api/app/utils/prometheus_service.py:89-93 | It returns `None` iff every name has a query. Otherwise it returns the index of a name without a query, and all names before it have one. |
| PrometheusService.FirstUnknownAt | api/app/utils/prometheus_service.py:89-93 | The name at which the loop first meets a name without a query is the one `FirstUnknown` reports. |
| PrometheusService.FetchPrometheusMetrics | api/app/utils/prometheus_service.py:76-105 | The loop as written yields the reference outcome `FetchAsWritten`. |
| PrometheusService.FetchAsWrittenCases | api/app/utils/prometheus_service.py:85-105 | The fetch as written returns results iff every requested name has a query, and then the results are the per-name entries. Otherwise it aborts at a requested name that has no query. |
| PrometheusService.CollectEntryPerName | api/app/utils/prometheus_service.py:88-105 | Each requested name gets exactly one entry, its own, and no other key appears. |
| PrometheusService.CollectIsolatesNames | api/app/utils/prometheus_service.py:94-104 | Changing the backend's behaviour for one name's query, failing or not, leaves every other requested name's entry unchanged. |
| PrometheusService.ClientErrorBecomesEntry | api/app/utils/prometheus_service.py:49-104 | A re-raised 4xx becomes that name's `{"error": str(e)}` entry. |
| PrometheusService.ExhaustionBecomesEntry | api/app/utils/prometheus_service.py:56-104 | Three retryable attempts in a row become the entry "Failed to fetch data from `<url>` after 3 attempts". |
| PrometheusService.SuccessBecomesEntry | api/app/utils/prometheus_service.py:95-102 | A successful query becomes the list of its formatted series elements, host-filtered. |
| PrometheusService.FetchPrometheusMetricsIntended | api/app/utils/prometheus_service.py:88-93 | The corrected loop yields exactly one entry per requested name, and "Metric not found" for every name without a query. |
| PrometheusService.UnknownMetricAborts | api/app/utils/prometheus_service.py:90-93 | As written, requesting `["status", "no_such_metric"]` aborts with a TypeError at `no_such_metric`. The intended fetch keeps the status entry and records "Metric not found". |
| PrometheusService.AsWrittenAgreesOnKnownNames | api/app/utils/prometheus_service.py:85-105 | When every requested name has a query, the fetch as written equals the intended one. |
| Strings.LastIndexOf | api/app/routers/prometheus_router.py:30 | It returns -1 iff the character is absent. Otherwise it returns an index holding the character with no occurrence after it. |
| Strings.Split | api/app/routers/prometheus_router.py:141 | `str.split(",")` yields at least one part, and no part contains the separator. |
| Strings.JoinSplit | api/app/routers/prometheus_router.py:141 | Joining the parts of a split with the same separator gives the string back. |
| Strings.SplitJoin | api/app/routers/prometheus_router.py:141 | Splitting the join of separator-free parts gives the parts back. |
| PrometheusRouter.ExtractHost | api/app/routers/prometheus_router.py:22-30 | The host is a prefix of the instance. Without a `:` it is the whole string. With one, the instance is host + ":" + port where the port contains no `:`. |
| PrometheusRouter.ExtractHostInverts | api/app/routers/prometheus_router.py:30 | For any host and any colon-free port, extracting from host + ":" + port gives back the host. |
| PrometheusRouter.ExtractHostExamples | api/tests/unit-tests/test_prometheus_router.py:21-34 | `host1:9090` maps to `host1`, the empty string maps to itself, and `host1` maps to itself. |
| PrometheusRouter.ExtractHostNotIdempotent | api/app/routers/prometheus_router.py:30 | `a:b:c` maps to `a:b`, and applying the helper again gives `a`, so it is not idempotent. |
| PrometheusRouter.CollectInstances | api/app/routers/prometheus_router.py:110-113 | The loop collects exactly the set of the status records' `instance` values. An error entry yields the empty set. |
| PrometheusRouter.CollectHosts | api/app/routers/prometheus_router.py:124-128 | The loop collects exactly the set of the records' extracted hosts. |
| PrometheusRouter.HostsAreHostsOfInstances | api/app/routers/prometheus_router.py:124-129 | The host listing is the image of the instance listing under the extraction helper. |
| PrometheusRouter.InstancesAtMostRecords | api/app/routers/prometheus_router.py:110-114 | Duplicates collapse: there are never more distinct instances than records. |
| PrometheusRouter.InstancesExample | api/tests/unit-tests/test_prometheus_router.py:5-18 | Records for `host1:9090` and `host2:9090` list exactly those two instances. |
| PrometheusRouter.HostsExample | api/tests/unit-tests/test_prometheus_router.py:21-34 | The same records list exactly the hosts `host1` and `host2`. |
| PrometheusRouter.DuplicatesCollapseExample | api/app/routers/prometheus_router.py:110-113 | Two records of one instance list it once. |
| PrometheusRouter.GetPrometheusInstances | api/app/routers/prometheus_router.py:103-114 | The endpoint returns the distinct instances of a live, unfiltered status fetch. |
| PrometheusRouter.GetPrometheusHosts | api/app/routers/prometheus_router.py:117-129 | The endpoint returns the distinct hosts of a live, unfiltered status fetch. |
| PrometheusRouter.HostFilterSplits | api/app/routers/prometheus_router.py:141 | An absent or empty `instances` means no filter. A non-empty one becomes a non-empty list of comma-free parts that join back to it. |
| PrometheusRouter.GetPrometheusMetrics | api/app/routers/prometheus_router.py:132-145 | The endpoint returns one entry for each of the four DEFAULT_QUERIES keys, fetched live with the host filter split from `instances`. |
| PrometheusRouter.StatusWorkerCycle | api/app/routers/prometheus_router.py:50-58 | A status cycle writes the `["status"]` fetch under the status key only. The metrics key is unchanged. |
| PrometheusRouter.MetricsWorkerCycle | api/app/routers/prometheus_router.py:61-71 | A metrics cycle writes the cpu, memory and disk fetch under the metrics key only. The status key is unchanged. |
| PrometheusRouter.MergePayload | api/app/routers/prometheus_router.py:87-96 | `statuses` is the snapshot's `"status"` entry, or `[]` when the snapshot is missing or lacks it. `metrics` is the other snapshot, or `{}` on a miss. |
| PrometheusRouter.PushOnce | api/app/routers/prometheus_router.py:87-97 | One push reads both cache keys and sends their merge. It makes no backend call. |
| PrometheusRouter.FirstPushAfterStatusPoll | api/app/routers/prometheus_router.py:56-96 | After a status poll and before any metrics poll, the push carries the status fetch's entry and an empty metrics map. With both keys missing it carries `[]` and `{}`. |
| PrometheusRouter.EndToEndStatusPush | api/app/routers/prometheus_router.py:56-96 | If the backend reports `h1:9090` up with value `[1000, "1"]`, the first push carries `{instance: h1:9090, job: None, value: 1, timestamp: 1000}` and `metrics = {}`. |
| PrometheusRouter.WebsocketEndpoint | api/app/routers/prometheus_router.py:74-100 | The session's socket is the one held in the slot while it pushes (`registered == ws`). It sends the current merge once per delivered push. On disconnect it leaves the slot empty. |
| PrometheusRouter.OverlappingSessions | api/app/routers/prometheus_router.py:39-100 | After the first connect the slot holds the first socket. After the second connect it holds the second, since the first was overwritten. The first session's disconnect then clears it, even though the second session is still connected. |
| PrometheusRouter.WSConnectionManager.constructor | api/app/routers/prometheus_router.py:39-40 | A new manager holds no connection. |
| PrometheusRouter.WSConnectionManager.Connect | api/app/routers/prometheus_router.py:83 | The endpoint's assignment `manager.websocket = ws` stores the new socket in the slot, whatever it held before. |
| PrometheusRouter.WSConnectionManager.Disconnect | api/app/routers/prometheus_router.py:42-44 | The slot is emptied unconditionally. |
| RedisService.Cache.Set | api/app/utils/redis_service.py:25-33 | Only the written key changes, and it changes to the written value. |
| RedisService.Cache.Get | api/app/utils/redis_service.py:36-43 | It returns the stored value, or `None` on a miss. |
| RedisService.Cache.Expire | api/app/utils/redis_service.py:33 | An expired key reads as a miss afterwards. |
| RedisService.SetThenGet | api/app/utils/redis_service.py:25-43 | On a cache object, a `get_cache` right after `set_cache` of the same key returns the written value. Every other key reads as before. |
| RedisService.ExpireThenGet | api/app/utils/redis_service.py:33-43 | On a cache object, a `get_cache` after the key has expired is a miss (`None`). Every other key reads as before. |

## Left out

- The httpx client, its timeout and connection limits (lines 16-19 of the service), and
  `close_prometheus_client`. These are I/O. The backend is the `backend` oracle instead.
- The oracle of outcomes is indexed from attempt 0 for every `_request` call on the same
  query. So a query requested twice in one fetch, or fetched by two endpoints, meets
  the same outcomes. A real server could answer differently over time.
- Waiting: `asyncio.sleep` only records the delay. `asyncio.gather` over the formatting
  calls is a plain map, since the calls are independent. The infinite `while True` of
  both workers and the push loop's sleep are left out; one worker cycle is modelled.
  Task creation and cancellation in the application lifespan are also left out.
- JSON values whose shape is not that of a Prometheus response, such as
  `"data": null`, a non-dict series element, or a non-list `value`. On these the
  source raises AttributeError or TypeError. The model's payload types cannot express
  them. A body that is not JSON (`response.json()` failing) is left out too.
- `float()` is kept as the uninterpreted `Float(text)`. The ValueError on malformed
  numbers and all floating-point arithmetic are left out.
- PrometheusService.Describe: the text of an httpx `HTTPStatusError` is simplified to
  `Client error '<status>' for url '<url>'`. The reason phrase, the query string and
  the documentation link that httpx appends are omitted. The exhaustion message is
  exact.
- Redis specifics: the lazy global client, connection errors, and the real
  COLLECT_TIMEOUT clock. Expiry is the external event `Cache.Expire`.
- PrometheusRouter.WebsocketEndpoint: during a session the cache is not written. The
  workers' writes interleaving with the pushes are not modelled. The client's
  disconnect is the number of pushes delivered before `WebSocketDisconnect`. `accept`
  and `send_json` are transport I/O.
- The endpoints return `list(set)`, whose order Python leaves unspecified. The model
  returns the set.
- FastAPI routing, query-parameter parsing, `load_dotenv` and the interval settings.
  The interval settings only feed the left-out sleeps.
- A missing PROMETHEUS_URL, which Python formats as `"None/api/v1/query"`, is not
  distinguished from any other `baseUrl`.

## Findings

| source | as written | input that shows it | evidently intended | confidence | as-written member | corrected member |
|---|---|---|---|---|---|---|
| api/app/utils/prometheus_service.py:92 | `metrics[m] = {"error": "Metric not found"}` indexes the caller's list with a string, which raises TypeError. The whole fetch aborts and the entries built so far are lost. | `fetch_prometheus_metrics(["status", "no_such_metric"])` | `results[m] = {"error": "Metric not found"}`, so that every requested name gets an entry | high; not executed | PrometheusService.FetchPrometheusMetrics (shown by PrometheusService.UnknownMetricAborts) | PrometheusService.FetchPrometheusMetricsIntended |

The corrected entry is the one the shared definition `EntryFor` gives to a name without
a query. The router's endpoints and workers request only names that have queries. For
those names the fetch as written and the corrected one agree
(`AsWrittenAgreesOnKnownNames`).
