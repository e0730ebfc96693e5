# v2ray-exporter, modelled in Dafny

v2ray-exporter is a Prometheus exporter for V2Ray. At every scrape, its
`Exporter` connects to V2Ray's stats service over gRPC, and then:

- asks for the process's system stats and sends nine gauges;
- asks for the named traffic counters without resetting them;
- translates each counter name such as `inbound>>>socks-proxy>>>traffic>>>uplink`
  into a metric key (`traffic_uplink_bytes_total`) and two label values
  (`dimension`, `target`);
- finishes with an `up` gauge, a scrape-duration gauge and its own scrape counter.

The model covers all of `exporter.go`.

- `strings.dfy` (module `Strings`): Go's `strings.Split` on a non-empty
  separator, and `Join`, its inverse.
- `stat_name.dfy` (module `StatName`): the counter-name translator.
  - A name with fewer than four segments makes the index expression go out
    of range. This is modelled as a `Failure(IndexOutOfRange(index, length))`
    result, Go's run-time panic.
  - Segments after the fourth are ignored.
- `metrics.dfy` (module `Metrics`): the rest of the metric side.
  - Descriptors, samples, `newMetricDescr` and the fully-qualified name rule.
  - The literal descriptor table of `NewExporter`.
  - The lookup-with-fallback of `registerConstMetric`.
  - The label-count rule of the client library's constant-metric constructor.
  - A channel as an append-only sequence of what was sent on it.
- `upstream.dfy` (module `Upstream`): the stats service as a client object.
  - It answers with given responses: reachable or not, optional system
    stats, and optional counters.
  - It logs every request made of it.
- `scrape.dfy` (module `Scrape`): pure functions stating what one scrape
  sends and returns, and the lemmas about them.
  - `CounterRun` is the counter loop, `ScrapeRun` is `scrapeV2Ray`,
    `CollectRun` is `Collect` and `Requests` is the calls made upstream.
- `exporter.dfy` (module `ExporterCore`): the `Exporter` class.
  - Its fields are the scrape counter and the descriptor map.
  - Its methods are the Go methods, proved against the functions of `Scrape`.
- `wrappers.dfy`: `Option` and `Result`.

What `exporter.go` does in the cases a reader might not expect:

- A counter name with fewer than four segments makes the index expression at
  exporter.go:118 go out of range, and Go panics. The panic ends the loop of
  `scrapeV2RayMetrics` and then `Collect`, so no `up` gauge is sent. The
  model returns this as the status `Scrape.Status.Panicked`.
  - The scrape counter was already incremented (exporter.go:62), and the
    samples already sent stay sent.
  - The deferred `conn.Close()` (exporter.go:94) still runs.
- A name with more than four segments is accepted; exporter.go:118-120 reads
  segments 0 to 3 only.
- The separator at exporter.go:117 is the three characters `>>>`.
- A counter whose key is not in the table is dropped. The fallback
  descriptor at exporter.go:168 has no labels, so a sample carrying the two
  label values `[dimension, target]` fails the label-count check of the
  constant-metric constructor (exporter.go:171-175).

## Model

| member | source | states |
|---|---|---|
| Strings.Split | exporter.go:117 | `strings.Split` for a non-empty separator: the part before the leftmost occurrence, then the split of the rest; a string without the separator is one part; there is always at least one part (`JoinSplit`, `SplitJoin` and `SplitPartsFree` prove what the split means) |
| Strings.IndexFirst | exporter.go:117 | `Index` gives the leftmost occurrence of the separator, and finds none exactly when the string is free of it |
| Strings.JoinSplit | exporter.go:117 | joining the parts of `strings.Split` around the separator gives back the original string |
| Strings.SplitPartsFree | exporter.go:117 | no part produced by the split contains the separator |
| Strings.SplitJoin | exporter.go:117 | splitting joined parts gives the parts back when each part but the last delimits and the last holds no separator |
| StatName.Translate | exporter.go:117-120 | splits the name on `>>>` and builds key `p[2]_p[3]_bytes_total` with labels `p[0]`, `p[1]`; a failure reports an index at or past the slice's length (a real out-of-range access), and every key ends in `_bytes_total` |
| StatName.NoArrowSegment | exporter.go:117 | a string without `>` is a segment and holds no `>>>` |
| StatName.SegmentDelimits | exporter.go:117 | a segment is cut back out intact before `>>>` exactly when it holds no `>>>` and does not end in `>` |
| StatName.SplitSegments | exporter.go:117 | segments joined with `>>>` are split back into the same segments |
| StatName.TranslateFourSegments | exporter.go:116-120 | `A>>>B>>>C>>>D` yields key `C_D_bytes_total` with labels `dimension = A` and `target = B` |
| StatName.TranslateJoined | exporter.go:117-120 | a name of four or more segments uses only the first four: key from segments 2 and 3, labels from segments 0 and 1 |
| StatName.TranslateShort | exporter.go:117-118 | a name of one or two segments fails at index 2, and one of three segments fails at index 3 |
| StatName.TranslateNoSeparator | exporter.go:117-118 | a name without `>>>` fails at index 2 of a one-element slice |
| StatName.TranslateUplinkExample | exporter.go:116-120 | `inbound>>>socks-proxy>>>traffic>>>uplink` yields key `traffic_uplink_bytes_total` with labels `inbound` and `socks-proxy` |
| StatName.TranslateUnknownExample | exporter.go:116-120 | `inbound>>>api>>>newfeature>>>count` yields key `newfeature_count_bytes_total` with labels `inbound` and `api` |
| Metrics.FullName | exporter.go:178-180 | `BuildFQName("v2ray", "", name)`: `v2ray_` + name, and empty for an empty name (`FullNameInjective` and `DescriptorTableContents` prove what the names are) |
| Metrics.NewMetricDescr | exporter.go:178-180 | a descriptor with the fully-qualified name, the help text and the label names |
| Metrics.DescriptorTable | exporter.go:39-52 | the map from each key of the literal table to its registered descriptor (`DescriptorTableContents` states its contents) |
| Metrics.Resolve | exporter.go:166-169 | the registered descriptor of a key, or else a label-free one with help `key metric` (`ResolveInTable` states what it resolves to under the exporter's table) |
| Metrics.NewConstMetric | exporter.go:171 | the constant-metric constructor, reduced to its rule that the number of label values must equal the number of label names |
| Metrics.Emitted | exporter.go:165-175 | what one registerConstMetric call sends: the sample when the constructor accepts it, nothing otherwise (`UnknownCounterDropped`, `UnknownGaugeEmitted` and `TrafficCounterEmitted` state the outcomes) |
| Metrics.FullNameInjective | exporter.go:178-180 | distinct non-empty keys get distinct fully-qualified names |
| Metrics.DescriptorTableContents | exporter.go:39-52 | the table holds exactly the five keys, each named `v2ray_` + key with its literal help text; only the two traffic keys carry labels `[dimension, target]` |
| Metrics.DescriptorTableShaped | exporter.go:39-52 | the table NewExporter builds has the shape that the scrape lemmas assume |
| Metrics.ResolveInTable | exporter.go:165-169 | a key in the table resolves to its registered descriptor; any other key gets a label-free descriptor with help `key metric`; every name is `v2ray_` + key |
| Metrics.UnknownCounterDropped | exporter.go:165-175 | a counter with `[dimension, target]` under any key but the two traffic keys is dropped |
| Metrics.UnknownGaugeEmitted | exporter.go:165-175 | a label-free gauge under a key outside the table is sent with the fallback descriptor |
| Metrics.TrafficCounterEmitted | exporter.go:165-175 | a traffic counter with its two label values is sent with the registered, labelled descriptor |
| Upstream.StatsClient.Dial | exporter.go:90-93 | the connection succeeds exactly when the endpoint is reachable; the attempt is logged with endpoint and timeout |
| Upstream.StatsClient.GetSysStats | exporter.go:129-132 | returns the system-stats response and logs the call |
| Upstream.StatsClient.QueryStats | exporter.go:110-113 | returns the counter response and logs the call with its reset flag |
| Upstream.StatsClient.Close | exporter.go:94 | logs the closing of the connection |
| Scrape.CounterRun | exporter.go:115-123 | what the counter loop sends and whether it panicked, stat by stat, with nothing reached after a panic (the `CounterRun*` lemmas below state its properties) |
| Scrape.ScrapeRun | exporter.go:86-107 | what scrapeV2Ray sends and returns in each of the four upstream outcomes (`ScrapeOkIff`, `ScrapePanicIff`) |
| Scrape.CollectRun | exporter.go:59-76 | what Collect sends and returns: the scrape, then the three tail samples unless the scrape panicked (the `Collect*` lemmas) |
| Scrape.Requests | exporter.go:90-129 | the calls one scrape makes upstream: connect, then the system stats, then the query, with the close whenever the connection was made (`RequestsShape`) |
| Scrape.CounterRunStatus | exporter.go:115-125 | the counter loop either completes or panics; it never returns an error |
| Scrape.CounterRunAfterPanic | exporter.go:115-123 | after a panic, later stats change nothing |
| Scrape.CounterRunLength | exporter.go:115-123 | each stat yields at most one sample |
| Scrape.CounterSentIsTraffic | exporter.go:161-175 | under the exporter's table, one counter call sends a labelled traffic sample or nothing |
| Scrape.CounterRunOnlyTraffic | exporter.go:115-123 | the loop sends nothing but the two traffic counters, each with two label values |
| Scrape.CounterRunAllTraffic | exporter.go:115-123 | when every stat names a traffic counter, the loop completes and sends one counter per stat, in order, with the stat's labels and value |
| Scrape.TrafficStep | exporter.go:118-122 | a stat naming a traffic counter appends exactly its sample |
| Scrape.CounterRunUnknownDropped | exporter.go:115-123 | when no stat names a key of the table, the loop sends nothing |
| Scrape.CounterRunPanics | exporter.go:115-120 | the loop panics if and only if some stat name has fewer than four segments |
| Scrape.CounterRunFirstPanic | exporter.go:115-120 | the loop panics on the first short name, after sending exactly what the stats before it produced |
| Scrape.SingleStat | exporter.go:115-122 | a single stat whose name translates is sent through the emission rule and the loop completes |
| Scrape.UplinkStatSent | exporter.go:115-122 | the stat `inbound>>>socks-proxy>>>traffic>>>uplink` is sent as the labelled counter `v2ray_traffic_uplink_bytes_total` with labels `inbound`, `socks-proxy` and its value |
| Scrape.NewFeatureStatDropped | exporter.go:115-122 | the stat `inbound>>>api>>>newfeature>>>count` sends nothing, and the loop completes |
| Scrape.GaugeSent | exporter.go:157-175 | a gauge under a key whose descriptor has no labels is always sent, named `v2ray_` + key |
| Scrape.GaugesOfSent | exporter.go:134-152 | under the exporter's table, label-free gauge calls each send their sample, one per reading, in order |
| Scrape.SysKeysPlain | exporter.go:134-152 | no system gauge key is a traffic key |
| Scrape.SysGaugesInOrder | exporter.go:134-152 | the nine system gauges are all sent in call order (uptime_seconds … memstats_pause_total_ns), each named `v2ray_` + key |
| Scrape.TailSent | exporter.go:72-75 | the tail is the `up` gauge, the duration gauge and the scrape counter, in that order, named `v2ray_up`, `v2ray_scrape_duration_seconds` and `v2ray_scrapes_total` |
| Scrape.ScrapeOkIff | exporter.go:86-107 | the scrape returns no error exactly when the endpoint is reached, both calls succeed and every name has at least four segments |
| Scrape.ScrapePanicIff | exporter.go:86-107 | the scrape panics exactly when the endpoint is reached, both calls succeed and some name is short |
| Scrape.CollectTail | exporter.go:66-75 | a scrape that does not panic is followed by exactly the three tail samples; `up` is 1 if and only if the scrape returned no error |
| Scrape.CollectDialFailed | exporter.go:66-93 | a failed dial sends only the tail with `up` 0, and the only request is the connection attempt |
| Scrape.CollectSysStatsFailed | exporter.go:98-132 | a failed system-stats call sends only the tail with `up` 0; the stats query is never made and the connection is closed |
| Scrape.CollectQueryFailed | exporter.go:98-113 | a failed stats query sends the nine system gauges, then the tail with `up` 0, twelve samples in all |
| Scrape.CollectSucceeded | exporter.go:59-155 | a scrape whose names are all traffic names sends the system gauges, one counter per stat in order, then the tail with `up` 1 |
| Scrape.CollectPanicked | exporter.go:67-123 | a panic on the first short name leaves the system gauges and the earlier counters, and no `up` gauge |
| Scrape.RequestsShape | exporter.go:90-129 | the stats query is made exactly when the system stats arrived, always with reset false; the connection is closed exactly when it was made |
| ExporterCore.GaugesChain | exporter.go:134-152 | channel snapshots taken around one gauge call per reading hold the gauges of the readings sent so far |
| ExporterCore.SysGaugesSent | exporter.go:134-152 | the nine gauge calls, one after the other, send the system gauges in order |
| ExporterCore.Exporter.constructor | exporter.go:26-52 | the scrape counter starts at zero and the descriptor map is the literal table, every entry registered under its key |
| ExporterCore.Exporter.RegisterConstMetric | exporter.go:165-176 | the channel grows by exactly what the emission rule sends for the resolved descriptor |
| ExporterCore.Exporter.RegisterConstMetricGauge | exporter.go:157-159 | a gauge call through the emission rule |
| ExporterCore.Exporter.RegisterConstMetricCounter | exporter.go:161-163 | a counter call with labels `[dimension, target]` through the emission rule |
| ExporterCore.Exporter.ScrapeSysMetrics | exporter.go:128-155 | on a failed call nothing is sent; otherwise the nine system gauges are sent in order; the call is logged |
| ExporterCore.Exporter.ScrapeMetrics | exporter.go:109-126 | the query asks for no reset; a failed query sends nothing; otherwise the loop sends and returns what `CounterRun` states |
| ExporterCore.Exporter.ScrapeV2Ray | exporter.go:86-107 | sends and returns what `ScrapeRun` states, and makes the requests that `Requests` states, closing the connection on every way out; the descriptor map stays the table NewExporter built |
| ExporterCore.Exporter.Collect | exporter.go:59-76 | the scrape counter grows by exactly one, whatever the outcome; the channel grows by `CollectRun`'s samples; the descriptor map stays the table NewExporter built |
| ExporterCore.Exporter.Describe | exporter.go:78-84 | every descriptor of the map is sent once, in some order, then the scrape counter's descriptor |

## Left out

- The gRPC dial, the context timeout and the stats-service calls (exporter.go:87-96, 110, 129) are network I/O. `Upstream.StatsClient` stands in for them, answering with given responses.
- The mutex (exporter.go:18, 60-61) serialises concurrent scrapes. The model runs one `Collect` at a time.
- The clock (exporter.go:64, 73) is not modelled. The scrape duration is an opaque non-negative input of `Collect`.
- Values are exact integers. The `float64` conversions are left out, so the model does not capture the rounding of `uint64`/`int64` values above 2^53, nor the fractional duration.
- The Prometheus registry and `MustRegister` (exporter.go:30, 54) are library wiring.
- Logging (exporter.go:69, 174) is a side effect only.
- `Metrics.NewConstMetric` checks only the label count. The library's checks of metric and label names and of UTF-8 label values are left out.
- The scrape counter's `Inc` is modelled as a `nat` field. The counter sample carries its value and `ScrapesDesc`.
- `ExporterCore.Exporter.Describe`: Go's map iteration order is unspecified, so the model chooses keys with `:|` and states only that the order is some enumeration of the map.
- What happens above a panicking `Collect` is not modelled. The panic ends `Collect`, and the model returns it as a `Panicked` status.
- `main.go` is flag parsing and HTTP wiring, and is not part of this model.
