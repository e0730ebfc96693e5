/** The exporter object (exporter.go: Exporter, NewExporter, Collect,
    Describe, scrapeV2Ray, scrapeV2RaySysMetrics, scrapeV2RayMetrics,
    registerConstMetric*). Its scrape counter and descriptor map are fields;
    the collection channel and the stats client are objects it sends to and
    calls. Each method is proved against the scrape functions of module
    Scrape, where the properties of a scrape are proved. */
module ExporterCore {
  import opened Wrappers
  import opened StatName
  import opened Metrics
  import opened Upstream
  import opened Scrape

  /** Every descriptor of `m`, in the order of `keys`. */
  function Described(m: map<string, Desc>, keys: seq<string>): (descs: seq<Desc>)
    requires forall i :: 0 <= i < |keys| ==> keys[i] in m
  {
    if keys == [] then [] else Described(m, keys[..|keys| - 1]) + [m[keys[|keys| - 1]]]
  }

  /** A listing of the keys of `m`, each exactly once. */
  ghost predicate Enumerates(keys: seq<string>, m: map<string, Desc>)
  {
    && (forall i :: 0 <= i < |keys| ==> keys[i] in m)
    && (forall k :: k in m ==> k in keys)
    && (forall i, j :: 0 <= i < j < |keys| ==> keys[i] != keys[j])
  }

  lemma AppendAssoc<T>(a: seq<T>, b: seq<T>, c: seq<T>)
    ensures a + b + c == a + (b + c)
  {
  }

  /** Snapshots of a channel taken around one gauge call per reading hold
      the gauges of the readings sent so far. */
  lemma {:induction false} GaugesChain(m: map<string, Desc>, readings: seq<(string, int)>, snaps: seq<seq<Sample>>)
    requires |snaps| == |readings| + 1
    requires forall i :: 0 <= i < |readings| ==>
               snaps[i + 1] == snaps[i] + EmittedGauge(m, readings[i].0, readings[i].1)
    ensures snaps[|readings|] == snaps[0] + GaugesOf(m, readings)
    decreases |readings|
  {
    if readings != [] {
      var n := |readings| - 1;
      GaugesChain(m, readings[..n], snaps[..n + 1]);
      AppendAssoc(snaps[0], GaugesOf(m, readings[..n]), EmittedGauge(m, readings[n].0, readings[n].1));
    }
  }

  /** The nine gauge calls of scrapeV2RaySysMetrics, one after the other,
      send the system gauges in order. */
  lemma SysGaugesSent(m: map<string, Desc>, ss: SysStats, s0: seq<Sample>, s1: seq<Sample>,
                      s2: seq<Sample>, s3: seq<Sample>, s4: seq<Sample>, s5: seq<Sample>,
                      s6: seq<Sample>, s7: seq<Sample>, s8: seq<Sample>, s9: seq<Sample>)
    requires s1 == s0 + EmittedGauge(m, "uptime_seconds", ss.uptime)
    requires s2 == s1 + EmittedGauge(m, "goroutines", ss.numGoroutine)
    requires s3 == s2 + EmittedGauge(m, "memstats_alloc_bytes", ss.alloc)
    requires s4 == s3 + EmittedGauge(m, "memstats_alloc_bytes_total", ss.totalAlloc)
    requires s5 == s4 + EmittedGauge(m, "memstats_sys_bytes", ss.sys)
    requires s6 == s5 + EmittedGauge(m, "memstats_mallocs_total", ss.mallocs)
    requires s7 == s6 + EmittedGauge(m, "memstats_frees_total", ss.frees)
    requires s8 == s7 + EmittedGauge(m, "memstats_num_gc", ss.numGC)
    requires s9 == s8 + EmittedGauge(m, "memstats_pause_total_ns", ss.pauseTotalNs)
    ensures s9 == s0 + SysGauges(m, ss)
  {
    GaugesChain(m, SysReadings(ss), [s0, s1, s2, s3, s4, s5, s6, s7, s8, s9]);
  }

  class Exporter {
    const endpoint: string
    const scrapeTimeout: nat
    /** The value of the scrape counter. */
    var totalScrapes: nat
    var metricDescriptions: map<string, Desc>

    /** The descriptor map is the one NewExporter builds. */
    ghost predicate Valid()
      reads this
    {
      metricDescriptions == DescriptorTable()
    }

    /** NewExporter: the counter starts at zero and every entry of the
        literal table is registered under its key. */
    constructor (endpoint: string, scrapeTimeout: nat)
      ensures this.endpoint == endpoint && this.scrapeTimeout == scrapeTimeout
      ensures totalScrapes == 0
      ensures Valid()
    {
      var descs: map<string, Desc> := map[];
      var pending := KnownMetrics.Keys;
      while pending != {}
        invariant pending <= KnownMetrics.Keys
        invariant descs.Keys == KnownMetrics.Keys - pending
        invariant forall k :: k in descs ==> descs[k] == Register(k)
        decreases pending
      {
        var k :| k in pending;
        descs := descs[k := NewMetricDescr(k, KnownMetrics[k].txt, KnownMetrics[k].labels)];
        pending := pending - {k};
      }
      this.endpoint := endpoint;
      this.scrapeTimeout := scrapeTimeout;
      totalScrapes := 0;
      metricDescriptions := descs;
    }

    /** registerConstMetric: resolve the descriptor, falling back to a
        label-free one with help `key metric`, and send the sample only
        when the constant-metric constructor accepts the label values. */
    method RegisterConstMetric(ch: Channel<Sample>, metric: string, val: int, kind: ValueKind,
                               labelValues: seq<string>)
      modifies ch
      ensures ch.sent == old(ch.sent) + Emitted(metricDescriptions, metric, kind, val, labelValues)
    {
      var descr: Desc;
      if metric in metricDescriptions {
        descr := metricDescriptions[metric];
      } else {
        descr := NewMetricDescr(metric, metric + " metric", []);
      }
      var m := NewConstMetric(descr, kind, val, labelValues);
      if m.Some? {
        ch.Send(m.value);
      }
    }

    method RegisterConstMetricGauge(ch: Channel<Sample>, metric: string, val: int)
      modifies ch
      ensures ch.sent == old(ch.sent) + EmittedGauge(metricDescriptions, metric, val)
    {
      RegisterConstMetric(ch, metric, val, ValueKind.Gauge, []);
    }

    method RegisterConstMetricCounter(ch: Channel<Sample>, metric: string, val: int,
                                      dimension: string, target: string)
      modifies ch
      ensures ch.sent == old(ch.sent) + Emitted(metricDescriptions, metric, Counter, val, [dimension, target])
    {
      RegisterConstMetric(ch, metric, val, Counter, [dimension, target]);
    }

    /** scrapeV2RaySysMetrics: ask for the system stats and, when they
        arrive, send the nine gauges. */
    method ScrapeSysMetrics(ch: Channel<Sample>, client: StatsClient) returns (ok: bool)
      modifies ch, client
      ensures ok == client.responses.sysStats.Some?
      ensures !ok ==> ch.sent == old(ch.sent)
      ensures ok ==> ch.sent == old(ch.sent) + SysGauges(metricDescriptions, client.responses.sysStats.value)
      ensures client.requests == old(client.requests) + [Request.GetSysStats]
    {
      var resp := client.GetSysStats();
      if resp.None? {
        return false;
      }
      var ss := resp.value;
      ghost var s0 := ch.sent;
      RegisterConstMetricGauge(ch, "uptime_seconds", ss.uptime);
      ghost var s1 := ch.sent;
      RegisterConstMetricGauge(ch, "goroutines", ss.numGoroutine);
      ghost var s2 := ch.sent;
      RegisterConstMetricGauge(ch, "memstats_alloc_bytes", ss.alloc);
      ghost var s3 := ch.sent;
      RegisterConstMetricGauge(ch, "memstats_alloc_bytes_total", ss.totalAlloc);
      ghost var s4 := ch.sent;
      RegisterConstMetricGauge(ch, "memstats_sys_bytes", ss.sys);
      ghost var s5 := ch.sent;
      RegisterConstMetricGauge(ch, "memstats_mallocs_total", ss.mallocs);
      ghost var s6 := ch.sent;
      RegisterConstMetricGauge(ch, "memstats_frees_total", ss.frees);
      ghost var s7 := ch.sent;
      RegisterConstMetricGauge(ch, "memstats_num_gc", ss.numGC);
      ghost var s8 := ch.sent;
      RegisterConstMetricGauge(ch, "memstats_pause_total_ns", ss.pauseTotalNs);
      ghost var s9 := ch.sent;
      SysGaugesSent(metricDescriptions, ss, s0, s1, s2, s3, s4, s5, s6, s7, s8, s9);
      return true;
    }

    /** scrapeV2RayMetrics: query the counters without resetting them and
        send one counter per stat, translating each name; a name of fewer
        than four segments panics and ends the loop. */
    method ScrapeMetrics(ch: Channel<Sample>, client: StatsClient) returns (status: Status)
      modifies ch, client
      ensures client.requests == old(client.requests) + [Request.QueryStats(false)]
      ensures client.responses.stats.None? ==> status == Failed(QueryFailed) && ch.sent == old(ch.sent)
      ensures client.responses.stats.Some? ==>
                var run := CounterRun(metricDescriptions, client.responses.stats.value);
                status == run.status && ch.sent == old(ch.sent) + run.samples
    {
      var resp := client.QueryStats(false);
      if resp.None? {
        return Failed(QueryFailed);
      }
      var stats := resp.value;
      var i := 0;
      while i < |stats|
        invariant 0 <= i <= |stats|
        invariant CounterRun(metricDescriptions, stats[..i]).status == Ok
        invariant ch.sent == old(ch.sent) + CounterRun(metricDescriptions, stats[..i]).samples
        invariant client.requests == old(client.requests) + [Request.QueryStats(false)]
      {
        var s := stats[i];
        CounterRunNext(metricDescriptions, stats, i);
        match Translate(s.name)
        case Failure(cause) =>
          CounterRunAfterPanic(metricDescriptions, stats, i + 1);
          return Panicked(s.name, cause);
        case Success(t) =>
          RegisterConstMetricCounter(ch, t.metric, s.value, t.dimension, t.target);
          AppendAssoc(old(ch.sent), CounterRun(metricDescriptions, stats[..i]).samples,
                      Emitted(metricDescriptions, t.metric, Counter, s.value, [t.dimension, t.target]));
        i := i + 1;
      }
      assert stats[..i] == stats;
      return Ok;
    }

    /** scrapeV2Ray: dial, scrape the system stats, then the counters; the
        first error is returned, and the connection, once made, is closed
        on every way out (the deferred Close also runs during a panic). */
    method ScrapeV2Ray(ch: Channel<Sample>, client: StatsClient) returns (status: Status)
      requires Valid()
      modifies ch, client
      ensures Valid()
      ensures status == ScrapeRun(metricDescriptions, client.responses).status
      ensures ch.sent == old(ch.sent) + ScrapeRun(metricDescriptions, client.responses).samples
      ensures client.requests == old(client.requests) + Requests(endpoint, scrapeTimeout, client.responses)
    {
      var connected := client.Dial(endpoint, scrapeTimeout);
      if !connected {
        return Failed(DialFailed);
      }
      var sysOk := ScrapeSysMetrics(ch, client);
      if !sysOk {
        status := Failed(SysStatsFailed);
      } else {
        ghost var gauges := SysGauges(metricDescriptions, client.responses.sysStats.value);
        status := ScrapeMetrics(ch, client);
        if client.responses.stats.Some? {
          AppendAssoc(old(ch.sent), gauges, CounterRun(metricDescriptions, client.responses.stats.value).samples);
        }
      }
      client.Close();
      assert metricDescriptions == old(metricDescriptions);
    }

    /** Collect: count the scrape, run it, and unless it panicked send the
        `up` gauge (1 exactly when the scrape returned no error), the
        duration gauge and the scrape counter. The descriptor map stays the
        table NewExporter built, whose shape (DescriptorTableShaped) the
        Collect lemmas of module Scrape take as their premise. */
    method Collect(ch: Channel<Sample>, client: StatsClient, elapsed: nat) returns (status: Status)
      requires Valid()
      modifies this`totalScrapes, ch, client
      ensures Valid()
      ensures totalScrapes == old(totalScrapes) + 1
      ensures status == CollectRun(metricDescriptions, client.responses, totalScrapes, elapsed).status
      ensures ch.sent == old(ch.sent) + CollectRun(metricDescriptions, client.responses, totalScrapes, elapsed).samples
      ensures client.requests == old(client.requests) + Requests(endpoint, scrapeTimeout, client.responses)
    {
      totalScrapes := totalScrapes + 1;
      status := ScrapeV2Ray(ch, client);
      if status.Panicked? {
        return;
      }
      ghost var scraped := ch.sent;
      RegisterConstMetricGauge(ch, "up", if status == Ok then 1 else 0);
      ghost var tail := EmittedGauge(metricDescriptions, "up", UpValue(status));
      RegisterConstMetricGauge(ch, "scrape_duration_seconds", elapsed);
      AppendAssoc(scraped, tail, EmittedGauge(metricDescriptions, "scrape_duration_seconds", elapsed));
      tail := tail + EmittedGauge(metricDescriptions, "scrape_duration_seconds", elapsed);
      ch.Send(Sample(ScrapesDesc, Counter, totalScrapes, []));
      AppendAssoc(scraped, tail, [Sample(ScrapesDesc, Counter, totalScrapes, [])]);
      tail := tail + [Sample(ScrapesDesc, Counter, totalScrapes, [])];
      assert tail == Tail(metricDescriptions, status, elapsed, totalScrapes);
      AppendAssoc(old(ch.sent), ScrapeRun(metricDescriptions, client.responses).samples, tail);
    }

    /** Describe: every descriptor of the map, each once, in the map's
        iteration order, then the scrape counter's descriptor. */
    method Describe(ch: Channel<Desc>) returns (ghost order: seq<string>)
      modifies ch
      ensures Enumerates(order, metricDescriptions)
      ensures ch.sent == old(ch.sent) + Described(metricDescriptions, order) + [ScrapesDesc]
    {
      var pending := metricDescriptions.Keys;
      order := [];
      while pending != {}
        invariant pending <= metricDescriptions.Keys
        invariant forall i :: 0 <= i < |order| ==> order[i] in metricDescriptions && order[i] !in pending
        invariant forall k :: k in metricDescriptions ==> k in pending || k in order
        invariant forall i, j :: 0 <= i < j < |order| ==> order[i] != order[j]
        invariant ch.sent == old(ch.sent) + Described(metricDescriptions, order)
        decreases pending
      {
        var k :| k in pending;
        ch.Send(metricDescriptions[k]);
        assert (order + [k])[..|order|] == order;
        order := order + [k];
        pending := pending - {k};
      }
      ch.Send(ScrapesDesc);
    }
  }
}
