/** What one scrape sends and requests, as functions of the descriptor map
    and the endpoint's responses (exporter.go: Collect, scrapeV2Ray,
    scrapeV2RaySysMetrics, scrapeV2RayMetrics), and the properties of a
    scrape proved from them. */
module Scrape {
  import opened Wrappers
  import opened StatName
  import opened Metrics
  import opened Upstream

  /** Why scrapeV2Ray returned an error. */
  datatype ScrapeError = DialFailed | SysStatsFailed | QueryFailed

  /** How a scrape ended: no error, an error returned, or a run-time panic
      while translating the named counter. */
  datatype Status = Ok | Failed(error: ScrapeError) | Panicked(name: string, cause: IndexPanic)

  /** The samples sent on the channel so far and how the run ended. */
  datatype Run = Run(samples: seq<Sample>, status: Status)

  function EmittedGauge(m: map<string, Desc>, key: string, value: int): (sent: seq<Sample>)
  {
    Emitted(m, key, ValueKind.Gauge, value, [])
  }

  /** The gauges scrapeV2RaySysMetrics sends, as (key, value) pairs in the
      order of its calls. */
  function SysReadings(ss: SysStats): (readings: seq<(string, int)>)
  {
    [("uptime_seconds", ss.uptime),
     ("goroutines", ss.numGoroutine),
     ("memstats_alloc_bytes", ss.alloc),
     ("memstats_alloc_bytes_total", ss.totalAlloc),
     ("memstats_sys_bytes", ss.sys),
     ("memstats_mallocs_total", ss.mallocs),
     ("memstats_frees_total", ss.frees),
     ("memstats_num_gc", ss.numGC),
     ("memstats_pause_total_ns", ss.pauseTotalNs)]
  }

  /** What a run of label-free gauge calls sends, one call per reading. */
  function GaugesOf(m: map<string, Desc>, readings: seq<(string, int)>): (gauges: seq<Sample>)
    decreases |readings|
  {
    if readings == [] then []
    else
      var last := readings[|readings| - 1];
      GaugesOf(m, readings[..|readings| - 1]) + EmittedGauge(m, last.0, last.1)
  }

  /** What scrapeV2RaySysMetrics sends once the system stats arrived. */
  function SysGauges(m: map<string, Desc>, ss: SysStats): (gauges: seq<Sample>)
  {
    GaugesOf(m, SysReadings(ss))
  }

  /** What scrapeV2RayMetrics' loop has sent after the given stats, and
      whether it panicked; after a panic later stats are not reached. */
  function CounterRun(m: map<string, Desc>, stats: seq<Stat>): (run: Run)
    decreases |stats|
  {
    if stats == [] then Run([], Ok)
    else
      var prev := CounterRun(m, stats[..|stats| - 1]);
      var s := stats[|stats| - 1];
      if !prev.status.Ok? then prev
      else match Translate(s.name)
        case Failure(cause) => Run(prev.samples, Panicked(s.name, cause))
        case Success(t) =>
          Run(prev.samples + Emitted(m, t.metric, Counter, s.value, [t.dimension, t.target]), Ok)
  }

  /** What scrapeV2Ray sends and returns: nothing after a failed dial or a
      failed system-stats call (the stats query is then never made), the
      system gauges alone after a failed stats query, and the gauges
      followed by the counters otherwise. */
  function ScrapeRun(m: map<string, Desc>, r: Responses): (run: Run)
  {
    if !r.reachable then Run([], Failed(DialFailed))
    else match r.sysStats
      case None => Run([], Failed(SysStatsFailed))
      case Some(ss) =>
        match r.stats
        case None => Run(SysGauges(m, ss), Failed(QueryFailed))
        case Some(stats) =>
          var c := CounterRun(m, stats);
          Run(SysGauges(m, ss) + c.samples, c.status)
  }

  /** The value of the `up` gauge for a scrape that ended with `status`. */
  function UpValue(status: Status): (up: int)
  {
    if status == Ok then 1 else 0
  }

  /** The samples Collect sends after scrapeV2Ray returns. */
  function Tail(m: map<string, Desc>, status: Status, elapsed: nat, count: nat): (tail: seq<Sample>)
  {
    EmittedGauge(m, "up", UpValue(status))
    + EmittedGauge(m, "scrape_duration_seconds", elapsed)
    + [Sample(ScrapesDesc, Counter, count, [])]
  }

  /** Everything one Collect call sends, with `count` the scrape counter
      after its increment; a panic propagates before the tail is sent. */
  function CollectRun(m: map<string, Desc>, r: Responses, count: nat, elapsed: nat): (run: Run)
  {
    var run := ScrapeRun(m, r);
    if run.status.Panicked? then run
    else Run(run.samples + Tail(m, run.status, elapsed, count), run.status)
  }

  /** The requests one scrape makes of the endpoint. */
  function Requests(endpoint: string, timeout: nat, r: Responses): (reqs: seq<Request>)
  {
    if !r.reachable then [Connect(endpoint, timeout)]
    else if r.sysStats.None? then [Connect(endpoint, timeout), Request.GetSysStats, Request.Close]
    else [Connect(endpoint, timeout), Request.GetSysStats, Request.QueryStats(false), Request.Close]
  }

  /** The fully-qualified names of the two traffic counters. */
  const TrafficNames: set<string> := {FullName("traffic_uplink_bytes_total"), FullName("traffic_downlink_bytes_total")}

  // ---------------------------------------------------------------------
  // Lemmas
  // ---------------------------------------------------------------------

  /** The loop either completes or panics; it never returns an error. */
  lemma {:induction false} CounterRunStatus(m: map<string, Desc>, stats: seq<Stat>)
    ensures CounterRun(m, stats).status.Ok? || CounterRun(m, stats).status.Panicked?
    decreases |stats|
  {
    if stats != [] {
      CounterRunStatus(m, stats[..|stats| - 1]);
    }
  }

  /** Once the loop has panicked, further stats change nothing. */
  lemma {:induction false} CounterRunAfterPanic(m: map<string, Desc>, stats: seq<Stat>, j: nat)
    requires j <= |stats| && CounterRun(m, stats[..j]).status.Panicked?
    ensures CounterRun(m, stats) == CounterRun(m, stats[..j])
    decreases |stats|
  {
    if j < |stats| {
      var init := stats[..|stats| - 1];
      assert init[..j] == stats[..j];
      CounterRunAfterPanic(m, init, j);
    } else {
      assert stats[..j] == stats;
    }
  }


  /** One more stat after a run that has not panicked: its name is
      translated, and either the loop panics or the counter is emitted. */
  lemma CounterRunNext(m: map<string, Desc>, stats: seq<Stat>, i: nat)
    requires i < |stats| && CounterRun(m, stats[..i]).status.Ok?
    ensures Translate(stats[i].name).Failure? ==>
              CounterRun(m, stats[..i + 1])
              == Run(CounterRun(m, stats[..i]).samples, Panicked(stats[i].name, Translate(stats[i].name).error))
    ensures Translate(stats[i].name).Success? ==>
              var t := Translate(stats[i].name).value;
              CounterRun(m, stats[..i + 1])
              == Run(CounterRun(m, stats[..i]).samples
                     + Emitted(m, t.metric, Counter, stats[i].value, [t.dimension, t.target]), Ok)
  {
    assert stats[..i + 1][..i] == stats[..i];
  }

  /** Each stat yields at most one sample. */
  lemma {:induction false} CounterRunLength(m: map<string, Desc>, stats: seq<Stat>)
    ensures |CounterRun(m, stats).samples| <= |stats|
    decreases |stats|
  {
    if stats != [] {
      var s := stats[|stats| - 1];
      CounterRunLength(m, stats[..|stats| - 1]);
      match Translate(s.name)
      case Failure(_) =>
      case Success(t) => EmitRule(m, t.metric, Counter, s.value, [t.dimension, t.target]);
    }
  }

  /** A counter sample of one of the two traffic metrics, labelled. */
  predicate TrafficSample(smp: Sample)
  {
    smp.kind == Counter && smp.desc.fqName in TrafficNames
    && smp.desc.labels == TrafficLabels && |smp.labelValues| == 2
  }

  /** A single counter send under the exporter's table is a traffic sample
      or nothing. */
  lemma CounterSentIsTraffic(m: map<string, Desc>, key: string, value: int, dimension: string, target: string)
    requires Shaped(m)
    ensures forall smp :: smp in Emitted(m, key, Counter, value, [dimension, target]) ==> TrafficSample(smp)
  {
    if key in TrafficKeys {
      TrafficCounterEmitted(m, key, value, dimension, target);
    } else {
      UnknownCounterDropped(m, key, value, dimension, target);
    }
  }

  /** With the exporter's table, the loop sends nothing but the two traffic
      counters, each with two label values: every other key is dropped by
      the label-count check. */
  lemma {:induction false} CounterRunOnlyTraffic(m: map<string, Desc>, stats: seq<Stat>)
    requires Shaped(m)
    ensures forall i :: 0 <= i < |CounterRun(m, stats).samples| ==> TrafficSample(CounterRun(m, stats).samples[i])
    decreases |stats|
  {
    if stats != [] {
      var s := stats[|stats| - 1];
      CounterRunOnlyTraffic(m, stats[..|stats| - 1]);
      match Translate(s.name)
      case Failure(_) =>
      case Success(t) => CounterSentIsTraffic(m, t.metric, s.value, t.dimension, t.target);
    }
  }

  /** The name translates to one of the two traffic counter keys. */
  predicate NamesTraffic(name: string)
  {
    Translate(name).Success? && Translate(name).value.metric in TrafficKeys
  }

  /** The sample a stat naming a traffic counter yields. */
  function TrafficCounter(m: map<string, Desc>, s: Stat): (smp: Sample)
    requires NamesTraffic(s.name) && TrafficKeys <= m.Keys
  {
    var t := Translate(s.name).value;
    Sample(m[t.metric], Counter, s.value, [t.dimension, t.target])
  }

  /** One traffic counter per stat, in order: what the loop should send when
      every stat names a traffic counter. */
  function TrafficCounters(m: map<string, Desc>, stats: seq<Stat>): (samples: seq<Sample>)
    requires TrafficKeys <= m.Keys
    requires forall i :: 0 <= i < |stats| ==> NamesTraffic(stats[i].name)
  {
    if stats == [] then []
    else TrafficCounters(m, stats[..|stats| - 1]) + [TrafficCounter(m, stats[|stats| - 1])]
  }

  /** When every stat names a traffic counter, the loop completes and sends
      one counter per stat, in order, with the stat's labels and value. */
  lemma {:induction false} CounterRunAllTraffic(m: map<string, Desc>, stats: seq<Stat>)
    requires Shaped(m) && TrafficKeys <= m.Keys
    requires forall i :: 0 <= i < |stats| ==> NamesTraffic(stats[i].name)
    ensures CounterRun(m, stats) == Run(TrafficCounters(m, stats), Ok)
    decreases |stats|
  {
    if stats != [] {
      var n := |stats| - 1;
      var init := stats[..n];
      InitLast(stats);
      assert forall i :: 0 <= i < n ==> init[i] == stats[i];
      CounterRunAllTraffic(m, init);
      TrafficStep(m, init, stats[n]);
    }
  }

  /** A non-empty sequence is its prefix followed by its last element. */
  lemma InitLast<T>(s: seq<T>)
    requires |s| > 0
    ensures s == s[..|s| - 1] + [s[|s| - 1]]
  {
  }

  /** One more stat naming a traffic counter appends its sample. */
  lemma TrafficStep(m: map<string, Desc>, init: seq<Stat>, s: Stat)
    requires Shaped(m) && TrafficKeys <= m.Keys && NamesTraffic(s.name) && CounterRun(m, init).status == Ok
    ensures CounterRun(m, init + [s]) == Run(CounterRun(m, init).samples + [TrafficCounter(m, s)], Ok)
  {
    var t := Translate(s.name).value;
    assert t.metric in KnownKeys;
    TrafficCounterEmitted(m, t.metric, s.value, t.dimension, t.target);
    assert (init + [s])[..|init|] == init;
  }

  /** When no stat names a key of the table, the loop sends nothing. */
  lemma {:induction false} CounterRunUnknownDropped(m: map<string, Desc>, stats: seq<Stat>)
    requires Shaped(m)
    requires forall i :: 0 <= i < |stats| && Translate(stats[i].name).Success? ==>
               Translate(stats[i].name).value.metric !in KnownKeys
    ensures CounterRun(m, stats).samples == []
    decreases |stats|
  {
    if stats != [] {
      var s := stats[|stats| - 1];
      CounterRunUnknownDropped(m, stats[..|stats| - 1]);
      match Translate(s.name)
      case Failure(_) =>
      case Success(t) => UnknownCounterDropped(m, t.metric, s.value, t.dimension, t.target);
    }
  }

  /** The loop panics exactly when some stat name has fewer than four
      segments. */
  lemma {:induction false} CounterRunPanics(m: map<string, Desc>, stats: seq<Stat>)
    ensures CounterRun(m, stats).status.Panicked?
        <==> exists i :: 0 <= i < |stats| && Translate(stats[i].name).Failure?
    decreases |stats|
  {
    if stats != [] {
      var n := |stats| - 1;
      var init := stats[..n];
      CounterRunPanics(m, init);
      CounterRunStatus(m, init);
      if CounterRun(m, init).status.Panicked? {
        var i :| 0 <= i < n && Translate(init[i].name).Failure?;
        assert init[i] == stats[i];
        CounterRunAfterPanic(m, stats, n);
      } else if Translate(stats[n].name).Failure? {
        assert CounterRun(m, stats).status.Panicked?;
      } else {
        assert CounterRun(m, stats).status.Ok?;
        forall i | 0 <= i < |stats|
          ensures Translate(stats[i].name).Success?
        {
          if i < n {
            assert init[i] == stats[i];
            assert Translate(init[i].name).Success?;
          }
        }
      }
    }
  }


  /** The loop panics on the first stat whose name has fewer than four
      segments, having sent exactly what the stats before it produced. */
  lemma CounterRunFirstPanic(m: map<string, Desc>, stats: seq<Stat>, i: nat)
    requires i < |stats| && Translate(stats[i].name).Failure?
    requires forall j :: 0 <= j < i ==> Translate(stats[j].name).Success?
    ensures CounterRun(m, stats)
         == Run(CounterRun(m, stats[..i]).samples, Panicked(stats[i].name, Translate(stats[i].name).error))
  {
    var before, upTo := stats[..i], stats[..i + 1];
    forall j | 0 <= j < i
      ensures Translate(before[j].name).Success?
    {
      assert before[j] == stats[j];
    }
    CounterRunPanics(m, before);
    CounterRunStatus(m, before);
    assert upTo[..i] == before;
    CounterRunAfterPanic(m, stats, i + 1);
  }

  /** A single stat whose name translates is sent through the emission rule. */
  lemma SingleStat(m: map<string, Desc>, s: Stat)
    requires Translate(s.name).Success?
    ensures var t := Translate(s.name).value;
            CounterRun(m, [s]) == Run(Emitted(m, t.metric, Counter, s.value, [t.dimension, t.target]), Ok)
  {
    assert [s][..0] == [];
  }

  /** The stat named in the comment of scrapeV2RayMetrics is sent as the
      labelled uplink traffic counter, with its value. */
  lemma UplinkStatSent(m: map<string, Desc>, value: int64)
    requires Shaped(m)
    ensures CounterRun(m, [Stat("inbound>>>socks-proxy>>>traffic>>>uplink", value)])
         == Run([Sample(Desc(FullName("traffic_uplink_bytes_total"), m["traffic_uplink_bytes_total"].help, TrafficLabels),
                        Counter, value, ["inbound", "socks-proxy"])], Ok)
  {
    TranslateUplinkExample();
    SingleStat(m, Stat("inbound>>>socks-proxy>>>traffic>>>uplink", value));
    TrafficCounterEmitted(m, "traffic_uplink_bytes_total", value, "inbound", "socks-proxy");
  }

  /** A stat of a category the table does not know, such as
      `inbound>>>api>>>newfeature>>>count`, is dropped: the loop goes on
      without sending anything for it. */
  lemma NewFeatureStatDropped(m: map<string, Desc>, value: int64)
    requires Shaped(m)
    ensures CounterRun(m, [Stat("inbound>>>api>>>newfeature>>>count", value)]) == Run([], Ok)
  {
    TranslateUnknownExample();
    SingleStat(m, Stat("inbound>>>api>>>newfeature>>>count", value));
    UnknownCounterDropped(m, "newfeature_count_bytes_total", value, "inbound", "api");
  }

  /** A gauge under a key whose descriptor has no labels is always sent. */
  lemma GaugeSent(m: map<string, Desc>, key: string, value: int)
    requires Shaped(m) && key !in TrafficKeys
    ensures EmittedGauge(m, key, value) == [PlainGauge(m, key, value)]
    ensures Resolve(m, key).fqName == FullName(key)
  {
    ResolveInTable(m, key);
  }

  /** A label-free gauge as sent under the descriptor `key` resolves to. */
  function PlainGauge(m: map<string, Desc>, key: string, value: int): (smp: Sample)
  {
    Sample(Resolve(m, key), ValueKind.Gauge, value, [])
  }

  /** One more reading appends what its gauge call sends. */
  lemma GaugesOfStep(m: map<string, Desc>, readings: seq<(string, int)>, k: nat)
    requires k < |readings|
    ensures GaugesOf(m, readings[..k + 1]) == GaugesOf(m, readings[..k]) + EmittedGauge(m, readings[k].0, readings[k].1)
  {
    assert readings[..k + 1][..k] == readings[..k];
  }

  /** Under the exporter's table, gauge calls under keys other than the
      traffic keys each send their label-free gauge: one sample per
      reading, in order, named `v2ray_` followed by the reading's key. */
  lemma {:induction false} GaugesOfSent(m: map<string, Desc>, readings: seq<(string, int)>)
    requires Shaped(m)
    requires forall i :: 0 <= i < |readings| ==> readings[i].0 !in TrafficKeys
    ensures |GaugesOf(m, readings)| == |readings|
    ensures forall i :: 0 <= i < |readings| ==>
              GaugesOf(m, readings)[i] == PlainGauge(m, readings[i].0, readings[i].1)
              && GaugesOf(m, readings)[i].desc.fqName == FullName(readings[i].0)
    decreases |readings|
  {
    if readings != [] {
      var n := |readings| - 1;
      var init := readings[..n];
      GaugesOfSent(m, init);
      GaugeSent(m, readings[n].0, readings[n].1);
      var g, before, last := GaugesOf(m, readings), GaugesOf(m, init), EmittedGauge(m, readings[n].0, readings[n].1);
      assert g == before + last;
      forall i | 0 <= i < |readings|
        ensures g[i] == PlainGauge(m, readings[i].0, readings[i].1)
        ensures g[i].desc.fqName == FullName(readings[i].0)
      {
        if i < n {
          assert g[i] == before[i] && init[i] == readings[i];
          assert before[i] == PlainGauge(m, init[i].0, init[i].1);
          assert before[i].desc.fqName == FullName(init[i].0);
        } else {
          assert g[i] == last[0] == PlainGauge(m, readings[n].0, readings[n].1);
        }
      }
    }
  }

  /** None of the system gauge keys is a traffic key. */
  lemma SysKeysPlain(ss: SysStats)
    ensures forall i :: 0 <= i < |SysReadings(ss)| ==> SysReadings(ss)[i].0 !in TrafficKeys
  {
  }

  /** The nine system gauges are all sent, in the order of the calls, each
      label-free under the descriptor its key resolves to and named
      `v2ray_` followed by its key. */
  lemma SysGaugesInOrder(m: map<string, Desc>, ss: SysStats)
    requires Shaped(m)
    ensures |SysGauges(m, ss)| == 9
    ensures forall i :: 0 <= i < 9 ==>
              SysGauges(m, ss)[i] == PlainGauge(m, SysReadings(ss)[i].0, SysReadings(ss)[i].1)
              && SysGauges(m, ss)[i].desc.fqName == FullName(SysReadings(ss)[i].0)
  {
    SysKeysPlain(ss);
    GaugesOfSent(m, SysReadings(ss));
  }

  /** After a scrape that did not panic, Collect sends the `up` gauge, the
      duration gauge and the scrape counter, in that order, all label-free
      and named `v2ray_up`, `v2ray_scrape_duration_seconds` and
      `v2ray_scrapes_total`. */
  lemma TailSent(m: map<string, Desc>, status: Status, elapsed: nat, count: nat)
    requires Shaped(m)
    ensures Tail(m, status, elapsed, count)
         == [PlainGauge(m, "up", UpValue(status)),
             PlainGauge(m, "scrape_duration_seconds", elapsed),
             Sample(ScrapesDesc, Counter, count, [])]
    ensures Resolve(m, "up").fqName == FullName("up")
    ensures Resolve(m, "scrape_duration_seconds").fqName == FullName("scrape_duration_seconds")
    ensures ScrapesDesc.fqName == FullName("scrapes_total")
  {
    GaugeSent(m, "up", UpValue(status));
    GaugeSent(m, "scrape_duration_seconds", elapsed);
  }

  /** The scrape ends without error exactly when the endpoint is reached,
      both calls succeed and every stat name has at least four segments. */
  lemma ScrapeOkIff(m: map<string, Desc>, r: Responses)
    ensures ScrapeRun(m, r).status == Ok
        <==> r.reachable && r.sysStats.Some? && r.stats.Some?
             && forall i :: 0 <= i < |r.stats.value| ==> Translate(r.stats.value[i].name).Success?
  {
    if r.reachable && r.sysStats.Some? && r.stats.Some? {
      CounterRunPanics(m, r.stats.value);
      CounterRunStatus(m, r.stats.value);
    }
  }

  /** The scrape panics exactly when the endpoint is reached, both calls
      succeed and some stat name has fewer than four segments. */
  lemma ScrapePanicIff(m: map<string, Desc>, r: Responses)
    ensures ScrapeRun(m, r).status.Panicked?
        <==> r.reachable && r.sysStats.Some? && r.stats.Some?
             && exists i :: 0 <= i < |r.stats.value| && Translate(r.stats.value[i].name).Failure?
  {
    if r.reachable && r.sysStats.Some? && r.stats.Some? {
      CounterRunPanics(m, r.stats.value);
    }
  }

  /** Every scrape that does not panic ends with the three tail samples,
      and `up` is 1 exactly when the scrape returned no error. */
  lemma CollectTail(m: map<string, Desc>, r: Responses, count: nat, elapsed: nat)
    requires Shaped(m) && !ScrapeRun(m, r).status.Panicked?
    ensures CollectRun(m, r, count, elapsed).samples
         == ScrapeRun(m, r).samples
            + [PlainGauge(m, "up", UpValue(ScrapeRun(m, r).status)),
               PlainGauge(m, "scrape_duration_seconds", elapsed),
               Sample(ScrapesDesc, Counter, count, [])]
    ensures CollectRun(m, r, count, elapsed).status == ScrapeRun(m, r).status
    ensures UpValue(ScrapeRun(m, r).status) == 1 <==> ScrapeRun(m, r).status == Ok
  {
    TailSent(m, ScrapeRun(m, r).status, elapsed, count);
  }

  /** A failed dial: only the tail is sent, with `up` 0, and the only
      request is the connection attempt. */
  lemma CollectDialFailed(m: map<string, Desc>, r: Responses, count: nat, elapsed: nat,
                          endpoint: string, timeout: nat)
    requires Shaped(m) && !r.reachable
    ensures CollectRun(m, r, count, elapsed)
         == Run([PlainGauge(m, "up", 0), PlainGauge(m, "scrape_duration_seconds", elapsed),
                 Sample(ScrapesDesc, Counter, count, [])], Failed(DialFailed))
    ensures Requests(endpoint, timeout, r) == [Connect(endpoint, timeout)]
  {
    TailSent(m, Failed(DialFailed), elapsed, count);
  }

  /** A failed system-stats call: only the tail is sent, with `up` 0, and
      the stats query is never made; the connection is closed. */
  lemma CollectSysStatsFailed(m: map<string, Desc>, r: Responses, count: nat, elapsed: nat,
                              endpoint: string, timeout: nat)
    requires Shaped(m) && r.reachable && r.sysStats.None?
    ensures CollectRun(m, r, count, elapsed)
         == Run([PlainGauge(m, "up", 0), PlainGauge(m, "scrape_duration_seconds", elapsed),
                 Sample(ScrapesDesc, Counter, count, [])], Failed(SysStatsFailed))
    ensures Requests(endpoint, timeout, r)
         == [Connect(endpoint, timeout), Request.GetSysStats, Request.Close]
  {
    TailSent(m, Failed(SysStatsFailed), elapsed, count);
  }

  /** A failed stats query: the nine system gauges are sent, then the tail
      with `up` 0. */
  lemma CollectQueryFailed(m: map<string, Desc>, r: Responses, count: nat, elapsed: nat,
                           endpoint: string, timeout: nat)
    requires Shaped(m) && r.reachable && r.sysStats.Some? && r.stats.None?
    ensures CollectRun(m, r, count, elapsed)
         == Run(SysGauges(m, r.sysStats.value)
                + [PlainGauge(m, "up", 0), PlainGauge(m, "scrape_duration_seconds", elapsed),
                   Sample(ScrapesDesc, Counter, count, [])], Failed(QueryFailed))
    ensures |CollectRun(m, r, count, elapsed).samples| == 12
    ensures Requests(endpoint, timeout, r)
         == [Connect(endpoint, timeout), Request.GetSysStats, Request.QueryStats(false), Request.Close]
  {
    TailSent(m, Failed(QueryFailed), elapsed, count);
    SysGaugesInOrder(m, r.sysStats.value);
  }

  /** A scrape whose every stat names a traffic counter: the nine system
      gauges, one counter per stat in order, then the tail with `up` 1. */
  lemma CollectSucceeded(m: map<string, Desc>, r: Responses, count: nat, elapsed: nat)
    requires Shaped(m) && r.reachable && r.sysStats.Some? && r.stats.Some?
    requires forall i :: 0 <= i < |r.stats.value| ==> NamesTraffic(r.stats.value[i].name)
    ensures TrafficKeys <= m.Keys
    ensures CollectRun(m, r, count, elapsed)
         == Run(SysGauges(m, r.sysStats.value) + TrafficCounters(m, r.stats.value)
                + [PlainGauge(m, "up", 1), PlainGauge(m, "scrape_duration_seconds", elapsed),
                   Sample(ScrapesDesc, Counter, count, [])], Ok)
  {
    CounterRunAllTraffic(m, r.stats.value);
    TailSent(m, Ok, elapsed, count);
  }

  /** A panic on the first short name: the system gauges and the counters
      of the stats before it are sent, and nothing after; in particular no
      `up` gauge. */
  lemma CollectPanicked(m: map<string, Desc>, r: Responses, count: nat, elapsed: nat, i: nat)
    requires r.reachable && r.sysStats.Some? && r.stats.Some?
    requires i < |r.stats.value| && Translate(r.stats.value[i].name).Failure?
    requires forall j :: 0 <= j < i ==> Translate(r.stats.value[j].name).Success?
    ensures CollectRun(m, r, count, elapsed)
         == Run(SysGauges(m, r.sysStats.value) + CounterRun(m, r.stats.value[..i]).samples,
                Panicked(r.stats.value[i].name, Translate(r.stats.value[i].name).error))
  {
    CounterRunFirstPanic(m, r.stats.value, i);
  }

  /** The stats query is made exactly when the system stats arrived, and
      never asks to reset the counters; the connection is closed exactly
      when it was made. */
  lemma RequestsShape(endpoint: string, timeout: nat, r: Responses)
    ensures Request.QueryStats(false) in Requests(endpoint, timeout, r) <==> r.reachable && r.sysStats.Some?
    ensures Request.QueryStats(true) !in Requests(endpoint, timeout, r)
    ensures Request.Close in Requests(endpoint, timeout, r) <==> r.reachable
    ensures Requests(endpoint, timeout, r)[0] == Connect(endpoint, timeout)
  {
  }
}
