/** Metric descriptors, samples and the emission rule of the exporter
    (exporter.go: NewExporter's table, registerConstMetric, newMetricDescr),
    with the client library's constant-metric constructor reduced to its
    label-count check. */
module Metrics {
  import opened Wrappers

  /** prometheus.GaugeValue and prometheus.CounterValue. */
  datatype ValueKind = Gauge | Counter

  /** A descriptor: fully-qualified name, help text and label names. */
  datatype Desc = Desc(fqName: string, help: string, labels: seq<string>)

  /** A constant metric handed to the collection channel. */
  datatype Sample = Sample(desc: Desc, kind: ValueKind, value: int, labelValues: seq<string>)

  const Namespace := "v2ray"

  /** BuildFQName(Namespace, "", name): the namespace is joined on with `_`,
      except that an empty name stays empty. */
  function FullName(name: string): (fq: string)
  {
    if name == "" then "" else Namespace + "_" + name
  }

  function NewMetricDescr(key: string, help: string, labels: seq<string>): (d: Desc)
  {
    Desc(FullName(key), help, labels)
  }

  /** A value of the literal table that NewExporter registers: help text
      and label names. */
  datatype DescInfo = DescInfo(txt: string, labels: seq<string>)

  const TrafficLabels: seq<string> := ["dimension", "target"]

  /** The literal table of NewExporter, keyed by metric key. */
  const KnownMetrics: map<string, DescInfo> := map[
    "up" := DescInfo("Indicate scrape succeeded or not", []),
    "scrape_duration_seconds" := DescInfo("Scrape duration in seconds", []),
    "uptime_seconds" := DescInfo("V2Ray uptime in seconds", []),
    "traffic_uplink_bytes_total" := DescInfo("Number of transmitted bytes", TrafficLabels),
    "traffic_downlink_bytes_total" := DescInfo("Number of receieved bytes", TrafficLabels)
  ]

  const TrafficKeys: set<string> := {"traffic_uplink_bytes_total", "traffic_downlink_bytes_total"}

  const KnownKeys: set<string> := {"up", "scrape_duration_seconds", "uptime_seconds"} + TrafficKeys

  /** The descriptor registered for key `k` of the literal table. */
  function Register(k: string): (d: Desc)
    requires k in KnownMetrics
  {
    NewMetricDescr(k, KnownMetrics[k].txt, KnownMetrics[k].labels)
  }

  /** The descriptor map NewExporter builds from its literal table. */
  function DescriptorTable(): (table: map<string, Desc>)
  {
    map k | k in KnownMetrics :: Register(k)
  }

  /** The descriptor of the scrape counter, built from its counter options. */
  const ScrapesDesc := NewMetricDescr("scrapes_total", "Total number of scrapes performed", [])

  /** The descriptor registerConstMetric uses for `key`: the registered one,
      or else a fresh one without labels whose help text is `key metric`. */
  function Resolve(m: map<string, Desc>, key: string): (d: Desc)
  {
    if key in m then m[key] else NewMetricDescr(key, key + " metric", [])
  }

  /** prometheus.NewConstMetric, reduced to its label-count check: it fails
      when the number of label values differs from the descriptor's number
      of label names. */
  function NewConstMetric(d: Desc, kind: ValueKind, value: int, labelValues: seq<string>): (r: Option<Sample>)
  {
    if |labelValues| == |d.labels| then Some(Sample(d, kind, value, labelValues)) else None
  }

  /** What one registerConstMetric call sends: the sample when the
      constructor succeeds, nothing when it fails. */
  function Emitted(m: map<string, Desc>, key: string, kind: ValueKind, value: int,
                   labelValues: seq<string>): (sent: seq<Sample>)
  {
    match NewConstMetric(Resolve(m, key), kind, value, labelValues)
    case Some(s) => [s]
    case None => []
  }

  /** A Go channel seen as the sequence of everything sent on it. */
  class Channel<T> {
    var sent: seq<T>

    constructor ()
      ensures sent == []
    {
      sent := [];
    }

    method Send(x: T)
      modifies this
      ensures sent == old(sent) + [x]
    {
      sent := sent + [x];
    }
  }

  /** A non-empty key is prefixed with the namespace and `_`. */
  lemma FullNamePrefix(key: string)
    requires key != ""
    ensures FullName(key) == "v2ray_" + key
  {
  }

  /** Distinct non-empty keys get distinct fully-qualified names. */
  lemma FullNameInjective(a: string, b: string)
    requires a != "" && b != ""
    ensures FullName(a) == FullName(b) <==> a == b
  {
    if FullName(a) == FullName(b) {
      var n := |Namespace + "_"|;
      assert a == FullName(a)[n..];
      assert b == FullName(b)[n..];
    }
  }

  /** The table holds exactly the five keys; every name is `v2ray_` + key;
      only the two traffic counters carry the labels `[dimension, target]`. */
  lemma DescriptorTableContents()
    ensures DescriptorTable().Keys == KnownKeys
    ensures forall k :: k in DescriptorTable() ==> DescriptorTable()[k].fqName == "v2ray_" + k
    ensures forall k :: k in DescriptorTable() ==>
              DescriptorTable()[k].labels == if k in TrafficKeys then TrafficLabels else []
    ensures DescriptorTable()["up"].help == "Indicate scrape succeeded or not"
    ensures DescriptorTable()["scrape_duration_seconds"].help == "Scrape duration in seconds"
    ensures DescriptorTable()["uptime_seconds"].help == "V2Ray uptime in seconds"
    ensures DescriptorTable()["traffic_uplink_bytes_total"].help == "Number of transmitted bytes"
    ensures DescriptorTable()["traffic_downlink_bytes_total"].help == "Number of receieved bytes"
  {
  }

  /** The shape of the exporter's table that the scrape relies on: the five
      known keys, each named `v2ray_` + key, with the traffic labels on the
      two traffic counters and no labels elsewhere. */
  ghost predicate Shaped(m: map<string, Desc>)
  {
    && m.Keys == KnownKeys
    && forall k :: k in m ==>
         m[k].fqName == FullName(k) && m[k].labels == if k in TrafficKeys then TrafficLabels else []
  }

  lemma DescriptorTableShaped()
    ensures Shaped(DescriptorTable())
  {
    DescriptorTableContents();
  }

  /** Every key resolves to a descriptor named `v2ray_` + key, labelled
      only for the two traffic counters; a key outside the table gets the
      help text `key metric`. */
  lemma ResolveInTable(m: map<string, Desc>, key: string)
    requires Shaped(m)
    ensures Resolve(m, key).fqName == FullName(key)
    ensures Resolve(m, key).labels == if key in TrafficKeys then TrafficLabels else []
    ensures key !in KnownKeys ==> Resolve(m, key).help == key + " metric"
    ensures key in KnownKeys ==> Resolve(m, key) == m[key]
  {
  }

  /** The emission rule: at most one sample, sent exactly when the number of
      label values matches the resolved descriptor, and then carrying that
      descriptor, the kind, the value and the label values. */
  lemma EmitRule(m: map<string, Desc>, key: string, kind: ValueKind, value: int, labelValues: seq<string>)
    ensures |Emitted(m, key, kind, value, labelValues)| <= 1
    ensures Emitted(m, key, kind, value, labelValues) != [] <==> |labelValues| == |Resolve(m, key).labels|
    ensures Emitted(m, key, kind, value, labelValues) != [] ==>
              Emitted(m, key, kind, value, labelValues)[0] == Sample(Resolve(m, key), kind, value, labelValues)
  {
  }

  /** A counter carrying the two label values `[dimension, target]` under
      any key but the two traffic keys is dropped: under a key outside the
      table, and under a label-less key of the table alike. */
  lemma UnknownCounterDropped(m: map<string, Desc>, key: string, value: int, dimension: string, target: string)
    requires Shaped(m) && key !in TrafficKeys
    ensures Emitted(m, key, Counter, value, [dimension, target]) == []
  {
  }

  /** A label-less gauge under a key outside the table (every `memstats_*`
      key and `goroutines`) is sent with the synthesized descriptor. */
  lemma UnknownGaugeEmitted(m: map<string, Desc>, key: string, value: int)
    requires Shaped(m) && key !in KnownKeys
    ensures Emitted(m, key, Gauge, value, [])
         == [Sample(Desc(FullName(key), key + " metric", []), Gauge, value, [])]
  {
  }

  /** A traffic counter with its two label values is sent with the
      registered, labelled descriptor. */
  lemma TrafficCounterEmitted(m: map<string, Desc>, key: string, value: int, dimension: string, target: string)
    requires Shaped(m) && key in TrafficKeys
    ensures Emitted(m, key, Counter, value, [dimension, target])
         == [Sample(Desc(FullName(key), m[key].help, TrafficLabels), Counter, value, [dimension, target])]
  {
    assert key in KnownKeys;
    ResolveInTable(m, key);
  }
}
