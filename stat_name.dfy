/** Translation of an upstream counter name such as
    `inbound>>>socks-proxy>>>traffic>>>uplink` into a metric key and its
    `dimension` / `target` label values (exporter.go, scrapeV2RayMetrics). */
module StatName {
  import opened Wrappers
  import opened Strings

  /** The separator between the segments of a counter name. */
  const Separator := ">>>"

  /** Appended to `category_direction` to form the metric key. */
  const KeySuffix := "_bytes_total"

  datatype Translated = Translated(metric: string, dimension: string, target: string)

  /** Go's run-time panic for indexing a slice of `length` elements at `index`. */
  datatype IndexPanic = IndexOutOfRange(index: nat, length: nat)

  /** The name is split on the separator; segments 2 and 3 make the key and
      segments 0 and 1 the label values. There is no check of the segment
      count: with fewer than three segments the access to segment 2 panics,
      with exactly three the access to segment 3 does, and segments after
      the fourth are ignored. */
  function Translate(name: string): (r: Result<Translated, IndexPanic>)
    ensures r.Failure? ==> r.error.length <= r.error.index
    ensures r.Success? ==> |KeySuffix| <= |r.value.metric|
                           && r.value.metric[|r.value.metric| - |KeySuffix|..] == KeySuffix
  {
    var p := Split(name, Separator);
    if |p| <= 2 then Failure(IndexOutOfRange(2, |p|))
    else if |p| == 3 then Failure(IndexOutOfRange(3, |p|))
    else Success(Translated(p[2] + "_" + p[3] + KeySuffix, p[0], p[1]))
  }

  /** A segment that can stand before a separator and be cut back out: it
      holds no separator and does not end in `>`. */
  predicate Segment(p: string)
  {
    Free(p, Separator) && (|p| == 0 || p[|p| - 1] != '>')
  }

  lemma IndexIs(s: string, d: string, k: nat)
    requires OccursAt(s, d, k)
    requires forall j: nat :: j < k ==> !OccursAt(s, d, j)
    ensures Index(s, d) == Some(k)
  {
    IndexFirst(s, d);
  }

  /** Exactly the segments above are cut back out intact when followed by
      the separator. */
  lemma SegmentDelimits(p: string)
    ensures Delimits(p, Separator) <==> Segment(p)
  {
    var s := p + Separator;
    assert s[..|p|] == p;
    assert OccursAt(s, Separator, |p|);
    if Segment(p) {
      forall j: nat | j < |p|
        ensures !OccursAt(s, Separator, j)
      {
        if j + 3 <= |p| {
          OccursInPrefix(p, s, Separator, j);
        }
      }
      IndexIs(s, Separator, |p|);
    }
    if Delimits(p, Separator) {
      IndexFirst(s, Separator);
      forall j: nat | j <= |p|
        ensures !OccursAt(p, Separator, j)
      {
        if j + 3 <= |p| {
          OccursInPrefix(p, s, Separator, j);
        }
      }
    }
    if |p| > 0 && p[|p| - 1] == '>' {
      EndingArrow(p);
    }
  }

  /** A segment ending in `>` forms a separator with the first two
      characters of the separator written after it. */
  lemma EndingArrow(p: string)
    requires |p| > 0 && p[|p| - 1] == '>'
    ensures !Delimits(p, Separator)
  {
    var s := p + Separator;
    IndexFirst(s, Separator);
    assert s[|p| - 1..|p| + 2] == Separator;
    assert OccursAt(s, Separator, |p| - 1);
  }

  /** Segments that qualify (the last may even end in `>`) are split back out. */
  lemma SplitSegments(parts: seq<string>)
    requires |parts| >= 1
    requires forall k :: 0 <= k < |parts| - 1 ==> Segment(parts[k])
    requires Free(parts[|parts| - 1], Separator)
    ensures Split(Join(parts, Separator), Separator) == parts
  {
    forall k | 0 <= k < |parts| - 1
      ensures Delimits(parts[k], Separator)
    {
      SegmentDelimits(parts[k]);
    }
    SplitJoin(parts, Separator);
  }

  /** A name of four or more segments yields the key `C_D_bytes_total`
      from its third and fourth segments and the labels `[A, B]` from its
      first two; any segments after the fourth are ignored. */
  lemma TranslateJoined(parts: seq<string>)
    requires |parts| >= 4
    requires forall k :: 0 <= k < |parts| - 1 ==> Segment(parts[k])
    requires Free(parts[|parts| - 1], Separator)
    ensures Translate(Join(parts, Separator))
         == Success(Translated(parts[2] + "_" + parts[3] + KeySuffix, parts[0], parts[1]))
  {
    SplitSegments(parts);
  }

  /** `A>>>B>>>C>>>D` translates to key `C_D_bytes_total` with labels `[A, B]`. */
  lemma TranslateFourSegments(a: string, b: string, c: string, d: string)
    requires Segment(a) && Segment(b) && Segment(c) && Free(d, Separator)
    ensures Translate(a + Separator + b + Separator + c + Separator + d)
         == Success(Translated(c + "_" + d + KeySuffix, a, b))
  {
    var parts := [a, b, c, d];
    JoinFour(a, b, c, d, Separator);
    assert forall k :: 0 <= k < 3 ==> Segment(parts[k]);
    TranslateJoined(parts);
  }

  /** A name of one to three segments makes the index expression panic:
      at index 2 for one or two segments, at index 3 for three. */
  lemma TranslateShort(parts: seq<string>)
    requires 1 <= |parts| < 4
    requires forall k :: 0 <= k < |parts| - 1 ==> Segment(parts[k])
    requires Free(parts[|parts| - 1], Separator)
    ensures Translate(Join(parts, Separator))
         == Failure(IndexOutOfRange(if |parts| < 3 then 2 else 3, |parts|))
  {
    SplitSegments(parts);
  }

  /** In particular a name with no separator at all panics at index 2. */
  lemma TranslateNoSeparator(name: string)
    requires Free(name, Separator)
    ensures Translate(name) == Failure(IndexOutOfRange(2, 1))
  {
    TranslateShort([name]);
  }

  /** A string without `>` is a segment and holds no separator. */
  lemma NoArrowSegment(p: string)
    requires forall i :: 0 <= i < |p| ==> p[i] != '>'
    ensures Segment(p) && Free(p, Separator)
  {
    forall i: nat | i <= |p|
      ensures !OccursAt(p, Separator, i)
    {
      if i + |Separator| <= |p| {
        assert p[i..i + |Separator|][0] == p[i] != '>';
      }
    }
  }

  /** The name in the comment of scrapeV2RayMetrics, as its segments
      joined around the separator, and the key its last two segments make. */
  lemma UplinkName()
    ensures "inbound" + Separator + "socks-proxy" + Separator + "traffic" + Separator + "uplink"
         == "inbound>>>socks-proxy>>>traffic>>>uplink"
    ensures "traffic" + "_" + "uplink" + KeySuffix == "traffic_uplink_bytes_total"
  {
    assert "inbound" + Separator == "inbound>>>";
    assert "inbound>>>" + "socks-proxy" == "inbound>>>socks-proxy";
    assert "inbound>>>socks-proxy" + Separator == "inbound>>>socks-proxy>>>";
    assert "inbound>>>socks-proxy>>>" + "traffic" == "inbound>>>socks-proxy>>>traffic";
    assert "inbound>>>socks-proxy>>>traffic" + Separator == "inbound>>>socks-proxy>>>traffic>>>";
  }

  /** The name in the comment of scrapeV2RayMetrics translates to the
      uplink traffic counter with labels `inbound` and `socks-proxy`. */
  lemma TranslateUplinkExample()
    ensures Translate("inbound>>>socks-proxy>>>traffic>>>uplink")
         == Success(Translated("traffic_uplink_bytes_total", "inbound", "socks-proxy"))
  {
    NoArrowSegment("inbound");
    NoArrowSegment("socks-proxy");
    NoArrowSegment("traffic");
    NoArrowSegment("uplink");
    TranslateFourSegments("inbound", "socks-proxy", "traffic", "uplink");
    UplinkName();
  }

  /** A counter name outside the two traffic categories, as its segments
      joined around the separator, and the key its last two segments make. */
  lemma NewFeatureName()
    ensures "inbound" + Separator + "api" + Separator + "newfeature" + Separator + "count"
         == "inbound>>>api>>>newfeature>>>count"
    ensures "newfeature" + "_" + "count" + KeySuffix == "newfeature_count_bytes_total"
  {
    assert "inbound" + Separator == "inbound>>>";
    assert "inbound>>>" + "api" == "inbound>>>api";
    assert "inbound>>>api" + Separator == "inbound>>>api>>>";
    assert "inbound>>>api>>>" + "newfeature" == "inbound>>>api>>>newfeature";
    assert "inbound>>>api>>>newfeature" + Separator == "inbound>>>api>>>newfeature>>>";
  }

  /** A counter outside the two traffic categories translates to a key of
      its own: `newfeature_count_bytes_total`. */
  lemma TranslateUnknownExample()
    ensures Translate("inbound>>>api>>>newfeature>>>count")
         == Success(Translated("newfeature_count_bytes_total", "inbound", "api"))
  {
    NoArrowSegment("inbound");
    NoArrowSegment("api");
    NoArrowSegment("newfeature");
    NoArrowSegment("count");
    TranslateFourSegments("inbound", "api", "newfeature", "count");
    NewFeatureName();
  }
}
