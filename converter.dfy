/** The metric-to-envelope converter of the Azure Monitor metrics exporter:
    one OpenCensus metric becomes one envelope per time series. */
module Converter {
  import opened Protocol

  const StatsbeatName: string := "Statsbeat"
  const MetricEnvelopeName: string := "Microsoft.ApplicationInsights.Metric"
  const MetricBaseType: string := "MetricData"
  /** What a label without a value is sent as. */
  const NullLabel: string := "null"

  /** The only failure of the converter: an index past the end of a list
      (a series without points, or fewer label values than label keys). */
  datatype ConvertError = IndexError

  /** What the exporter stamps on every envelope it builds. */
  datatype EnvelopeConfig = EnvelopeConfig(instrumentationKey: string, isStats: bool)

  function LabelText(v: LabelValue): string
  {
    match v.value
    case None => NullLabel
    case Some(s) => s
  }

  function EnvelopeName(isStats: bool): string
  {
    if isStats then StatsbeatName else MetricEnvelopeName
  }

  /** The envelope wrapping one data point and its properties. */
  function CreateEnvelope(cfg: EnvelopeConfig, dataPoint: DataPoint, time: Timestamp, properties: map<string, string>): Envelope
  {
    Envelope(cfg.instrumentationKey, EnvelopeName(cfg.isStats), time,
             Data(MetricData([dataPoint], properties), MetricBaseType))
  }

  /** One Azure data point per OpenCensus point, in order. */
  method CreateDataPoints(ts: TimeSeries, md: MetricDescriptor) returns (dataPoints: seq<DataPoint>)
    ensures |dataPoints| == |ts.points|
    ensures forall i | 0 <= i < |dataPoints| :: dataPoints[i] == DataPoint(md.name, md.name, ts.points[i].value)
  {
    dataPoints := [];
    var i := 0;
    while i < |ts.points|
      invariant 0 <= i <= |ts.points|
      invariant |dataPoints| == i
      invariant forall j | 0 <= j < i :: dataPoints[j] == DataPoint(md.name, md.name, ts.points[j].value)
    {
      dataPoints := dataPoints + [DataPoint(md.name, md.name, ts.points[i].value)];
      i := i + 1;
    }
  }

  /** The properties map after pairing each label key with the label value at
      the same position, in index order (so a later duplicate key overwrites). */
  function Properties(keys: seq<LabelKey>, values: seq<LabelValue>): map<string, string>
    requires |keys| <= |values|
    decreases |keys|
  {
    if keys == [] then map[]
    else
      var n := |keys| - 1;
      Properties(keys[..n], values)[keys[n].key := LabelText(values[n])]
  }

  /** The keys of the map are exactly the label keys. */
  lemma {:induction false} PropertiesKeys(keys: seq<LabelKey>, values: seq<LabelValue>)
    requires |keys| <= |values|
    ensures Properties(keys, values).Keys == set i | 0 <= i < |keys| :: keys[i].key
    decreases |keys|
  {
    if keys != [] {
      var n := |keys| - 1;
      PropertiesKeys(keys[..n], values);
      var front := set i | 0 <= i < n :: keys[..n][i].key;
      var all := set i | 0 <= i < |keys| :: keys[i].key;
      assert front + {keys[n].key} == all by {
        forall k | k in all ensures k in front + {keys[n].key} {
          var i :| 0 <= i < |keys| && keys[i].key == k;
          if i < n {
            assert keys[..n][i].key == k;
          }
        }
      }
    }
  }

  /** The value under the key at position `i`, when no later position repeats
      that key, is the label value at position `i`, or "null" when it is missing. */
  lemma {:induction false} PropertiesLastWins(keys: seq<LabelKey>, values: seq<LabelValue>, i: nat)
    requires |keys| <= |values|
    requires i < |keys|
    requires forall j | i < j < |keys| :: keys[j].key != keys[i].key
    ensures keys[i].key in Properties(keys, values)
    ensures Properties(keys, values)[keys[i].key] ==
            (if values[i].value.None? then "null" else values[i].value.value)
    decreases |keys|
  {
    var n := |keys| - 1;
    if i < n {
      PropertiesLastWins(keys[..n], values, i);
    }
  }

  /** Label values past the number of label keys play no part. */
  lemma {:induction false} PropertiesIgnoreExtraValues(keys: seq<LabelKey>, values: seq<LabelValue>, other: seq<LabelValue>)
    requires |keys| <= |values| && |keys| <= |other|
    requires values[..|keys|] == other[..|keys|]
    ensures Properties(keys, values) == Properties(keys, other)
    decreases |keys|
  {
    if keys != [] {
      var n := |keys| - 1;
      assert values[n] == values[..|keys|][n];
      assert other[n] == other[..|keys|][n];
      assert values[..n] == values[..|keys|][..n];
      assert other[..n] == other[..|keys|][..n];
      PropertiesIgnoreExtraValues(keys[..n], values, other);
    }
  }

  /** The properties of one series; an index error when a label value is missing. */
  method CreateProperties(ts: TimeSeries, md: MetricDescriptor) returns (r: Result<map<string, string>, ConvertError>)
    ensures r.Ok? <==> |md.labelKeys| <= |ts.labelValues|
    ensures r.Ok? ==> r.value == Properties(md.labelKeys, ts.labelValues)
  {
    var properties: map<string, string> := map[];
    var i := 0;
    while i < |md.labelKeys|
      invariant 0 <= i <= |md.labelKeys|
      invariant i <= |ts.labelValues|
      invariant properties == Properties(md.labelKeys[..i], ts.labelValues)
    {
      if i >= |ts.labelValues| {
        return Err(IndexError);
      }
      var value: string;
      if ts.labelValues[i].value.None? {
        value := NullLabel;
      } else {
        value := ts.labelValues[i].value.value;
      }
      assert md.labelKeys[..i + 1][..i] == md.labelKeys[..i];
      properties := properties[md.labelKeys[i].key := value];
      i := i + 1;
    }
    assert md.labelKeys[..i] == md.labelKeys;
    return Ok(properties);
  }

  /** A series the converter can handle without an index error. */
  predicate SeriesConvertible(md: MetricDescriptor, ts: TimeSeries)
  {
    |ts.points| > 0 && |md.labelKeys| <= |ts.labelValues|
  }

  /** The envelope of one series: its first point's value and recording time,
      and the properties paired from the descriptor's keys and the series' values. */
  function SeriesEnvelope(cfg: EnvelopeConfig, md: MetricDescriptor, ts: TimeSeries): Envelope
    requires SeriesConvertible(md, ts)
  {
    CreateEnvelope(cfg, DataPoint(md.name, md.name, ts.points[0].value), ts.points[0].timestamp,
                   Properties(md.labelKeys, ts.labelValues))
  }

  /** The envelopes of the given series, one per series, in order. */
  function SeriesEnvelopes(cfg: EnvelopeConfig, md: MetricDescriptor, series: seq<TimeSeries>): seq<Envelope>
    requires forall i | 0 <= i < |series| :: SeriesConvertible(md, series[i])
    decreases |series|
  {
    if series == [] then []
    else
      var n := |series| - 1;
      SeriesEnvelopes(cfg, md, series[..n]) + [SeriesEnvelope(cfg, md, series[n])]
  }

  /** The envelopes of one metric, as a value. */
  function Envelopes(cfg: EnvelopeConfig, m: Metric): Result<seq<Envelope>, ConvertError>
  {
    var md, series := m.descriptor, m.timeSeries;
    if md.kind == CumulativeDistribution then Ok([])
    else if forall i | 0 <= i < |series| :: SeriesConvertible(md, series[i]) then
      Ok(SeriesEnvelopes(cfg, md, series))
    else Err(IndexError)
  }

  /** Histograms give no envelope; any other metric gives one envelope per
      series, in series order, unless some series cannot be converted. */
  method MetricToEnvelopes(cfg: EnvelopeConfig, m: Metric) returns (r: Result<seq<Envelope>, ConvertError>)
    ensures r == Envelopes(cfg, m)
    ensures m.descriptor.kind == CumulativeDistribution ==> r == Ok([])
    ensures r.Ok? <==> m.descriptor.kind == CumulativeDistribution ||
                       forall i | 0 <= i < |m.timeSeries| :: SeriesConvertible(m.descriptor, m.timeSeries[i])
    ensures r.Ok? && m.descriptor.kind != CumulativeDistribution ==>
              && |r.value| == |m.timeSeries|
              && forall i | 0 <= i < |m.timeSeries| :: r.value[i] == SeriesEnvelope(cfg, m.descriptor, m.timeSeries[i])
  {
    var envelopes: seq<Envelope> := [];
    if m.descriptor.kind != CumulativeDistribution {
      var md := m.descriptor;
      var i := 0;
      while i < |m.timeSeries|
        invariant 0 <= i <= |m.timeSeries|
        invariant forall j | 0 <= j < i :: SeriesConvertible(md, m.timeSeries[j])
        invariant envelopes == SeriesEnvelopes(cfg, md, m.timeSeries[..i])
      {
        var ts := m.timeSeries[i];
        var dataPoints := CreateDataPoints(ts, md);
        if |dataPoints| == 0 {
          return Err(IndexError);
        }
        var timestamp := ts.points[0].timestamp;
        var properties := CreateProperties(ts, md);
        if properties.Err? {
          return Err(IndexError);
        }
        assert m.timeSeries[..i + 1][..i] == m.timeSeries[..i];
        envelopes := envelopes + [CreateEnvelope(cfg, dataPoints[0], timestamp, properties.value)];
        i := i + 1;
      }
      assert m.timeSeries[..i] == m.timeSeries;
      SeriesEnvelopesAt(cfg, md, m.timeSeries);
    }
    return Ok(envelopes);
  }

  /** One envelope per series, the i-th from the i-th series. */
  lemma {:induction false} SeriesEnvelopesAt(cfg: EnvelopeConfig, md: MetricDescriptor, series: seq<TimeSeries>)
    requires forall i | 0 <= i < |series| :: SeriesConvertible(md, series[i])
    ensures |SeriesEnvelopes(cfg, md, series)| == |series|
    ensures forall i | 0 <= i < |series| :: SeriesEnvelopes(cfg, md, series)[i] == SeriesEnvelope(cfg, md, series[i])
    decreases |series|
  {
    if series != [] {
      var n := |series| - 1;
      SeriesEnvelopesAt(cfg, md, series[..n]);
    }
  }

  /** What each envelope of a converted metric holds. */
  lemma EnvelopeContents(cfg: EnvelopeConfig, m: Metric, i: nat)
    requires Envelopes(cfg, m).Ok?
    requires m.descriptor.kind != CumulativeDistribution
    requires i < |m.timeSeries|
    ensures |m.timeSeries[i].points| > 0
    ensures |Envelopes(cfg, m).value| == |m.timeSeries|
    ensures var e, md, ts := Envelopes(cfg, m).value[i], m.descriptor, m.timeSeries[i];
            && e.iKey == cfg.instrumentationKey
            && (e.name == "Statsbeat" <==> cfg.isStats)
            && (!cfg.isStats ==> e.name == "Microsoft.ApplicationInsights.Metric")
            && e.time == ts.points[0].timestamp
            && e.data.baseType == "MetricData"
            && e.data.baseData.metrics == [DataPoint(md.name, md.name, ts.points[0].value)]
            && e.data.baseData.properties == Properties(md.labelKeys, ts.labelValues)
  {
    SeriesEnvelopesAt(cfg, m.descriptor, m.timeSeries);
    assert StatsbeatName[0] != MetricEnvelopeName[0];
  }
}
