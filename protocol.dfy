/** Value types shared by the converter and the exporter: the OpenCensus
    metric snapshot that comes in, and the Azure Monitor envelope that goes out. */
module Protocol {

  datatype Option<+T> = None | Some(value: T)

  datatype Result<+T, +E> = Ok(value: T) | Err(error: E)

  /** The numeric value of a point (an int or a float); only copied, never inspected. */
  type Value

  /** The time a point was recorded; only copied (its ISO formatting is not modelled). */
  type Timestamp

  // ---- OpenCensus side ----

  /** The kinds of metric descriptor OpenCensus defines. */
  datatype DescriptorType =
    | GaugeInt64
    | GaugeDouble
    | GaugeDistribution
    | CumulativeInt64
    | CumulativeDouble
    | CumulativeDistribution
    | Summary

  datatype LabelKey = LabelKey(key: string)

  /** A label value; `None` stands for a label the series did not set. */
  datatype LabelValue = LabelValue(value: Option<string>)

  datatype Point = Point(value: Value, timestamp: Timestamp)

  datatype TimeSeries = TimeSeries(labelValues: seq<LabelValue>, points: seq<Point>)

  datatype MetricDescriptor = MetricDescriptor(name: string, kind: DescriptorType, labelKeys: seq<LabelKey>)

  datatype Metric = Metric(descriptor: MetricDescriptor, timeSeries: seq<TimeSeries>)

  // ---- Azure Monitor side ----

  datatype DataPoint = DataPoint(ns: string, name: string, value: Value)

  datatype MetricData = MetricData(metrics: seq<DataPoint>, properties: map<string, string>)

  datatype Data = Data(baseData: MetricData, baseType: string)

  /** One exportable record; the context tags it also carries are not modelled. */
  datatype Envelope = Envelope(iKey: string, name: string, time: Timestamp, data: Data)
}
