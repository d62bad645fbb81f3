# Azure Monitor metrics exporter, modelled in Dafny

This project models the core of the OpenCensus Azure Monitor metrics exporter
(`contrib/opencensus-ext-azure/opencensus/ext/azure/metrics_exporter/__init__.py`).
The exporter does two things:

- **Conversion.** It turns each OpenCensus metric into Application Insights
  envelopes, one per time series. Histogram (cumulative distribution) metrics
  give none. Each envelope carries:
  - the value and timestamp of the series' first point;
  - a properties map that pairs the descriptor's label keys with the series'
    label values by position;
  - the instrumentation key;
  - the name "Statsbeat" or "Microsoft.ApplicationInsights.Metric";
  - the base type "MetricData".
- **The export cycle.** It gathers the envelopes of all metrics, cuts them
  into windows of at most `max_batch_size`, and sends each window, in order,
  through the telemetry processors and one transport call. A batch answered
  with Retry is put into local storage when storage is enabled. A statsbeat
  exporter answered with the statsbeat shutdown signal shuts statsbeat down
  and ends the cycle at once. When fewer than `max_batch_size` envelopes were
  gathered, the cycle ends by resending from local storage.

Files:

- `protocol.dfy` (module `Protocol`): the OpenCensus input types, the Azure
  envelope types, and the `Option`/`Result` wrappers.
- `batching.dfy` (module `Batching`): windowing into batches, proved to split
  the sequence losslessly into ceil(n / max) chunks of bounded size.
- `converter.dfy` (module `Converter`): the conversion helpers.
  - The loops of `_create_data_points`, `_create_properties` and
    `metric_to_envelopes` are methods.
  - `CreateDataPoints` states its result point by point.
  - `CreateProperties` and `MetricToEnvelopes` are proved against recursive
    specification functions (`Properties`, `SeriesEnvelopes`, `Envelopes`),
    and lemmas state what those functions guarantee.
  - An index past the end of a list (a series without points, or fewer
    label values than label keys) raises `IndexError` in the source. Here it
    is an `Err(IndexError)` result.
- `exporter.dfy` (module `Exporter`): the exporter object and the export
  cycle.
  - The `MetricsExporter` class has a trace of what the exporter did to the
    outside world: transmissions, storage puts, the statsbeat shutdown and the
    storage drain.
  - It also has a counter of the transport calls of the batch loop. The
    outcome of call number `k` is `network(k)`.
  - `ExportMetrics` is proved to append exactly the events of the pure
    function `ExportCycle`. The lemmas about `SendBatches` and `ExportCycle`
    state the batching, storage, stop and drain rules.

Two details of the code that the model keeps:

- **Label pairing.** The code pairs label values with label keys only at the
  keys' positions (`__init__.py:130-135`):
  - extra label values are ignored (`PropertiesIgnoreExtraValues`);
  - fewer values than keys raise `IndexError`.
- **Points.** A data point is built for every point of a series, but only the
  first one and its timestamp go into the envelope (`__init__.py:103-106`).

## Model

| member | source | states |
|---|---|---|
| Exporter.MetricsExporter.Create | contrib/opencensus-ext-azure/opencensus/ext/azure/metrics_exporter/__init__.py:43-48 | construction fails with the configuration error exactly when `max_batch_size <= 0`; otherwise it gives a fresh exporter with the given options, no transport calls made and an empty trace |
| Exporter.MetricsExporter.constructor | contrib/opencensus-ext-azure/opencensus/ext/azure/metrics_exporter/__init__.py:43-65 | a new exporter keeps its options and the stats flag, has made no transport call and satisfies the exporter invariant |
| Converter.CreateDataPoints | contrib/opencensus-ext-azure/opencensus/ext/azure/metrics_exporter/__init__.py:115-124 | one data point per point of the series, in order; the i-th has namespace and name equal to the descriptor name and the value of the i-th point |
| Converter.CreateProperties | contrib/opencensus-ext-azure/opencensus/ext/azure/metrics_exporter/__init__.py:126-136 | fails with an index error exactly when there are fewer label values than label keys; otherwise gives the map obtained by writing each key with its positional value in index order |
| Converter.PropertiesKeys | contrib/opencensus-ext-azure/opencensus/ext/azure/metrics_exporter/__init__.py:130-135 | the keys of the properties map are exactly the label keys' names |
| Converter.PropertiesLastWins | contrib/opencensus-ext-azure/opencensus/ext/azure/metrics_exporter/__init__.py:130-135 | for a key position not repeated later, the map holds that position's label value, or "null" when the value is None; so a later duplicate key overwrites an earlier one |
| Converter.PropertiesIgnoreExtraValues | contrib/opencensus-ext-azure/opencensus/ext/azure/metrics_exporter/__init__.py:130-135 | label values past the number of label keys do not affect the properties map |
| Converter.MetricToEnvelopes | contrib/opencensus-ext-azure/opencensus/ext/azure/metrics_exporter/__init__.py:92-113 | a histogram metric gives no envelope; any other metric succeeds exactly when every series has a point and enough label values, and then gives one envelope per series, the i-th built from the i-th series |
| Converter.SeriesEnvelopesAt | contrib/opencensus-ext-azure/opencensus/ext/azure/metrics_exporter/__init__.py:100-112 | the converted series list has as many envelopes as series, the i-th from the i-th series |
| Converter.EnvelopeContents | contrib/opencensus-ext-azure/opencensus/ext/azure/metrics_exporter/__init__.py:138-152 | each envelope of a converted metric has the exporter's instrumentation key, the name "Statsbeat" exactly for the stats exporter (otherwise "Microsoft.ApplicationInsights.Metric"), the first point's timestamp, base type "MetricData", the single data point of the first point and the positional properties map |
| Batching.WindowFlattens | contrib/opencensus-ext-azure/opencensus/ext/azure/metrics_exporter/__init__.py:72-73 | concatenating the batches gives back the gathered envelopes, in order |
| Batching.WindowSizes | contrib/opencensus-ext-azure/opencensus/ext/azure/metrics_exporter/__init__.py:72-73 | every batch has between 1 and `max_batch_size` envelopes, and every batch but the last has exactly `max_batch_size` |
| Batching.WindowCount | contrib/opencensus-ext-azure/opencensus/ext/azure/metrics_exporter/__init__.py:72-73 | there are ceil(n / max_batch_size) batches for n envelopes, and none exactly when there are no envelopes |
| Batching.WindowBounds | contrib/opencensus-ext-azure/opencensus/ext/azure/metrics_exporter/__init__.py:72-73 | q batches hold more than (q - 1) * max_batch_size and at most q * max_batch_size envelopes |
| Exporter.GatherEnvelopes | contrib/opencensus-ext-azure/opencensus/ext/azure/metrics_exporter/__init__.py:68-70 | gathering succeeds exactly when every metric converts, and then gives the concatenation of the metrics' envelopes in metric order |
| Exporter.GatherOkIff | contrib/opencensus-ext-azure/opencensus/ext/azure/metrics_exporter/__init__.py:68-70 | gathering fails exactly when some metric's conversion fails |
| Exporter.GatherAppend | contrib/opencensus-ext-azure/opencensus/ext/azure/metrics_exporter/__init__.py:68-70 | gathering two runs of metrics succeeds iff both do, and gives the first run's envelopes followed by the second's |
| Exporter.SendBatchesShape | contrib/opencensus-ext-azure/opencensus/ext/azure/metrics_exporter/__init__.py:74-85 | the batch loop makes at most one transport call per batch, one for every batch unless it stopped early, begins with a transmission and never drains storage |
| Exporter.SendBatchesInOrder | contrib/opencensus-ext-azure/opencensus/ext/azure/metrics_exporter/__init__.py:74-76 | the j-th transmission of the loop sends the processed j-th batch and gets the outcome of the j-th transport call |
| Exporter.SendBatchesStores | contrib/opencensus-ext-azure/opencensus/ext/azure/metrics_exporter/__init__.py:83-85 | every storage put follows the transmission of the same processed batch answered with Retry, uses the minimum retry interval and happens only with storage enabled; every such transmission with storage enabled is followed by its put |
| Exporter.SendBatchesStop | contrib/opencensus-ext-azure/opencensus/ext/azure/metrics_exporter/__init__.py:77-82 | the loop stops early exactly for a stats exporter some of whose calls is answered with the shutdown signal; then the last call got that signal and the last events are that transmission and the statsbeat shutdown; statsbeat is shut down exactly when the loop stopped, and not before its last event |
| Exporter.SendBatchesShutdownOnlyOnStop | contrib/opencensus-ext-azure/opencensus/ext/azure/metrics_exporter/__init__.py:78-82 | statsbeat is shut down in the loop exactly when the loop stopped early; then the exporter is the stats exporter and the shutdown occurs once, as the last event |
| Exporter.SendBatchesStopsAtFirst | contrib/opencensus-ext-azure/opencensus/ext/azure/metrics_exporter/__init__.py:77-82 | a stats exporter keeps sending only while no earlier call was answered with the shutdown signal |
| Exporter.CycleTransmitsBatchesInOrder | contrib/opencensus-ext-azure/opencensus/ext/azure/metrics_exporter/__init__.py:71-76 | a cycle transmits the windows of the gathered envelopes in order, the j-th processed and given the j-th call's outcome, all of them unless it stopped; no envelopes means no transmission and only the drain |
| Exporter.CycleStoresOnlyRetries | contrib/opencensus-ext-azure/opencensus/ext/azure/metrics_exporter/__init__.py:83-85 | over a whole cycle, storage gets exactly the processed batches whose transmission was answered with Retry, and only when local storage is enabled |
| Exporter.CycleStopsOnStatsbeatShutdown | contrib/opencensus-ext-azure/opencensus/ext/azure/metrics_exporter/__init__.py:77-82 | only the stats exporter stops early, exactly when one of the cycle's calls is answered with the shutdown signal, at the first such signal, with the statsbeat shutdown as the cycle's last event and no put or drain after it |
| Exporter.CycleShutsDownOnlyOnStop | contrib/opencensus-ext-azure/opencensus/ext/azure/metrics_exporter/__init__.py:78-82 | over a whole cycle, statsbeat is shut down exactly when the cycle stopped early, so only by the stats exporter, and then once, as the last event |
| Exporter.CycleDrainsWithHeadroom | contrib/opencensus-ext-azure/opencensus/ext/azure/metrics_exporter/__init__.py:87-90 | storage is drained exactly when the cycle did not stop early and fewer than `max_batch_size` envelopes were gathered, and the drain is the last event |
| Exporter.MetricsExporter.CycleKeepsValid | contrib/opencensus-ext-azure/opencensus/ext/azure/metrics_exporter/__init__.py:67-90 | a cycle keeps the exporter invariant: the call counter equals the transmissions in the trace, and nothing is ever stored with local storage disabled |
| Exporter.MetricsExporter.ExportMetrics | contrib/opencensus-ext-azure/opencensus/ext/azure/metrics_exporter/__init__.py:67-90 | an export fails, with nothing sent, stored or drained, exactly when some metric cannot be converted; otherwise it appends to the trace exactly the cycle over the gathered envelopes and counts its transport calls |
| Exporter.MetricsExporter.SendEnvelopes | contrib/opencensus-ext-azure/opencensus/ext/azure/metrics_exporter/__init__.py:71-90 | sending gathered envelopes appends exactly the cycle's events: the batch loop, then the drain when the loop did not stop and there was room |
| Exporter.MetricsExporter.TransmitBatches | contrib/opencensus-ext-azure/opencensus/ext/azure/metrics_exporter/__init__.py:74-85 | the loop appends exactly the batch-loop events, counts one call per transmitted batch and reports whether the statsbeat shutdown stopped it |
| Exporter.MetricsExporter.TransmitBatch | contrib/opencensus-ext-azure/opencensus/ext/azure/metrics_exporter/__init__.py:75-85 | one batch makes one transport call with the processed batch; the stats exporter answered with the shutdown signal shuts statsbeat down and stops; otherwise a Retry with storage enabled puts the processed batch into storage |

## Left out

- The exporter's `shutdown` is not modelled. It closes the exporter thread and
  the storage worker, both threads outside the export cycle.
- The `atexit` registration and `new_metrics_exporter` are not modelled. They
  set up the background thread, producers and statsbeat collection, not the
  export logic.
- `validate_instrumentation_key` is not modelled. It is a call into the shared
  utilities, and the instrumentation key is treated as given.
- The transport (`_transmit`) is a parameter: `network(k)` is the outcome of
  the k-th call. Its HTTP handling, redirects and status classification are
  not modelled.
- Local storage is a `Stored` event with the processed batch and the retry
  interval. File storage, its maintenance and retention are not modelled.
- The resend from storage (`_transmit_from_storage`) is a single
  `StorageDrained` event. What it sends is not modelled.
- The telemetry processors are an opaque function from batch to batch. Their
  filtering and the exceptions they may swallow are not modelled.
- `statsbeat.shutdown_statsbeat_metrics` is a `StatsbeatStopped` event. The
  statsbeat module is not part of this model.
- `_is_stats_exporter()` comes from the transport mixin, which is not part of
  this model. It is taken to be the `is_stats` flag given at construction.
- The batches are cut with `self.max_batch_size` (`__init__.py:73`), while the
  drain test reads `self.options.max_batch_size` (`__init__.py:89`). Both are
  `options.maxBatchSize` here: the public attribute is taken to keep the value
  it was given at construction (`__init__.py:50`).
- `common_utils.window` is taken to be chunking into consecutive windows of
  `max_batch_size`, the last one possibly shorter.
- Timestamps are copied as an opaque value; their ISO formatting is not
  modelled.
- Point values are an opaque numeric value. The int/float distinction plays
  no part in the logic.
- The envelope's context tags (`azure_monitor_context`) are not modelled.
- Python's `is` comparison against the status codes is modelled as equality
  of the status.
- Exceptions other than the `IndexError` of conversion are not modelled:
  - errors from the processors;
  - errors from the transport;
  - errors from storage.
- Exporter.MetricsExporter.ExportMetrics: requires the exporter invariant
  `Valid()`. The source has no such precondition, but every exporter built by
  `Create` or the constructor satisfies it, and every export keeps it.
