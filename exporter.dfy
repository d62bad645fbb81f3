/** The export cycle of the Azure Monitor metrics exporter: gather the
    envelopes of all metrics, cut them into batches, transmit the batches in
    order, keep retryable batches in local storage, stop at once when the
    statsbeat exporter is told to shut down, and drain local storage when the
    cycle left room. */
module Exporter {
  import opened Protocol
  import opened Converter
  import opened Batching

  /** How one transmission ended, as the transport classifies it. */
  datatype TransportStatus = Success | Retry | Drop | StatsbeatShutdown

  /** The configuration error raised at construction ("Max batch size must be at least 1."). */
  datatype ConfigError = MaxBatchSizeNotPositive

  /** The options the export cycle reads. */
  datatype Options = Options(
    instrumentationKey: string,
    maxBatchSize: int,
    enableLocalStorage: bool,
    minimumRetryInterval: int)

  /** What the exporter does to the outside world, in the order it does it. */
  datatype Event =
    | Transmitted(batch: seq<Envelope>, status: TransportStatus)  // one call of the transport
    | Stored(batch: seq<Envelope>, retryInterval: int)            // a put into local storage
    | StatsbeatStopped                                             // statsbeat metrics shut down
    | StorageDrained                                               // a resend from local storage

  /** The events of one cycle, how many transmissions it made, and whether it stopped early. */
  datatype Cycle = Cycle(events: seq<Event>, sent: nat, stopped: bool)

  // ---------------------------------------------------------------------
  // Gathering

  /** The envelopes of all metrics, concatenated in metric order. */
  function Gather(cfg: EnvelopeConfig, metrics: seq<Metric>): Result<seq<Envelope>, ConvertError>
    decreases |metrics|
  {
    if metrics == [] then Ok([])
    else
      var n := |metrics| - 1;
      match Gather(cfg, metrics[..n])
      case Err(e) => Err(e)
      case Ok(front) =>
        match Envelopes(cfg, metrics[n])
        case Err(e) => Err(e)
        case Ok(last) => Ok(front + last)
  }

  /** Gathering fails exactly when the conversion of some metric fails. */
  lemma {:induction false} GatherOkIff(cfg: EnvelopeConfig, metrics: seq<Metric>)
    ensures Gather(cfg, metrics).Ok? <==> forall i | 0 <= i < |metrics| :: Envelopes(cfg, metrics[i]).Ok?
    decreases |metrics|
  {
    if metrics != [] {
      var n := |metrics| - 1;
      GatherOkIff(cfg, metrics[..n]);
      if Gather(cfg, metrics[..n]).Err? {
        var i :| 0 <= i < n && !Envelopes(cfg, metrics[..n][i]).Ok?;
        assert metrics[..n][i] == metrics[i];
      }
    }
  }

  /** Gathering two runs of metrics gives the two runs of envelopes, one after the other. */
  lemma {:induction false} GatherAppend(cfg: EnvelopeConfig, a: seq<Metric>, b: seq<Metric>)
    ensures Gather(cfg, a + b).Ok? <==> Gather(cfg, a).Ok? && Gather(cfg, b).Ok?
    ensures Gather(cfg, a + b).Ok? ==> Gather(cfg, a + b).value == Gather(cfg, a).value + Gather(cfg, b).value
    decreases |b|
  {
    if b == [] {
      assert a + b == a;
    } else {
      var n := |b| - 1;
      assert (a + b)[..|a + b| - 1] == a + b[..n];
      assert (a + b)[|a + b| - 1] == b[n];
      GatherAppend(cfg, a, b[..n]);
      if Gather(cfg, a + b).Ok? {
        ConcatAssoc(Gather(cfg, a).value, Gather(cfg, b[..n]).value, Envelopes(cfg, b[n]).value);
      }
    }
  }

  // ---------------------------------------------------------------------
  // The batch loop

  /** The transmissions among the events, in order. */
  function Sends(events: seq<Event>): seq<Event>
  {
    if events == [] then []
    else (if events[0].Transmitted? then [events[0]] else []) + Sends(events[1..])
  }

  lemma {:induction false} SendsAppend(a: seq<Event>, b: seq<Event>)
    ensures Sends(a + b) == Sends(a) + Sends(b)
    decreases |a|
  {
    if a == [] {
      assert a + b == b;
    } else {
      assert (a + b)[0] == a[0];
      assert (a + b)[1..] == a[1..] + b;
      SendsAppend(a[1..], b);
    }
  }

  /** What the loop does for one batch that does not stop it: transmit it, and
      put it into storage when storage is enabled and the outcome is Retry. */
  function StepEvents(options: Options, batch: seq<Envelope>, status: TransportStatus): seq<Event>
  {
    if options.enableLocalStorage && status == Retry
    then [Transmitted(batch, status), Stored(batch, options.minimumRetryInterval)]
    else [Transmitted(batch, status)]
  }

  lemma SendsOfStep(options: Options, batch: seq<Envelope>, status: TransportStatus)
    ensures Sends(StepEvents(options, batch, status)) == [Transmitted(batch, status)]
  {
    var first := Transmitted(batch, status);
    if options.enableLocalStorage && status == Retry {
      var stored := Stored(batch, options.minimumRetryInterval);
      assert [stored][1..] == [];
      assert Sends([stored]) == [];
      assert [first, stored][1..] == [stored];
      assert Sends([first, stored]) == [first] + Sends([stored]);
    } else {
      assert [first][1..] == [];
    }
  }

  /** The batch loop from the transport call numbered `cursor` on: each batch
      goes through the processors and is transmitted; a statsbeat exporter told
      to shut down stops at once; a retryable batch is put into storage when
      storage is enabled. */
  function SendBatches(
    options: Options, isStats: bool, process: seq<Envelope> -> seq<Envelope>,
    network: nat -> TransportStatus, cursor: nat, batches: seq<seq<Envelope>>): Cycle
    decreases |batches|
  {
    if batches == [] then Cycle([], 0, false)
    else
      var batch := process(batches[0]);
      var status := network(cursor);
      if isStats && status == StatsbeatShutdown then
        Cycle([Transmitted(batch, status), StatsbeatStopped], 1, true)
      else
        var rest := SendBatches(options, isStats, process, network, cursor + 1, batches[1..]);
        Cycle(StepEvents(options, batch, status) + rest.events, rest.sent + 1, rest.stopped)
  }

  /** One whole export of already gathered envelopes. */
  function ExportCycle(
    options: Options, isStats: bool, process: seq<Envelope> -> seq<Envelope>,
    network: nat -> TransportStatus, cursor: nat, envelopes: seq<Envelope>): Cycle
    requires options.maxBatchSize >= 1
  {
    var c := SendBatches(options, isStats, process, network, cursor, Window(envelopes, options.maxBatchSize));
    if !c.stopped && |envelopes| < options.maxBatchSize then c.(events := c.events + [StorageDrained])
    else c
  }

  /** A batch is stored exactly when storage is enabled and its transmission
      asked for a retry: every put follows the transmission of the same batch
      with outcome Retry, and every such transmission is followed by its put. */
  ghost predicate StoresExactlyRetries(events: seq<Event>, storageEnabled: bool, retryInterval: int)
  {
    && (forall k | 0 <= k < |events| && events[k].Stored? ::
          && storageEnabled
          && 0 < k
          && events[k - 1] == Transmitted(events[k].batch, Retry)
          && events[k].retryInterval == retryInterval)
    && (forall k | 0 <= k < |events| && events[k].Transmitted? && events[k].status == Retry && storageEnabled ::
          k + 1 < |events| && events[k + 1] == Stored(events[k].batch, retryInterval))
  }

  lemma StoresConcat(head: seq<Event>, tail: seq<Event>, storageEnabled: bool, retryInterval: int)
    requires StoresExactlyRetries(head, storageEnabled, retryInterval)
    requires StoresExactlyRetries(tail, storageEnabled, retryInterval)
    requires tail != [] ==> !tail[0].Stored?
    ensures StoresExactlyRetries(head + tail, storageEnabled, retryInterval)
  {
    var all := head + tail;
    forall k | 0 <= k < |all| && all[k].Stored?
      ensures storageEnabled && 0 < k && all[k - 1] == Transmitted(all[k].batch, Retry)
      ensures all[k].retryInterval == retryInterval
    {
      if k >= |head| {
        assert all[k] == tail[k - |head|];
        assert all[k - 1] == tail[k - |head| - 1];
      }
    }
    forall k | 0 <= k < |all| && all[k].Transmitted? && all[k].status == Retry && storageEnabled
      ensures k + 1 < |all| && all[k + 1] == Stored(all[k].batch, retryInterval)
    {
      if k >= |head| {
        assert all[k] == tail[k - |head|];
        assert all[k + 1] == tail[k + 1 - |head|];
      }
    }
  }

  /** The loop makes at most one transmission per batch, one for every batch
      unless it stopped early; it starts with a transmission and never drains storage. */
  lemma {:induction false} SendBatchesShape(
    options: Options, isStats: bool, process: seq<Envelope> -> seq<Envelope>,
    network: nat -> TransportStatus, cursor: nat, batches: seq<seq<Envelope>>)
    ensures var c := SendBatches(options, isStats, process, network, cursor, batches);
            && c.sent <= |batches|
            && (!c.stopped ==> c.sent == |batches|)
            && (c.events != [] ==> c.events[0].Transmitted?)
            && StorageDrained !in c.events
    decreases |batches|
  {
    if batches != [] {
      SendBatchesShape(options, isStats, process, network, cursor + 1, batches[1..]);
    }
  }

  /** The loop transmits the processed batches in order, the j-th with the
      outcome of transport call `cursor + j`. */
  lemma {:induction false} SendBatchesInOrder(
    options: Options, isStats: bool, process: seq<Envelope> -> seq<Envelope>,
    network: nat -> TransportStatus, cursor: nat, batches: seq<seq<Envelope>>)
    ensures InOrder(process, network, cursor, batches, SendBatches(options, isStats, process, network, cursor, batches))
    decreases |batches|
  {
    if batches != [] {
      if isStats && network(cursor) == StatsbeatShutdown {
        StopSends(options, isStats, process, network, cursor, batches);
      } else {
        SendBatchesInOrder(options, isStats, process, network, cursor + 1, batches[1..]);
        InOrderStep(options, isStats, process, network, cursor, batches);
      }
    }
  }

  /** The transmissions of `c` are the processed batches in order, the j-th
      with the outcome of transport call `cursor + j`, one per counted call. */
  ghost predicate InOrder(
    process: seq<Envelope> -> seq<Envelope>, network: nat -> TransportStatus, cursor: nat,
    batches: seq<seq<Envelope>>, c: Cycle)
  {
    && c.sent <= |batches|
    && |Sends(c.events)| == c.sent
    && (forall j | 0 <= j < c.sent :: Sends(c.events)[j] == Transmitted(process(batches[j]), network(cursor + j)))
  }

  /** A batch that does not stop the loop puts its transmission in front of the later ones. */
  lemma InOrderStep(
    options: Options, isStats: bool, process: seq<Envelope> -> seq<Envelope>,
    network: nat -> TransportStatus, cursor: nat, batches: seq<seq<Envelope>>)
    requires batches != [] && !(isStats && network(cursor) == StatsbeatShutdown)
    requires InOrder(process, network, cursor + 1, batches[1..],
                     SendBatches(options, isStats, process, network, cursor + 1, batches[1..]))
    ensures InOrder(process, network, cursor, batches, SendBatches(options, isStats, process, network, cursor, batches))
  {
    var c := SendBatches(options, isStats, process, network, cursor, batches);
    var batch, status := process(batches[0]), network(cursor);
    var step := StepEvents(options, batch, status);
    var rest := SendBatches(options, isStats, process, network, cursor + 1, batches[1..]);
    assert c.events == step + rest.events && c.sent == rest.sent + 1;
    var later, all := Sends(rest.events), Sends(c.events);
    assert all == [Transmitted(batch, status)] + later by {
      SendsAppend(step, rest.events);
      SendsOfStep(options, batch, status);
    }
    ShiftSends(process, network, cursor, batches, later, all);
  }

  /** Putting the first batch's transmission in front of those of the later batches. */
  lemma ShiftSends(
    process: seq<Envelope> -> seq<Envelope>, network: nat -> TransportStatus, cursor: nat,
    batches: seq<seq<Envelope>>, later: seq<Event>, all: seq<Event>)
    requires batches != [] && |later| < |batches|
    requires all == [Transmitted(process(batches[0]), network(cursor))] + later
    requires forall j | 0 <= j < |later| :: later[j] == Transmitted(process(batches[1..][j]), network(cursor + 1 + j))
    ensures forall j | 0 <= j < |all| :: all[j] == Transmitted(process(batches[j]), network(cursor + j))
  {
    forall j | 0 < j < |all|
      ensures all[j] == Transmitted(process(batches[j]), network(cursor + j))
    {
      assert all[j] == later[j - 1];
      assert batches[1..][j - 1] == batches[j];
      assert cursor + 1 + (j - 1) == cursor + j;
    }
  }

  lemma StopSends(
    options: Options, isStats: bool, process: seq<Envelope> -> seq<Envelope>,
    network: nat -> TransportStatus, cursor: nat, batches: seq<seq<Envelope>>)
    requires batches != [] && isStats && network(cursor) == StatsbeatShutdown
    ensures var c := SendBatches(options, isStats, process, network, cursor, batches);
            c.sent == 1 && Sends(c.events) == [Transmitted(process(batches[0]), network(cursor))]
  {
    var first := Transmitted(process(batches[0]), network(cursor));
    var c := SendBatches(options, isStats, process, network, cursor, batches);
    assert c.events == [first, StatsbeatStopped];
    assert c.events[1..] == [StatsbeatStopped];
    assert Sends([StatsbeatStopped]) == [] by {
      assert [StatsbeatStopped][1..] == [];
    }
  }

  /** Every put follows the transmission of the same batch answered with
      Retry, and every such transmission is followed by its put. */
  lemma {:induction false} SendBatchesStores(
    options: Options, isStats: bool, process: seq<Envelope> -> seq<Envelope>,
    network: nat -> TransportStatus, cursor: nat, batches: seq<seq<Envelope>>)
    ensures StoresExactlyRetries(SendBatches(options, isStats, process, network, cursor, batches).events,
                                 options.enableLocalStorage, options.minimumRetryInterval)
    decreases |batches|
  {
    if batches != [] {
      var c := SendBatches(options, isStats, process, network, cursor, batches);
      var batch, status := process(batches[0]), network(cursor);
      if !(isStats && status == StatsbeatShutdown) {
        var head := StepEvents(options, batch, status);
        var rest := SendBatches(options, isStats, process, network, cursor + 1, batches[1..]);
        SendBatchesStores(options, isStats, process, network, cursor + 1, batches[1..]);
        SendBatchesShape(options, isStats, process, network, cursor + 1, batches[1..]);
        assert c.events == head + rest.events;
        StoresConcat(head, rest.events, options.enableLocalStorage, options.minimumRetryInterval);
      }
    }
  }

  /** How a cycle over `count` batches from transport call `cursor` on ends:
      it stops early exactly when the exporter is the statsbeat exporter and
      one of those calls is answered with the shutdown signal; a stopped cycle
      made at least one call, the last one answered with that signal, and
      ends with that transmission followed by the statsbeat shutdown. */
  ghost predicate StopsOnShutdown(isStats: bool, network: nat -> TransportStatus, cursor: nat, count: nat, c: Cycle)
  {
    && (c.stopped <==> isStats && exists n | cursor <= n < cursor + count :: network(n) == StatsbeatShutdown)
    && (c.stopped ==>
          && 1 <= c.sent && 2 <= |c.events|
          && network(cursor + c.sent - 1) == StatsbeatShutdown
          && c.events[|c.events| - 1] == StatsbeatStopped
          && c.events[|c.events| - 2].Transmitted?
          && c.events[|c.events| - 2].status == StatsbeatShutdown)
  }

  /** For the statsbeat exporter, no call before the last one of `c` was
      answered with the shutdown signal. */
  ghost predicate NoEarlierShutdown(isStats: bool, network: nat -> TransportStatus, cursor: nat, c: Cycle)
  {
    isStats ==> forall n | cursor <= n < cursor + c.sent - 1 :: network(n) != StatsbeatShutdown
  }

  /** A statsbeat exporter stops exactly when some transmission is answered
      with the shutdown signal; the stop is the last thing the loop does, and
      statsbeat is shut down in no other case, and only once. */
  lemma {:induction false} SendBatchesStop(
    options: Options, isStats: bool, process: seq<Envelope> -> seq<Envelope>,
    network: nat -> TransportStatus, cursor: nat, batches: seq<seq<Envelope>>)
    ensures var c := SendBatches(options, isStats, process, network, cursor, batches);
            && StopsOnShutdown(isStats, network, cursor, |batches|, c)
            && (StatsbeatStopped in c.events <==> c.stopped)
            && (c.stopped ==> StatsbeatStopped !in c.events[..|c.events| - 1])
    decreases |batches|
  {
    SendBatchesShutdownOnlyOnStop(options, isStats, process, network, cursor, batches);
    if batches != [] && !(isStats && network(cursor) == StatsbeatShutdown) {
      SendBatchesStop(options, isStats, process, network, cursor + 1, batches[1..]);
      StopStep(options, isStats, process, network, cursor, batches);
    }
  }

  /** A batch that does not stop the loop keeps the stop rule of the later batches. */
  lemma StopStep(
    options: Options, isStats: bool, process: seq<Envelope> -> seq<Envelope>,
    network: nat -> TransportStatus, cursor: nat, batches: seq<seq<Envelope>>)
    requires batches != [] && !(isStats && network(cursor) == StatsbeatShutdown)
    requires StopsOnShutdown(isStats, network, cursor + 1, |batches| - 1,
                             SendBatches(options, isStats, process, network, cursor + 1, batches[1..]))
    ensures StopsOnShutdown(isStats, network, cursor, |batches|, SendBatches(options, isStats, process, network, cursor, batches))
  {
    var c := SendBatches(options, isStats, process, network, cursor, batches);
    var head := StepEvents(options, process(batches[0]), network(cursor));
    var rest := SendBatches(options, isStats, process, network, cursor + 1, batches[1..]);
    assert c.events == head + rest.events && c.sent == rest.sent + 1 && c.stopped == rest.stopped;
    if rest.stopped {
      SameCall(network, cursor + c.sent - 1, cursor + 1 + rest.sent - 1);
      assert c.events[|c.events| - 1] == rest.events[|rest.events| - 1];
      assert c.events[|c.events| - 2] == rest.events[|rest.events| - 2];
    }
    if isStats && (exists n | cursor <= n < cursor + |batches| :: network(n) == StatsbeatShutdown) {
      var n :| cursor <= n < cursor + |batches| && network(n) == StatsbeatShutdown;
      assert n != cursor;
    }
  }

  /** Statsbeat is shut down only by a loop that stops early, so only by a
      statsbeat exporter, and only once: as the loop's very last event. */
  lemma {:induction false} SendBatchesShutdownOnlyOnStop(
    options: Options, isStats: bool, process: seq<Envelope> -> seq<Envelope>,
    network: nat -> TransportStatus, cursor: nat, batches: seq<seq<Envelope>>)
    ensures var c := SendBatches(options, isStats, process, network, cursor, batches);
            && (StatsbeatStopped in c.events <==> c.stopped)
            && (c.stopped ==> isStats && |c.events| >= 1 && StatsbeatStopped !in c.events[..|c.events| - 1])
    decreases |batches|
  {
    if batches != [] {
      var c := SendBatches(options, isStats, process, network, cursor, batches);
      var batch, status := process(batches[0]), network(cursor);
      if isStats && status == StatsbeatShutdown {
        assert c.events[..|c.events| - 1] == [Transmitted(batch, status)];
      } else {
        var head := StepEvents(options, batch, status);
        var rest := SendBatches(options, isStats, process, network, cursor + 1, batches[1..]);
        SendBatchesShutdownOnlyOnStop(options, isStats, process, network, cursor + 1, batches[1..]);
        assert StatsbeatStopped !in head;
        assert c.events == head + rest.events;
        if rest.stopped {
          assert c.events[..|c.events| - 1] == head + rest.events[..|rest.events| - 1];
        }
      }
    }
  }

  /** A statsbeat exporter stops at the first shutdown signal: none of the
      transmissions before the last one was answered with it. */
  lemma {:induction false} SendBatchesStopsAtFirst(
    options: Options, isStats: bool, process: seq<Envelope> -> seq<Envelope>,
    network: nat -> TransportStatus, cursor: nat, batches: seq<seq<Envelope>>)
    requires isStats
    ensures var c := SendBatches(options, isStats, process, network, cursor, batches);
            forall n | cursor <= n < cursor + c.sent - 1 :: network(n) != StatsbeatShutdown
    decreases |batches|
  {
    if batches != [] && network(cursor) != StatsbeatShutdown {
      SendBatchesStopsAtFirst(options, isStats, process, network, cursor + 1, batches[1..]);
    }
  }

  /** The gathered envelopes go out as the windows of at most `max_batch_size`,
      each through the processors, one transport call each, in order; all of
      them unless the cycle stopped early; no envelopes means no transmission. */
  lemma CycleTransmitsBatchesInOrder(
    options: Options, isStats: bool, process: seq<Envelope> -> seq<Envelope>,
    network: nat -> TransportStatus, cursor: nat, envelopes: seq<Envelope>)
    requires options.maxBatchSize >= 1
    ensures var batches := Window(envelopes, options.maxBatchSize);
            var c := ExportCycle(options, isStats, process, network, cursor, envelopes);
            && c.sent <= |batches|
            && (!c.stopped ==> c.sent == |batches|)
            && |Sends(c.events)| == c.sent
            && (forall j | 0 <= j < c.sent :: Sends(c.events)[j] == Transmitted(process(batches[j]), network(cursor + j)))
            && (envelopes == [] ==> c.sent == 0 && c.events == [StorageDrained])
  {
    var batches := Window(envelopes, options.maxBatchSize);
    var inner := SendBatches(options, isStats, process, network, cursor, batches);
    SendBatchesShape(options, isStats, process, network, cursor, batches);
    SendBatchesInOrder(options, isStats, process, network, cursor, batches);
    SendsAppend(inner.events, [StorageDrained]);
    assert Sends([StorageDrained]) == [];
    WindowCount(envelopes, options.maxBatchSize);
  }

  /** Storage receives the processed batch, with the minimum retry interval,
      exactly for the transmissions answered with Retry, and only when local
      storage is enabled. */
  lemma CycleStoresOnlyRetries(
    options: Options, isStats: bool, process: seq<Envelope> -> seq<Envelope>,
    network: nat -> TransportStatus, cursor: nat, envelopes: seq<Envelope>)
    requires options.maxBatchSize >= 1
    ensures StoresExactlyRetries(ExportCycle(options, isStats, process, network, cursor, envelopes).events,
                                 options.enableLocalStorage, options.minimumRetryInterval)
  {
    var inner := SendBatches(options, isStats, process, network, cursor, Window(envelopes, options.maxBatchSize));
    SendBatchesStores(options, isStats, process, network, cursor, Window(envelopes, options.maxBatchSize));
    StoresConcat(inner.events, [StorageDrained], options.enableLocalStorage, options.minimumRetryInterval);
  }

  /** Only a statsbeat exporter stops early, at the first shutdown signal: that
      transmission is the last one, nothing is stored for it, and the
      statsbeat shutdown is the last event of the cycle. */
  lemma CycleStopsOnStatsbeatShutdown(
    options: Options, isStats: bool, process: seq<Envelope> -> seq<Envelope>,
    network: nat -> TransportStatus, cursor: nat, envelopes: seq<Envelope>)
    requires options.maxBatchSize >= 1
    ensures var c := ExportCycle(options, isStats, process, network, cursor, envelopes);
            && StopsOnShutdown(isStats, network, cursor, |Window(envelopes, options.maxBatchSize)|, c)
            && NoEarlierShutdown(isStats, network, cursor, c)
  {
    var batches := Window(envelopes, options.maxBatchSize);
    var inner := SendBatches(options, isStats, process, network, cursor, batches);
    SendBatchesStop(options, isStats, process, network, cursor, batches);
    if isStats {
      SendBatchesStopsAtFirst(options, isStats, process, network, cursor, batches);
    }
    if !inner.stopped {
      DrainKeepsStop(isStats, network, cursor, |batches|, inner);
    }
  }

  /** Appending the drain to a cycle that did not stop changes nothing about its stop. */
  lemma DrainKeepsStop(isStats: bool, network: nat -> TransportStatus, cursor: nat, count: nat, c: Cycle)
    requires !c.stopped
    requires StopsOnShutdown(isStats, network, cursor, count, c)
    requires NoEarlierShutdown(isStats, network, cursor, c)
    ensures StopsOnShutdown(isStats, network, cursor, count, c.(events := c.events + [StorageDrained]))
    ensures NoEarlierShutdown(isStats, network, cursor, c.(events := c.events + [StorageDrained]))
  {
  }

  lemma SameCall(network: nat -> TransportStatus, a: nat, b: nat)
    requires a == b
    ensures network(a) == network(b)
  {
  }

  /** Statsbeat is shut down in no cycle but one that stopped early (so only
      by a statsbeat exporter), and then once, as the cycle's last event. */
  lemma CycleShutsDownOnlyOnStop(
    options: Options, isStats: bool, process: seq<Envelope> -> seq<Envelope>,
    network: nat -> TransportStatus, cursor: nat, envelopes: seq<Envelope>)
    requires options.maxBatchSize >= 1
    ensures var c := ExportCycle(options, isStats, process, network, cursor, envelopes);
            && (StatsbeatStopped in c.events <==> c.stopped)
            && (c.stopped ==> isStats && |c.events| >= 1 && StatsbeatStopped !in c.events[..|c.events| - 1])
  {
    var inner := SendBatches(options, isStats, process, network, cursor, Window(envelopes, options.maxBatchSize));
    var c := ExportCycle(options, isStats, process, network, cursor, envelopes);
    SendBatchesShutdownOnlyOnStop(options, isStats, process, network, cursor, Window(envelopes, options.maxBatchSize));
    if !inner.stopped && c.events != inner.events {
      assert c.events == inner.events + [StorageDrained];
    }
  }

  /** Storage is drained, as the very last step, exactly when the cycle did not
      stop early and fewer than `max_batch_size` envelopes were gathered. */
  lemma CycleDrainsWithHeadroom(
    options: Options, isStats: bool, process: seq<Envelope> -> seq<Envelope>,
    network: nat -> TransportStatus, cursor: nat, envelopes: seq<Envelope>)
    requires options.maxBatchSize >= 1
    ensures var c := ExportCycle(options, isStats, process, network, cursor, envelopes);
            && (StorageDrained in c.events <==> !c.stopped && |envelopes| < options.maxBatchSize)
            && (StorageDrained in c.events ==> c.events[|c.events| - 1] == StorageDrained)
  {
    SendBatchesShape(options, isStats, process, network, cursor, Window(envelopes, options.maxBatchSize));
  }

  // ---------------------------------------------------------------------
  // The exporter object

  class MetricsExporter {
    const options: Options
    const isStats: bool
    /** The telemetry processors, applied to each batch before it is sent. */
    const processors: seq<Envelope> -> seq<Envelope>
    /** The outcome of the transport call with the given number. */
    const network: nat -> TransportStatus
    /** How many transport calls this exporter has made. */
    var transmissions: nat
    /** Everything this exporter has done to the outside world, in order. */
    var trace: seq<Event>

    ghost predicate Valid()
      reads this
    {
      && options.maxBatchSize >= 1
      && |Sends(trace)| == transmissions
      && (!options.enableLocalStorage ==> forall k | 0 <= k < |trace| :: !trace[k].Stored?)
    }

    function Config(): EnvelopeConfig
    {
      EnvelopeConfig(options.instrumentationKey, isStats)
    }

    constructor (options: Options, isStats: bool, processors: seq<Envelope> -> seq<Envelope>, network: nat -> TransportStatus)
      requires options.maxBatchSize >= 1
      ensures Valid()
      ensures this.options == options && this.isStats == isStats
      ensures this.processors == processors && this.network == network
      ensures transmissions == 0 && trace == []
    {
      this.options := options;
      this.isStats := isStats;
      this.processors := processors;
      this.network := network;
      transmissions := 0;
      trace := [];
    }

    /** Construction: refused with a configuration error when the maximum batch size is not positive. */
    static method Create(options: Options, isStats: bool, processors: seq<Envelope> -> seq<Envelope>, network: nat -> TransportStatus)
      returns (r: Result<MetricsExporter, ConfigError>)
      ensures r.Err? <==> options.maxBatchSize <= 0
      ensures r.Err? ==> r.error == MaxBatchSizeNotPositive
      ensures r.Ok? ==> && fresh(r.value) && r.value.Valid()
                        && r.value.options == options && r.value.isStats == isStats
                        && r.value.processors == processors && r.value.network == network
                        && r.value.transmissions == 0 && r.value.trace == []
    {
      if options.maxBatchSize <= 0 {
        return Err(MaxBatchSizeNotPositive);
      }
      var exporter := new MetricsExporter(options, isStats, processors, network);
      return Ok(exporter);
    }

    /** A whole cycle keeps the exporter's invariant: the transport-call
        counter matches the transmissions in the trace, and nothing is ever
        stored when local storage is disabled. */
    lemma CycleKeepsValid(oldTrace: seq<Event>, oldTransmissions: nat, envelopes: seq<Envelope>)
      requires options.maxBatchSize >= 1
      requires |Sends(oldTrace)| == oldTransmissions
      requires !options.enableLocalStorage ==> forall k | 0 <= k < |oldTrace| :: !oldTrace[k].Stored?
      requires var c := ExportCycle(options, isStats, processors, network, oldTransmissions, envelopes);
               trace == oldTrace + c.events && transmissions == oldTransmissions + c.sent
      ensures Valid()
    {
      var c := ExportCycle(options, isStats, processors, network, oldTransmissions, envelopes);
      CycleTransmitsBatchesInOrder(options, isStats, processors, network, oldTransmissions, envelopes);
      CycleStoresOnlyRetries(options, isStats, processors, network, oldTransmissions, envelopes);
      SendsAppend(oldTrace, c.events);
      if !options.enableLocalStorage {
        forall k | 0 <= k < |trace|
          ensures !trace[k].Stored?
        {
          if k >= |oldTrace| {
            assert trace[k] == c.events[k - |oldTrace|];
          }
        }
      }
    }

    /** One export: convert every metric (an index error aborts before anything
        is sent), then run the batch loop and the optional drain. */
    method ExportMetrics(metrics: seq<Metric>) returns (r: Result<(), ConvertError>)
      requires Valid()
      modifies this
      ensures Valid()
      ensures r.Ok? <==> Gather(Config(), metrics).Ok?
      ensures r.Err? ==> transmissions == old(transmissions) && trace == old(trace)
      ensures r.Ok? ==>
                var c := ExportCycle(options, isStats, processors, network, old(transmissions), Gather(Config(), metrics).value);
                trace == old(trace) + c.events && transmissions == old(transmissions) + c.sent
    {
      var gathered := GatherEnvelopes(Config(), metrics);
      if gathered.Err? {
        return Err(gathered.error);
      }
      SendEnvelopes(gathered.value);
      return Ok(());
    }

    /** The part of an export after gathering: transmit the batches, then
        drain local storage when fewer than `max_batch_size` envelopes were
        gathered, unless the statsbeat shutdown ended the export. */
    method SendEnvelopes(envelopes: seq<Envelope>)
      requires Valid()
      modifies this
      ensures Valid()
      ensures var c := ExportCycle(options, isStats, processors, network, old(transmissions), envelopes);
              trace == old(trace) + c.events && transmissions == old(transmissions) + c.sent
    {
      var stopped := TransmitBatches(Window(envelopes, options.maxBatchSize));
      if !stopped && |envelopes| < options.maxBatchSize {
        trace := trace + [StorageDrained];
      }
      CycleKeepsValid(old(trace), old(transmissions), envelopes);
    }

    /** The batch loop: each batch in turn, until a statsbeat shutdown ends it. */
    method TransmitBatches(batches: seq<seq<Envelope>>) returns (stopped: bool)
      modifies this
      ensures var c := SendBatches(options, isStats, processors, network, old(transmissions), batches);
              && trace == old(trace) + c.events
              && transmissions == old(transmissions) + c.sent
              && stopped == c.stopped
    {
      ghost var startTrace := trace;
      ghost var whole := SendBatches(options, isStats, processors, network, transmissions, batches);
      ghost var done: seq<Event> := [];
      ghost var cursor: nat, remaining := transmissions, batches;
      var k := 0;
      while k < |batches|
        invariant 0 <= k <= |batches|
        invariant remaining == batches[k..]
        invariant transmissions == cursor == old(transmissions) + k
        invariant trace == startTrace + done
        invariant whole == Resume(SendBatches(options, isStats, processors, network, cursor, remaining), done, k)
      {
        assert remaining[0] == batches[k];
        var status, stop := TransmitBatch(batches[k]);
        if stop {
          LoopStops(options, isStats, processors, network, cursor, remaining, processors(batches[k]), status);
          ConcatAssoc(startTrace, done, [Transmitted(processors(batches[k]), status), StatsbeatStopped]);
          return true;
        }
        LoopAdvances(options, isStats, processors, network, cursor, remaining, processors(batches[k]), status, done, k);
        ConcatAssoc(startTrace, done, StepEvents(options, processors(batches[k]), status));
        done, cursor, remaining := done + StepEvents(options, processors(batches[k]), status), cursor + 1, remaining[1..];
        k := k + 1;
      }
      assert remaining == [];
      assert done + [] == done;
      return false;
    }

    /** One batch: through the processors, then one transport call; a
        statsbeat exporter answered with the shutdown signal shuts statsbeat
        down and reports the stop; a Retry outcome puts the processed batch
        into storage when storage is enabled. */
    method TransmitBatch(batch: seq<Envelope>) returns (status: TransportStatus, stop: bool)
      modifies this
      ensures status == network(old(transmissions))
      ensures stop <==> isStats && status == StatsbeatShutdown
      ensures transmissions == old(transmissions) + 1
      ensures trace == old(trace) + (if stop then [Transmitted(processors(batch), status), StatsbeatStopped]
                                     else StepEvents(options, processors(batch), status))
    {
      var processed := processors(batch);
      status := network(transmissions);
      transmissions := transmissions + 1;
      trace := trace + [Transmitted(processed, status)];
      if isStats && status == StatsbeatShutdown {
        trace := trace + [StatsbeatStopped];
        ConcatAssoc(old(trace), [Transmitted(processed, status)], [StatsbeatStopped]);
        return status, true;
      }
      if options.enableLocalStorage && status == Retry {
        trace := trace + [Stored(processed, options.minimumRetryInterval)];
        ConcatAssoc(old(trace), [Transmitted(processed, status)], [Stored(processed, options.minimumRetryInterval)]);
      }
      return status, false;
    }
  }

  lemma ConcatAssoc<T>(a: seq<T>, b: seq<T>, c: seq<T>)
    ensures (a + b) + c == a + (b + c)
  {
  }

  /** The whole cycle, given the events and count of the `sent` batches already
      done and the cycle over the batches that remain. */
  function Resume(rest: Cycle, done: seq<Event>, sent: nat): Cycle
  {
    Cycle(done + rest.events, sent + rest.sent, rest.stopped)
  }

  /** The loop turn for the next batch when the answer is the statsbeat shutdown signal. */
  lemma LoopStops(
    options: Options, isStats: bool, process: seq<Envelope> -> seq<Envelope>,
    network: nat -> TransportStatus, cursor: nat, remaining: seq<seq<Envelope>>,
    batch: seq<Envelope>, status: TransportStatus)
    requires |remaining| > 0 && batch == process(remaining[0]) && status == network(cursor)
    requires isStats && status == StatsbeatShutdown
    ensures SendBatches(options, isStats, process, network, cursor, remaining)
              == Cycle([Transmitted(batch, status), StatsbeatStopped], 1, true)
  {
  }

  /** The loop turn for the next batch when it does not stop the loop. */
  lemma LoopAdvances(
    options: Options, isStats: bool, process: seq<Envelope> -> seq<Envelope>,
    network: nat -> TransportStatus, cursor: nat, remaining: seq<seq<Envelope>>,
    batch: seq<Envelope>, status: TransportStatus, done: seq<Event>, sent: nat)
    requires |remaining| > 0 && batch == process(remaining[0]) && status == network(cursor)
    requires !(isStats && status == StatsbeatShutdown)
    ensures Resume(SendBatches(options, isStats, process, network, cursor, remaining), done, sent)
            == Resume(SendBatches(options, isStats, process, network, cursor + 1, remaining[1..]),
                      done + StepEvents(options, batch, status), sent + 1)
  {
    var next := SendBatches(options, isStats, process, network, cursor + 1, remaining[1..]);
    ConcatAssoc(done, StepEvents(options, batch, status), next.events);
  }

  /** The envelopes of all metrics, in metric order; an index error in any metric aborts. */
  method GatherEnvelopes(cfg: EnvelopeConfig, metrics: seq<Metric>) returns (r: Result<seq<Envelope>, ConvertError>)
    ensures r.Ok? <==> Gather(cfg, metrics).Ok?
    ensures r.Ok? ==> r.value == Gather(cfg, metrics).value
    ensures r.Ok? <==> forall i | 0 <= i < |metrics| :: Envelopes(cfg, metrics[i]).Ok?
  {
    var envelopes: seq<Envelope> := [];
    var i := 0;
    while i < |metrics|
      invariant 0 <= i <= |metrics|
      invariant Gather(cfg, metrics[..i]) == Ok(envelopes)
    {
      var converted := MetricToEnvelopes(cfg, metrics[i]);
      if converted.Err? {
        GatherOkIff(cfg, metrics);
        return Err(converted.error);
      }
      assert metrics[..i + 1][..i] == metrics[..i];
      envelopes := envelopes + converted.value;
      i := i + 1;
    }
    assert metrics[..i] == metrics;
    GatherOkIff(cfg, metrics);
    return Ok(envelopes);
  }
}
