# pgq_prometheus core, modelled in Dafny

pgq_prometheus exports statistics of PgQ queues (PostgreSQL's queueing
extension) to Prometheus. It has three parts, and this project models each:

- **The metric registry** (`Config`). This is a process-wide hash from a metric
  name to a definition. A definition holds:
  - an observer class: counter, gauge, histogram or summary;
  - help text, constructor arguments and static labels;
  - a source: a queue row, a consumer row, or nothing ("custom");
  - a derivation that computes the value.

  Registration rejects a duplicate name, an unknown `:from`, and a custom
  metric without `:apply`. When a queue or consumer metric has no `:apply`,
  its value is the row's column named `:column`, which defaults to the metric's
  name. Loading the configuration sets the type tag `pgq` and registers three
  gauges: `new_events`, `events_per_second` and `pending_events`.
- **The sampling step** (`Processor#collect`). For each queue row, in order, it
  does two things. First, it emits one event per queue metric. Then it emits
  one event per consumer metric for each consumer row of that queue. After the
  last queue it evaluates each custom metric once. Every event is the
  hash `{type, <name> => value, metric_labels}`. Its labels merge, from lowest
  to highest precedence:
  1. the labels a custom derivation returns;
  2. the definition's own labels;
  3. `queue` and `consumer`;
  4. the processor's own labels.
- **The exporter-side aggregator** (`Collector`). It keeps one observer per
  registry entry, named `<type>_<name>`, and a buffer of stamped events.
  - `collect` stamps an event with the clock, drops buffered events older than
    30 clock units, and appends the new one.
  - `metrics` returns nothing when the buffer is empty. Otherwise it resets
    every observer and replays the whole buffer. Each event feeds every
    observer whose metric it carries a truthy value for, under the event's
    gathered labels. Custom labels override metric labels, and every label is
    turned into a string. It returns the observers that were fed, in the order
    they were first fed.

Files:

- `data.dfy` (module `Data`): Ruby values, truthiness, rows, labels and the
  metric event.
- `config.dfy` (module `Config`):
  - the registry as a class with fields `typeTag`, `order` and `defs`;
  - the function `Define`, which gives what one registration stores or raises.
- `sampling.dfy` (module `Sampling`):
  - the specification function `Sample` of one tick;
  - the `Processor` class, whose `Collect` runs the source's nested loops and
    is proved equal to `Sample`.
- `sampling_props.dfy` (module `SamplingProperties`):
  - how many events each metric gets per tick;
  - the layout of a tick's events;
  - the tick of the default registry.
- `aggregation.dfy` (module `Aggregation`):
  - the `Collector` class and its buffer eviction;
  - the replay into observers, and which observers are returned.
- `aggregation_props.dfy` (module `AggregationProperties`): the four-event
  scenario of the collector's test, worked through the model.

Ruby hashes keep insertion order, and the model shows it. The registry
pairs its definition map with a sequence of names in insertion order, and
`metrics` returns its observers in the order they were first touched.
The database is replaced by its answers. `Collect` receives the queue rows,
plus a function from a queue name to that queue's consumer rows, and it returns
the queue names it asked that function about. The monotonic clock becomes the
`now` parameter of `Collector.Collect`.

`metrics` replays the whole buffer as it stands (lib/pgq_prometheus/collector.rb:27-47);
buffered events are evicted only by `collect` (lib/pgq_prometheus/collector.rb:53). An
event older than 30 clock units therefore still reaches the observers when no
`collect` has happened since it aged. `Collector.Metrics` replays `data` as it
stands, and `KeepFresh` applies only in `Collector.Collect`.

## Model

| member | source | states |
|---|---|---|
| `Data.Truthy` | lib/pgq_prometheus/collector.rb:39 | Ruby's `if value`: every value except `nil` and `false` is truthy, including 0 and the empty string. |
| `Data.ToS` | lib/pgq_prometheus/collector.rb:65 | Ruby's `to_s` on a label value: nil gives the empty string, booleans `true`/`false`, integers their decimal digits with a leading `-` when negative, strings themselves. |
| `Config.Define` | lib/pgq_prometheus/config.rb:18-50 | The result is an error in the source's order of checks: a missing metric class, then an existing name, then a `:from` outside queue/consumer/nil, then a custom metric with no `:apply`. It succeeds exactly when none applies. A success keeps the class, the help, `labels` (default `{}`) and `metric_args` (default `[]`). The source uses the given `:apply`, else a lookup of `:column` (default the name) in the queue or consumer row. |
| `Config.WithBuckets` | lib/pgq_prometheus/config.rb:79-80 | `metric_args` is kept when it is given, and otherwise becomes `[buckets: <the :buckets option>]`. Every other option is unchanged. |
| `Config.WithQuantiles` | lib/pgq_prometheus/config.rb:89-90 | `metric_args` is kept when it is given, and otherwise becomes `[quantiles: <the :quantiles option>]`. Every other option is unchanged. |
| `Config.Without` | lib/pgq_prometheus/config.rb:55 | Deleting a key from the ordered hash removes exactly that name. It keeps distinctness, leaves the order unchanged when the name is absent, and shortens the order by one when the name is present. |
| `Config.DefaultNewEvents` | lib/pgq_prometheus/config.rb:97-98 | Registering `new_events` as the configuration does gives a plain gauge. Its value is the `ev_new` column of the queue row. |
| `Config.DefaultEventsPerSecond` | lib/pgq_prometheus/config.rb:100-102 | Registering `events_per_second` gives a plain gauge. Its value is `ev_per_sec` of the queue row, or 0 when that column is nil or false. |
| `Config.DefaultPendingEvents` | lib/pgq_prometheus/config.rb:104-105 | Registering `pending_events` gives a plain gauge. Its value is the `pending_events` column of the consumer row. |
| `Config.Registry.constructor` | lib/pgq_prometheus/config.rb:94-105 | After loading, the type is `pgq`. The registry holds exactly `new_events`, `events_per_second` and `pending_events`, in that order, with the derivations above. |
| `Config.Registry.RegisterMetric` | lib/pgq_prometheus/config.rb:18-51 | The result is `Define` applied to the names defined before the call. On success exactly one entry is added, at the end of the order. On error the registry is unchanged. The names stay distinct and match the keys. |
| `Config.Registry.UnregisterMetric` | lib/pgq_prometheus/config.rb:54-56 | Removes that name's entry if present and nothing else. Returns the removed definition, or none. |
| `Config.Registry.RegisterCounter` | lib/pgq_prometheus/config.rb:62-64 | A registration with the counter class. |
| `Config.Registry.RegisterGauge` | lib/pgq_prometheus/config.rb:70-72 | A registration with the gauge class. |
| `Config.Registry.RegisterHistogram` | lib/pgq_prometheus/config.rb:78-82 | A registration with the histogram class. On success the stored `metric_args` are the given ones, else `[buckets: ...]`. |
| `Config.Registry.RegisterSummary` | lib/pgq_prometheus/config.rb:88-92 | A registration with the summary class. On success the stored `metric_args` are the given ones, else `[quantiles: ...]`. |
| `Sampling.Select` | lib/pgq_prometheus/processor.rb:119-129 | A name is selected exactly when it is registered with a source of that kind. |
| `Sampling.QueueMetrics` | lib/pgq_prometheus/processor.rb:119-121 | A name is selected exactly when it is registered with `from: :queue`. |
| `Sampling.ConsumerMetrics` | lib/pgq_prometheus/processor.rb:123-125 | A name is selected exactly when it is registered with `from: :consumer`. |
| `Sampling.CustomMetrics` | lib/pgq_prometheus/processor.rb:127-129 | A name is selected exactly when it is registered with no `:from`. |
| `Sampling.FormatMetric` | lib/pgq_prometheus/processor.rb:131-137 | The event carries the type tag and exactly one name-value pair. Its labels are the union of the metric's and the processor's, and the processor's win on a clash. |
| `Sampling.QueueEvent` | lib/pgq_prometheus/processor.rb:88-90 | The event of one queue metric on one queue row; its value and labels are stated by `Sampling.QueueEventShape`. |
| `Sampling.ConsumerEvent` | lib/pgq_prometheus/processor.rb:97-99 | The event of one consumer metric on one consumer row; its value and labels are stated by `Sampling.ConsumerEventShape`. |
| `Sampling.CustomEvent` | lib/pgq_prometheus/processor.rb:105-107 | The event of one custom metric, its derivation called once; its value and labels are stated by `Sampling.CustomEventShape`. |
| `Sampling.QueueEventShape` | lib/pgq_prometheus/processor.rb:87-90 | A queue event holds the derivation's value on the queue row. Its labels are the definition's labels plus `queue`, plus the processor's. Precedence from highest: processor, then `queue`, then definition. |
| `Sampling.ConsumerEventShape` | lib/pgq_prometheus/processor.rb:96-99 | A consumer event holds the derivation's value on the consumer and queue rows. Its labels add `queue` and `consumer`, which override the definition's labels. The processor's labels override everything. |
| `Sampling.CustomEventShape` | lib/pgq_prometheus/processor.rb:104-107 | A custom event holds the value the derivation returns. Its labels are those the derivation returns (none if nil), overridden by the definition's labels, which the processor's labels override in turn. |
| `Sampling.QueueEvents` | lib/pgq_prometheus/processor.rb:87-91 | One event per queue metric. |
| `Sampling.ConsumerEvents` | lib/pgq_prometheus/processor.rb:96-100 | One event per consumer metric. |
| `Sampling.CustomEvents` | lib/pgq_prometheus/processor.rb:104-108 | One event per custom metric. |
| `Sampling.ConsumerRowsSize` | lib/pgq_prometheus/processor.rb:93-101 | The consumer rows of a queue contribute (number of rows) × (number of consumer metrics) events. |
| `Sampling.AllQueuesSize` | lib/pgq_prometheus/processor.rb:84-102 | The queue loop emits (queues × queue metrics) + (consumer rows of all queues × consumer metrics) events. |
| `Sampling.SampleSize` | lib/pgq_prometheus/processor.rb:82-111 | One tick emits (queues × queue metrics) + (consumer rows × consumer metrics) + (custom metrics) events. |
| `Sampling.Sample` | lib/pgq_prometheus/processor.rb:82-111 | The events of one tick: every queue row in order, then the custom metrics. `Sampling.Processor.Collect` is proved equal to it; its count, per-metric counts and layout are stated by `Sampling.SampleSize`, `SamplingProperties.EventsPerMetric` and `SamplingProperties.SampleLayout`. |
| `Sampling.Processor.constructor` | lib/pgq_prometheus/processor.rb:78-80 | The processor's labels are the given labels, or `{}` when nil. |
| `Sampling.Processor.Collect` | lib/pgq_prometheus/processor.rb:82-111 | The nested loops return exactly `Sample` of the registry and the rows. `consumer_info` is asked once per queue row, in order, with that row's `queue_name`. |
| `Sampling.Processor.CollectQueueMetrics` | lib/pgq_prometheus/processor.rb:87-91 | The loop over queue metrics for one queue row yields `QueueEvents` for that row. |
| `Sampling.Processor.CollectConsumerRows` | lib/pgq_prometheus/processor.rb:93-101 | The loop over a queue's consumer rows yields that queue's consumer-metric events, row by row. |
| `Sampling.Processor.CollectConsumerMetrics` | lib/pgq_prometheus/processor.rb:96-100 | The loop over consumer metrics for one consumer row yields `ConsumerEvents` for that row. |
| `Sampling.Processor.CollectCustomMetrics` | lib/pgq_prometheus/processor.rb:104-108 | The loop over custom metrics yields `CustomEvents`, calling each derivation once. |
| `SamplingProperties.SelectDistinct` | lib/pgq_prometheus/processor.rb:119-129 | Selecting from a hash never repeats a name. |
| `SamplingProperties.QueueEventsAt` | lib/pgq_prometheus/processor.rb:87-91 | The k-th queue-metric event of a row is the event of the k-th queue metric. |
| `SamplingProperties.ConsumerEventsAt` | lib/pgq_prometheus/processor.rb:96-100 | The k-th consumer-metric event of a consumer row is the event of the k-th consumer metric. |
| `SamplingProperties.CustomEventsAt` | lib/pgq_prometheus/processor.rb:104-108 | The k-th custom event is the event of the k-th custom metric. |
| `SamplingProperties.QueueEventsCount` | lib/pgq_prometheus/processor.rb:87-91 | For one queue row, each queue metric gets exactly one event and any other name gets none. |
| `SamplingProperties.ConsumerEventsCount` | lib/pgq_prometheus/processor.rb:96-100 | For one consumer row, each consumer metric gets exactly one event and any other name gets none. |
| `SamplingProperties.CustomEventsCount` | lib/pgq_prometheus/processor.rb:104-108 | Each custom metric gets exactly one event per tick, and any other name gets none. |
| `SamplingProperties.ConsumerRowsCount` | lib/pgq_prometheus/processor.rb:93-101 | Over a queue's consumer rows, a consumer metric gets one event per row. No other name gets any. |
| `SamplingProperties.QueueRowCount` | lib/pgq_prometheus/processor.rb:84-101 | Per queue row: one event for each queue metric, one per consumer row for each consumer metric, none for other names. |
| `SamplingProperties.AllQueuesCount` | lib/pgq_prometheus/processor.rb:84-102 | Over all queue rows, a queue metric gets one event per queue. A consumer metric gets one per consumer row. A custom or unknown name gets none. |
| `SamplingProperties.EventsPerMetric` | lib/pgq_prometheus/processor.rb:82-111 | In one tick, an unregistered name gets no event. A queue metric gets one event per queue row, a consumer metric one per consumer row of every queue, and a custom metric exactly one. |
| `SamplingProperties.AllQueuesAppend` | lib/pgq_prometheus/processor.rb:84-102 | The queue loop is compositional: the events of `a + b` are those of `a` followed by those of `b`. |
| `SamplingProperties.AllQueuesOne` | lib/pgq_prometheus/processor.rb:84-102 | The loop over one queue row yields exactly that row's events. |
| `SamplingProperties.SampleLayout` | lib/pgq_prometheus/processor.rb:82-111 | The events of queue row i come after those of all earlier rows and before those of later rows. The custom events come last. |
| `SamplingProperties.DefaultSelections` | lib/pgq_prometheus/config.rb:97-105 | With the default registry, the queue metrics are `new_events` then `events_per_second`. The only consumer metric is `pending_events`, and there are no custom metrics. |
| `SamplingProperties.SingleConsumerTick` | lib/pgq_prometheus/processor.rb:82-111 | For one queue with one consumer, a tick is: the queue events, then the consumer events, then the custom events. |
| `SamplingProperties.DefaultQueueEvents` | test/pgq_prometheus_processor_test.rb:57-58 | With the default gauges, a queue row gives `new_events = ev_new` and `events_per_second = ev_per_sec` (or 0). Both are labelled `queue` plus the processor's labels. |
| `SamplingProperties.DefaultConsumerEvents` | test/pgq_prometheus_processor_test.rb:59 | With the default gauge, a consumer row gives `pending_events`, labelled `queue`, `consumer` and the processor's labels. |
| `SamplingProperties.DefaultTick` | test/pgq_prometheus_processor_test.rb:46-82 | With the default registry, one queue and one consumer give exactly three events, in this order: `new_events`, `events_per_second`, `pending_events`. Each carries the expected value and labels, with or without processor labels. |
| `Aggregation.KeepFreshMembers` | lib/pgq_prometheus/collector.rb:53 | An entry survives exactly when `created_at + 30 >= now`. An entry exactly 30 units old stays. |
| `Aggregation.KeepFresh` | lib/pgq_prometheus/collector.rb:53 | `delete_if`: never more entries than before, and every survivor was buffered and is at most 30 units old (the converse is `Aggregation.KeepFreshMembers`). |
| `Aggregation.KeepFreshAppend` | lib/pgq_prometheus/collector.rb:53 | Eviction decides entry by entry, so the survivors keep their order. |
| `Aggregation.KeepFreshLater` | lib/pgq_prometheus/collector.rb:49-55 | Evicting at `t1` and later at `t2 >= t1` equals evicting once at `t2`. |
| `Aggregation.CollectWindow` | lib/pgq_prometheus/collector.rb:49-55 | After `collect`, the new event is last and stamped `now`. Every entry before it was already buffered and is at most 30 units old. |
| `Aggregation.GatherLabels` | lib/pgq_prometheus/collector.rb:59-66 | The label keys are those of the metric labels plus the custom labels. Custom labels win on a clash, and every value is turned into a string. |
| `Aggregation.Reset` | lib/pgq_prometheus/collector.rb:30 | `reset!` empties every series and keeps the observer's name, class, help and arguments. |
| `Aggregation.Observe` | lib/pgq_prometheus/collector.rb:40 | `observe` appends the value to the series of that label set, creating the series if needed. Every other series is unchanged. |
| `Aggregation.NewObserver` | lib/pgq_prometheus/collector.rb:19 | The observer built for a registry entry: named `<type>_<name>`, with the entry's class, help and arguments and no series; `Aggregation.Collector.constructor` states that every entry gets one. |
| `Aggregation.Feed` | lib/pgq_prometheus/collector.rb:33-44 | Replaying the buffer into one observer keeps its name, class, help and arguments and never drops a series (what it adds is `Aggregation.FeedSeries`). |
| `Aggregation.ObserveEvent` | lib/pgq_prometheus/collector.rb:36-43 | The `@observers.each` loop for one event keeps the set of observers (which one changes and how is `Aggregation.ObserveEventAt`). |
| `Aggregation.Replay` | lib/pgq_prometheus/collector.rb:33-44 | The `@data.map` loop keeps the set of observers (what each receives is `Aggregation.ReplayAt`). |
| `Aggregation.ResetAll` | lib/pgq_prometheus/collector.rb:30 | Every observer is reset, and the set of observers is the same. |
| `Aggregation.FeedSeries` | lib/pgq_prometheus/collector.rb:33-44 | Replaying the buffer into one observer adds, under each label set, exactly the truthy values of its metric from the events whose labels gather to that set, in buffer order. |
| `Aggregation.ValuesUnderHas` | lib/pgq_prometheus/collector.rb:38-41 | A buffered event with a truthy value for the metric puts that value in the series of its own label set. |
| `Aggregation.ObserveEventAt` | lib/pgq_prometheus/collector.rb:36-43 | One event changes only the observers whose metric it carries a truthy value for, each by one `observe`. |
| `Aggregation.ReplayAt` | lib/pgq_prometheus/collector.rb:33-44 | Replaying the buffer feeds each observer only its own metric's values. |
| `Aggregation.MetricsSeries` | lib/pgq_prometheus/collector.rb:27-46 | After `metrics`, an observer has a series for a label set exactly when some buffered event gives its metric a truthy value under that set. The series holds exactly those values, in buffer order. Nothing survives from before the reset. |
| `Aggregation.MetricsSeriesMap` | lib/pgq_prometheus/collector.rb:27-46 | After `metrics`, an observer's whole series map equals any map listing exactly the label sets the buffer gives its metric values under, each with those values. |
| `Aggregation.TwoLabelSetsTwoSeries` | lib/pgq_prometheus/collector.rb:33-44 | Two events of one metric whose labels gather differently become two series of the same observer, each holding its event's value. |
| `Aggregation.TouchEventFacts` | lib/pgq_prometheus/collector.rb:36-42 | One event adds to the returned keys exactly its truthy metrics. Earlier keys stay in place, and no key repeats. |
| `Aggregation.TouchEvent` | lib/pgq_prometheus/collector.rb:41 | `metrics[name] = observer` for one event: the keys already in the local hash stay in place, and only registered names are added. |
| `Aggregation.Touched` | lib/pgq_prometheus/collector.rb:31-44 | The keys of the local `metrics` hash after the replay: only registered names. |
| `Aggregation.TouchedFacts` | lib/pgq_prometheus/collector.rb:31-46 | `metrics` returns each observer at most once. It returns exactly those whose metric some buffered event carries a truthy value for. |
| `Aggregation.Project` | lib/pgq_prometheus/collector.rb:46 | `metrics.values` is the observers of the touched names, in that order. |
| `Aggregation.Collector.constructor` | lib/pgq_prometheus/collector.rb:10-21 | The buffer starts empty. There is one observer per registry entry and no other, built from that entry's class, help and arguments and named `<type>_<name>`. |
| `Aggregation.Collector.Collect` | lib/pgq_prometheus/collector.rb:49-55 | The new buffer is the old one with stale entries dropped, then the new event stamped `now`. |
| `Aggregation.Collector.Metrics` | lib/pgq_prometheus/collector.rb:27-47 | An empty buffer gives `[]` and leaves the observers untouched. Otherwise the observers become the reset observers with the buffer replayed into them. The result lists them in first-touch order. |
| `Aggregation.Collector.ObserveEventStep` | lib/pgq_prometheus/collector.rb:34-43 | The loop over observers for one event feeds each truthy metric and records the newly touched names. |
| `AggregationProperties.ValuesUnderFrom` | lib/pgq_prometheus/collector.rb:33-44 | A non-empty series implies that some buffered event carries a truthy value of the metric under exactly that label set. |
| `AggregationProperties.ScenarioLabels` | test/pgq_prometheus_collector_test.rb:18-38 | The test's four events gather to `{queue}`, to `{queue, consumer, foo}`, to no labels, and to `{bar, baz}`. |
| `AggregationProperties.ScenarioTouched` | test/pgq_prometheus_collector_test.rb:40-46 | The test's `metrics` returns the observers of `new_events`, `pending_events` and `custom`, each once, and not `events_per_second`. |
| `AggregationProperties.ScenarioNewEvents` | test/pgq_prometheus_collector_test.rb:43 | `new_events` holds 5 under `queue="q"`, and the buffer gives it values under no other label set. |
| `AggregationProperties.ScenarioPendingEvents` | test/pgq_prometheus_collector_test.rb:45 | `pending_events` holds 5 under `queue="q",consumer="c",foo="bar"`, and the buffer gives it values under no other label set. |
| `AggregationProperties.ScenarioCustom` | test/pgq_prometheus_collector_test.rb:44 | `custom` has two series: 1 with no labels, and 2 under `bar="baz",baz="boo"`. |
| `AggregationProperties.ScenarioCustomOnly` | test/pgq_prometheus_collector_test.rb:44 | The buffer gives `custom` values under no label set other than none and `bar="baz",baz="boo"`. |
| `AggregationProperties.ScenarioEventsPerSecond` | test/pgq_prometheus_collector_test.rb:42-46 | No event of the scenario gives `events_per_second` a value under any label set. |
| `AggregationProperties.ScenarioNewEventsObserver` | test/pgq_prometheus_collector_test.rb:43 | After `metrics`, the `new_events` observer's series are exactly `{queue="q"} => [5]`. |
| `AggregationProperties.ScenarioPendingEventsObserver` | test/pgq_prometheus_collector_test.rb:45 | After `metrics`, the `pending_events` observer's series are exactly `{queue="q",consumer="c",foo="bar"} => [5]`. |
| `AggregationProperties.ScenarioCustomObserver` | test/pgq_prometheus_collector_test.rb:44 | After `metrics`, the `custom` observer has exactly two series: `{} => [1]` and `{bar="baz",baz="boo"} => [2]`. |
| `AggregationProperties.ScenarioEventsPerSecondObserver` | test/pgq_prometheus_collector_test.rb:42-46 | After `metrics`, the `events_per_second` observer has no series, so it renders no line. |

## Left out

- Threads and scheduling (`start`, `stop`, `run_once`, the tick interval, logging, error callbacks) are left out: only the work of one tick is modelled.
- The ActiveRecord SQL caller and its connection scoping are left out. Its answers become inputs to `Sampling.Processor.Collect`: queue rows, and a function from a queue name to consumer rows.
- The monotonic clock becomes the integer parameter `now` of `Aggregation.Collector.Collect`. Fractional clock readings are not modelled.
- Floating-point values are not modelled. The default of `events_per_second` is `0.0` in the source and `Int(0)` here. Both are truthy, so no path differs.
- How a counter, gauge, histogram or summary folds its observed values into a number, and `metric_text`, belong to the Prometheus library. Each observer keeps the full list of values per label set instead.
- `Kernel.const_get` on the class name is left out: the observer class is a closed choice of four, so an unknown class name cannot arise.
- The arity leniency of Ruby procs is left out: the `:apply` option carries a derivation shaped for its `:from`.
- The event is a record rather than one flat hash. A metric named `type`, `metric_labels`, `custom_labels` or `created_at` would clash with those keys in the source; that clash is not modelled.
- `register_histogram` and `register_summary` write into the caller's options hash: they delete `:buckets` or `:quantiles` and, through `options[:metric_args] ||= ...` (lib/pgq_prometheus/config.rb:80, :90), store the default `metric_args` in it. The model computes new options (`WithBuckets`, `WithQuantiles`) and leaves the caller's untouched, so a second registration with the same hash behaves here as the first did.
- Symbol and string keys are identified. Names and labels are strings throughout.
- Concurrent `collect` and `metrics` calls on one collector, and concurrent registrations, are not modelled.
- Derivations (`:apply` procs and column lookups) are total, pure functions here. An `:apply` that raises (for example `q[:ev_per_sec].round` on a row without `ev_per_sec`) makes `collect` raise in the source with no events returned; `Sampling.Processor.Collect` always returns the full `Sampling.Sample`. A derivation with side effects, or one that answers differently on a second call, is not modelled either.
- `Aggregation.Collector.Collect`: the source writes `created_at` into the caller's own hash and buffers that same object, so collecting one hash twice re-stamps the entry already buffered and leaves the buffer holding the object twice. The model buffers a stamped copy (`Stamped`), so each entry keeps the stamp of its own `collect` call; aliasing between the caller's event and the buffer is not captured.
