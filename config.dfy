/**
  The metric registry: a process-wide table from metric name to metric
  definition, which the processor reads on every tick and the collector
  reads once, when it builds its observers.
 */
module Config {
  import opened Data

  /** The four observer classes a definition can name. */
  datatype Kind = Counter | Gauge | Histogram | Summary

  /** One constructor argument of an observer. */
  datatype MetricArg =
    | Buckets(buckets: Option<seq<Value>>)
    | Quantiles(quantiles: Option<seq<Value>>)
    | Arg(arg: Value)

  /**
    Where a metric's value comes from, with its derivation: a queue metric
    is called with the queue row, a consumer metric with the consumer row and
    the queue row, a custom metric with nothing and gives a value and, possibly, labels
    (`None` when it returns a bare value and the second element reads as nil).
   */
  datatype Source =
    | FromQueue(ofQueue: Row -> Value)
    | FromConsumer(ofConsumer: (Row, Row) -> Value)
    | Custom(call: () -> (Value, Option<Labels>))

  /**
    The `:from` option together with the `:apply` option of the shape that
    source calls. `Invalid` is any symbol outside `[:queue, :consumer, nil]`.
   */
  datatype From =
    | Queue(queueApply: Option<Row -> Value>)
    | Consumer(consumerApply: Option<(Row, Row) -> Value>)
    | Unset(customApply: Option<() -> (Value, Option<Labels>)>)
    | Invalid(symbol: string)

  /** The options hash of a registration call. */
  datatype Options = Options(
    from: From,
    column: Option<string>,
    labels: Option<Labels>,
    metricArgs: Option<seq<MetricArg>>,
    buckets: Option<seq<Value>>,
    quantiles: Option<seq<Value>>)

  /** A stored registry entry. */
  datatype Definition = Definition(kind: Kind, help: string, metricArgs: seq<MetricArg>, labels: Labels, source: Source)

  /** The `ArgumentError`s a registration can raise. */
  datatype ConfigError = MissingMetricClass | AlreadyDefined(name: string) | InvalidFrom | MissingApply

  datatype Result<T> = Ok(value: T) | Err(error: ConfigError)

  /** A registry's contents at one instant: type tag, names in insertion order, definitions. */
  datatype Snapshot = Snapshot(typeTag: string, order: seq<string>, defs: map<string, Definition>) {
    /** The names in `order` are exactly the keys of `defs`, each once, as in a Ruby Hash. */
    ghost predicate Valid() {
      && (forall n :: n in order <==> n in defs)
      && Distinct(order)
    }
  }

  /** An empty options hash, the default of every registration call. */
  function NoOptions(from: From): Options {
    Options(from, None, None, None, None, None)
  }

  /**
    The definition `register_metric` stores for `name`, or the error it
    raises, given the names already defined. Checks run in the source's
    order: metric class, duplicate name, `:from`, then `:apply`.
   */
  function Define(defined: set<string>, kind: Option<Kind>, name: string, help: string, opts: Options): (r: Result<Definition>)
    ensures r.Ok? <==> kind.Some? && name !in defined && !opts.from.Invalid? && opts.from != Unset(None)
    ensures kind.None? ==> r == Err(MissingMetricClass)
    ensures kind.Some? && name in defined ==> r == Err(AlreadyDefined(name))
    ensures kind.Some? && name !in defined && opts.from.Invalid? ==> r == Err(InvalidFrom)
    ensures kind.Some? && name !in defined && opts.from == Unset(None) ==> r == Err(MissingApply)
    ensures r.Ok? ==>
      && r.value.kind == kind.value
      && r.value.help == help
      && r.value.labels == opts.labels.GetOr(map[])
      && r.value.metricArgs == opts.metricArgs.GetOr([])
    ensures r.Ok? && opts.from.Queue? ==>
      && r.value.source.FromQueue?
      && (opts.from.queueApply.Some? ==> r.value.source.ofQueue == opts.from.queueApply.value)
      && (opts.from.queueApply.None? ==>
            forall q :: r.value.source.ofQueue(q) == Lookup(q, opts.column.GetOr(name)))
    ensures r.Ok? && opts.from.Consumer? ==>
      && r.value.source.FromConsumer?
      && (opts.from.consumerApply.Some? ==> r.value.source.ofConsumer == opts.from.consumerApply.value)
      && (opts.from.consumerApply.None? ==>
            forall c, q :: r.value.source.ofConsumer(c, q) == Lookup(c, opts.column.GetOr(name)))
    ensures r.Ok? && opts.from.Unset? ==> r.value.source == Custom(opts.from.customApply.value)
  {
    if kind.None? then Err(MissingMetricClass)
    else if name in defined then Err(AlreadyDefined(name))
    else
      var column := opts.column.GetOr(name);
      var source :=
        match opts.from
        case Queue(apply) =>
          Ok(FromQueue(if apply.Some? then apply.value else (q: Row) => Lookup(q, column)))
        case Consumer(apply) =>
          Ok(FromConsumer(if apply.Some? then apply.value else (c: Row, q: Row) => Lookup(c, column)))
        case Unset(apply) =>
          if apply.Some? then Ok(Custom(apply.value)) else Err(MissingApply)
        case Invalid(_) => Err(InvalidFrom);
      if source.Err? then Err(source.error)
      else Ok(Definition(kind.value, help, opts.metricArgs.GetOr([]), opts.labels.GetOr(map[]), source.value))
  }

  /** `options[:metric_args] ||= [buckets: buckets]`, without changing the caller's options. */
  function WithBuckets(opts: Options): (r: Options)
    ensures r.metricArgs.Some?
    ensures opts.metricArgs.Some? ==> r.metricArgs == opts.metricArgs
    ensures opts.metricArgs.None? ==> r.metricArgs.value == [Buckets(opts.buckets)]
    ensures r.from == opts.from && r.column == opts.column && r.labels == opts.labels
  {
    if opts.metricArgs.Some? then opts else opts.(metricArgs := Some([Buckets(opts.buckets)]))
  }

  /** `options[:metric_args] ||= [quantiles: quantiles]`, without changing the caller's options. */
  function WithQuantiles(opts: Options): (r: Options)
    ensures r.metricArgs.Some?
    ensures opts.metricArgs.Some? ==> r.metricArgs == opts.metricArgs
    ensures opts.metricArgs.None? ==> r.metricArgs.value == [Quantiles(opts.quantiles)]
    ensures r.from == opts.from && r.column == opts.column && r.labels == opts.labels
  {
    if opts.metricArgs.Some? then opts else opts.(metricArgs := Some([Quantiles(opts.quantiles)]))
  }

  /** `order` with `name` taken out, the rest in the same order. */
  function Without(order: seq<string>, name: string): (r: seq<string>)
    ensures forall n :: n in r <==> n in order && n != name
    ensures name !in order ==> r == order
    ensures Distinct(order) ==> Distinct(r)
    ensures |r| <= |order|
    ensures Distinct(order) && name in order ==> |r| == |order| - 1
    decreases |order|
  {
    if order == [] then []
    else
      var rest := Without(order[1..], name);
      if order[0] == name then rest
      else
        assert Distinct(order) ==> order[0] !in order[1..];
        [order[0]] + rest
  }

  /** A gauge with the given help and no labels or constructor arguments. */
  ghost predicate PlainGauge(d: Definition, help: string) {
    d.kind == Gauge && d.help == help && d.metricArgs == [] && d.labels == map[]
  }

  /** The default `new_events` gauge: column `ev_new` of the queue row. */
  ghost predicate NewEventsGauge(d: Definition) {
    && PlainGauge(d, "new events qty for queue")
    && d.source.FromQueue?
    && (forall q :: d.source.ofQueue(q) == Lookup(q, "ev_new"))
  }

  /** The default `events_per_second` gauge: `ev_per_sec` of the queue row, or 0 when it is nil. */
  ghost predicate EventsPerSecondGauge(d: Definition) {
    && PlainGauge(d, "new events qty for queue")
    && d.source.FromQueue?
    && (forall q :: d.source.ofQueue(q) == Or(Lookup(q, "ev_per_sec"), Int(0)))
  }

  /** The default `pending_events` gauge: column `pending_events` of the consumer row. */
  ghost predicate PendingEventsGauge(d: Definition) {
    && PlainGauge(d, "pending events qty for queue and consumer")
    && d.source.FromConsumer?
    && (forall c, q :: d.source.ofConsumer(c, q) == Lookup(c, "pending_events"))
  }

  function NewEventsOptions(): Options {
    NoOptions(Queue(None)).(column := Some("ev_new"))
  }

  function EventsPerSecondOptions(): Options {
    NoOptions(Queue(Some((q: Row) => Or(Lookup(q, "ev_per_sec"), Int(0)))))
  }

  /** Registering `new_events` as the configuration file does gives the default gauge. */
  lemma DefaultNewEvents(defined: set<string>)
    requires "new_events" !in defined
    ensures var r := Define(defined, Some(Gauge), "new_events", "new events qty for queue", NewEventsOptions());
      r.Ok? && NewEventsGauge(r.value)
  {
  }

  /** Registering `events_per_second` as the configuration file does gives the default gauge. */
  lemma DefaultEventsPerSecond(defined: set<string>)
    requires "events_per_second" !in defined
    ensures var r := Define(defined, Some(Gauge), "events_per_second", "new events qty for queue", EventsPerSecondOptions());
      r.Ok? && EventsPerSecondGauge(r.value)
  {
  }

  /** Registering `pending_events` as the configuration file does gives the default gauge. */
  lemma DefaultPendingEvents(defined: set<string>)
    requires "pending_events" !in defined
    ensures var r := Define(defined, Some(Gauge), "pending_events", "pending events qty for queue and consumer", NoOptions(Consumer(None)));
      r.Ok? && PendingEventsGauge(r.value)
  {
  }

  /** What the registry holds once the configuration file has been loaded. */
  ghost predicate IsDefault(s: Snapshot) {
    && s.typeTag == "pgq"
    && s.order == ["new_events", "events_per_second", "pending_events"]
    && s.defs.Keys == {"new_events", "events_per_second", "pending_events"}
    && NewEventsGauge(s.defs["new_events"])
    && EventsPerSecondGauge(s.defs["events_per_second"])
    && PendingEventsGauge(s.defs["pending_events"])
  }

  /** The process-wide registry: `Config.type` and `Config._metrics`. */
  class Registry {
    /** `Config.type`, the prefix of every observer name and the tag of every event. */
    var typeTag: string
    /** The keys of `_metrics` in insertion order. */
    var order: seq<string>
    /** `_metrics` itself. */
    var defs: map<string, Definition>

    function View(): (s: Snapshot)
      reads this
      ensures s.typeTag == typeTag && s.order == order && s.defs == defs
    {
      Snapshot(typeTag, order, defs)
    }

    ghost predicate Valid()
      reads this
    {
      View().Valid()
    }

    /** Loading the configuration: type `pgq` and the three default gauges. */
    constructor ()
      ensures Valid() && IsDefault(View())
    {
      typeTag := "pgq";
      order := [];
      defs := map[];
      new;
      DefaultNewEvents(defs.Keys);
      var r1 := RegisterGauge("new_events", "new events qty for queue", NewEventsOptions());
      assert order == ["new_events"] && NewEventsGauge(defs["new_events"]);
      DefaultEventsPerSecond(defs.Keys);
      var r2 := RegisterGauge("events_per_second", "new events qty for queue", EventsPerSecondOptions());
      assert order == ["new_events", "events_per_second"] && EventsPerSecondGauge(defs["events_per_second"]);
      DefaultPendingEvents(defs.Keys);
      var r3 := RegisterGauge("pending_events", "pending events qty for queue and consumer", NoOptions(Consumer(None)));
    }

    /**
      `register_metric`: on success exactly one key, `name`, is added (at the
      end of the order); on an error nothing changes.
     */
    method RegisterMetric(kind: Option<Kind>, name: string, help: string, opts: Options) returns (r: Result<Definition>)
      requires Valid()
      modifies this`order, this`defs
      ensures Valid()
      ensures r == Define(old(defs).Keys, kind, name, help, opts)
      ensures r.Ok? ==> defs == old(defs)[name := r.value] && order == old(order) + [name]
      ensures r.Err? ==> defs == old(defs) && order == old(order)
    {
      r := Define(defs.Keys, kind, name, help, opts);
      if r.Ok? {
        defs := defs[name := r.value];
        order := order + [name];
      }
    }

    /** `unregister_metric`: removes `name` if present, and nothing else. */
    method UnregisterMetric(name: string) returns (removed: Option<Definition>)
      requires Valid()
      modifies this`order, this`defs
      ensures Valid()
      ensures defs == old(defs) - {name}
      ensures order == Without(old(order), name)
      ensures removed == if name in old(defs) then Some(old(defs)[name]) else None
    {
      removed := if name in defs then Some(defs[name]) else None;
      defs := defs - {name};
      order := Without(order, name);
    }

    method RegisterCounter(name: string, help: string, opts: Options) returns (r: Result<Definition>)
      requires Valid()
      modifies this`order, this`defs
      ensures Valid()
      ensures r == Define(old(defs).Keys, Some(Counter), name, help, opts)
      ensures r.Ok? ==> defs == old(defs)[name := r.value] && order == old(order) + [name]
      ensures r.Err? ==> defs == old(defs) && order == old(order)
    {
      r := RegisterMetric(Some(Counter), name, help, opts);
    }

    method RegisterGauge(name: string, help: string, opts: Options) returns (r: Result<Definition>)
      requires Valid()
      modifies this`order, this`defs
      ensures Valid()
      ensures r == Define(old(defs).Keys, Some(Gauge), name, help, opts)
      ensures r.Ok? ==> defs == old(defs)[name := r.value] && order == old(order) + [name]
      ensures r.Err? ==> defs == old(defs) && order == old(order)
    {
      r := RegisterMetric(Some(Gauge), name, help, opts);
    }

    /** A histogram takes its `metric_args` from `:buckets` unless `:metric_args` is given. */
    method RegisterHistogram(name: string, help: string, opts: Options) returns (r: Result<Definition>)
      requires Valid()
      modifies this`order, this`defs
      ensures Valid()
      ensures r == Define(old(defs).Keys, Some(Histogram), name, help, WithBuckets(opts))
      ensures r.Ok? ==> defs == old(defs)[name := r.value] && order == old(order) + [name]
      ensures r.Ok? ==> defs[name].metricArgs == opts.metricArgs.GetOr([Buckets(opts.buckets)])
      ensures r.Err? ==> defs == old(defs) && order == old(order)
    {
      r := RegisterMetric(Some(Histogram), name, help, WithBuckets(opts));
    }

    /** A summary takes its `metric_args` from `:quantiles` unless `:metric_args` is given. */
    method RegisterSummary(name: string, help: string, opts: Options) returns (r: Result<Definition>)
      requires Valid()
      modifies this`order, this`defs
      ensures Valid()
      ensures r == Define(old(defs).Keys, Some(Summary), name, help, WithQuantiles(opts))
      ensures r.Ok? ==> defs == old(defs)[name := r.value] && order == old(order) + [name]
      ensures r.Ok? ==> defs[name].metricArgs == opts.metricArgs.GetOr([Quantiles(opts.quantiles)])
      ensures r.Err? ==> defs == old(defs) && order == old(order)
    {
      r := RegisterMetric(Some(Summary), name, help, WithQuantiles(opts));
    }
  }
}
