/**
  One sampling step of the processor: queue rows and, per queue, consumer
  rows are turned into metric events by the definitions in the registry.
  The SQL caller is replaced by its answers: the list of queue rows and a
  function from a queue name to that queue's consumer rows.
 */
module Sampling {
  import opened Data
  import opened Config

  /** Which of the three `*_metric_opts` selections a definition falls in. */
  datatype SourceKind = QueueKind | ConsumerKind | CustomKind

  function KindOf(s: Source): SourceKind {
    match s
    case FromQueue(_) => QueueKind
    case FromConsumer(_) => ConsumerKind
    case Custom(_) => CustomKind
  }

  function QueueName(q: Row): Value {
    Lookup(q, "queue_name")
  }

  function ConsumerName(c: Row): Value {
    Lookup(c, "consumer_name")
  }

  /**
    `queue_metric_opts`, `consumer_metric_opts` and `custom_metric_opts`:
    the names of the definitions of one source, in registry order.
   */
  function Select(order: seq<string>, defs: map<string, Definition>, k: SourceKind): (r: seq<string>)
    requires forall n :: n in order ==> n in defs
    ensures forall n :: n in r <==> n in order && KindOf(defs[n].source) == k
    decreases |order|
  {
    if order == [] then []
    else
      var rest := Select(order[1..], defs, k);
      if KindOf(defs[order[0]].source) == k then
        [order[0]] + rest
      else rest
  }

  function QueueMetrics(s: Snapshot): (r: seq<string>)
    requires s.Valid()
    ensures forall n :: n in r <==> n in s.defs && s.defs[n].source.FromQueue?
  {
    Select(s.order, s.defs, QueueKind)
  }

  function ConsumerMetrics(s: Snapshot): (r: seq<string>)
    requires s.Valid()
    ensures forall n :: n in r <==> n in s.defs && s.defs[n].source.FromConsumer?
  {
    Select(s.order, s.defs, ConsumerKind)
  }

  function CustomMetrics(s: Snapshot): (r: seq<string>)
    requires s.Valid()
    ensures forall n :: n in r <==> n in s.defs && s.defs[n].source.Custom?
  {
    Select(s.order, s.defs, CustomKind)
  }

  /**
    `format_metric`: an event tagged with the type, carrying exactly one
    name-value pair; the processor's own labels win over the metric's.
   */
  function FormatMetric(typeTag: string, name: string, value: Value, labels: Labels, instance: Labels): (e: Event)
    ensures e.typeTag == typeTag
    ensures e.values.Keys == {name} && e.values[name] == value
    ensures e.customLabels == map[]
    ensures e.metricLabels.Keys == labels.Keys + instance.Keys
    ensures forall k :: k in instance ==> e.metricLabels[k] == instance[k]
    ensures forall k :: k in labels && k !in instance ==> e.metricLabels[k] == labels[k]
  {
    Event(typeTag, map[name := value], labels + instance, map[])
  }

  /** The event of queue metric `name` for queue row `q`. */
  function QueueEvent(typeTag: string, name: string, d: Definition, instance: Labels, q: Row): Event
    requires d.source.FromQueue?
  {
    FormatMetric(typeTag, name, d.source.ofQueue(q), d.labels + map["queue" := QueueName(q)], instance)
  }

  /**
    A queue event carries the derivation's value on the row, and is labelled
    with the definition's labels and `queue`; the processor's labels win,
    then `queue`, then the definition's own.
   */
  lemma QueueEventShape(typeTag: string, name: string, d: Definition, instance: Labels, q: Row)
    requires d.source.FromQueue?
    ensures var e := QueueEvent(typeTag, name, d, instance, q);
      && e.typeTag == typeTag
      && e.values.Keys == {name} && e.values[name] == d.source.ofQueue(q)
      && e.metricLabels.Keys == d.labels.Keys + {"queue"} + instance.Keys
      && ("queue" !in instance ==> e.metricLabels["queue"] == QueueName(q))
      && (forall k :: k in d.labels && k != "queue" && k !in instance ==> e.metricLabels[k] == d.labels[k])
      && (forall k :: k in instance ==> e.metricLabels[k] == instance[k])
  {
  }

  /** The event of consumer metric `name` for consumer row `c` of queue row `q`. */
  function ConsumerEvent(typeTag: string, name: string, d: Definition, instance: Labels, c: Row, q: Row): Event
    requires d.source.FromConsumer?
  {
    FormatMetric(typeTag, name, d.source.ofConsumer(c, q),
      d.labels + map["queue" := QueueName(q), "consumer" := ConsumerName(c)], instance)
  }

  /**
    A consumer event carries the derivation's value on both rows, and is
    labelled with `queue` and `consumer`, which override the definition's
    labels of the same name; the processor's labels win over both.
   */
  lemma ConsumerEventShape(typeTag: string, name: string, d: Definition, instance: Labels, c: Row, q: Row)
    requires d.source.FromConsumer?
    ensures var e := ConsumerEvent(typeTag, name, d, instance, c, q);
      && e.typeTag == typeTag
      && e.values.Keys == {name} && e.values[name] == d.source.ofConsumer(c, q)
      && e.metricLabels.Keys == d.labels.Keys + {"queue", "consumer"} + instance.Keys
      && ("queue" !in instance ==> e.metricLabels["queue"] == QueueName(q))
      && ("consumer" !in instance ==> e.metricLabels["consumer"] == ConsumerName(c))
      && (forall k :: k in d.labels && k != "queue" && k != "consumer" && k !in instance ==> e.metricLabels[k] == d.labels[k])
      && (forall k :: k in instance ==> e.metricLabels[k] == instance[k])
  {
  }

  /** The event of custom metric `name`: its derivation is called once. */
  function CustomEvent(typeTag: string, name: string, d: Definition, instance: Labels): Event
    requires d.source.Custom?
  {
    var (value, labels) := d.source.call();
    FormatMetric(typeTag, name, value, labels.GetOr(map[]) + d.labels, instance)
  }

  /**
    A custom event carries the value the derivation returns, labelled with
    the labels it returns (none when it returns nil); the definition's labels
    override those, and the processor's labels override both.
   */
  lemma CustomEventShape(typeTag: string, name: string, d: Definition, instance: Labels)
    requires d.source.Custom?
    ensures var e := CustomEvent(typeTag, name, d, instance);
      && e.typeTag == typeTag
      && e.values.Keys == {name} && e.values[name] == d.source.call().0
      && e.metricLabels.Keys == d.source.call().1.GetOr(map[]).Keys + d.labels.Keys + instance.Keys
      && (forall k :: k in d.labels && k !in instance ==> e.metricLabels[k] == d.labels[k])
      && (forall k :: k in d.source.call().1.GetOr(map[]) && k !in d.labels && k !in instance ==>
            e.metricLabels[k] == d.source.call().1.value[k])
      && (forall k :: k in instance ==> e.metricLabels[k] == instance[k])
  {
  }

  /** The events of the queue metrics `names` for queue row `q`, in order. */
  function QueueEvents(s: Snapshot, instance: Labels, names: seq<string>, q: Row): (r: seq<Event>)
    requires forall k :: 0 <= k < |names| ==> names[k] in s.defs && s.defs[names[k]].source.FromQueue?
    ensures |r| == |names|
    decreases |names|
  {
    if names == [] then []
    else
      var last := names[|names| - 1];
      QueueEvents(s, instance, names[..|names| - 1], q) + [QueueEvent(s.typeTag, last, s.defs[last], instance, q)]
  }

  /** The events of the consumer metrics `names` for consumer row `c` of queue row `q`, in order. */
  function ConsumerEvents(s: Snapshot, instance: Labels, names: seq<string>, c: Row, q: Row): (r: seq<Event>)
    requires forall k :: 0 <= k < |names| ==> names[k] in s.defs && s.defs[names[k]].source.FromConsumer?
    ensures |r| == |names|
    decreases |names|
  {
    if names == [] then []
    else
      var last := names[|names| - 1];
      ConsumerEvents(s, instance, names[..|names| - 1], c, q) + [ConsumerEvent(s.typeTag, last, s.defs[last], instance, c, q)]
  }

  /** The consumer-metric events of every consumer row in `cs` of queue row `q`. */
  function ConsumerRowsEvents(s: Snapshot, instance: Labels, names: seq<string>, cs: seq<Row>, q: Row): seq<Event>
    requires forall k :: 0 <= k < |names| ==> names[k] in s.defs && s.defs[names[k]].source.FromConsumer?
    decreases |cs|
  {
    if cs == [] then []
    else ConsumerRowsEvents(s, instance, names, cs[..|cs| - 1], q) + ConsumerEvents(s, instance, names, cs[|cs| - 1], q)
  }

  /** Each consumer row contributes one event per consumer metric. */
  lemma {:induction false} ConsumerRowsSize(s: Snapshot, instance: Labels, names: seq<string>, cs: seq<Row>, q: Row)
    requires forall k :: 0 <= k < |names| ==> names[k] in s.defs && s.defs[names[k]].source.FromConsumer?
    ensures |ConsumerRowsEvents(s, instance, names, cs, q)| == |cs| * |names|
    decreases |cs|
  {
    if cs == [] {
      assert 0 * |names| == 0;
    } else {
      ConsumerRowsSize(s, instance, names, cs[..|cs| - 1], q);
      MulStep(|cs|, |names|, |ConsumerRowsEvents(s, instance, names, cs[..|cs| - 1], q)|, |ConsumerEvents(s, instance, names, cs[|cs| - 1], q)|);
    }
  }

  lemma MulStep(n: int, a: int, prev: int, last: int)
    requires prev == (n - 1) * a && last == a
    ensures prev + last == n * a
  {
  }

  /**
    Everything one queue row contributes: its queue-metric events, then the
    consumer-metric events of each of its consumer rows.
   */
  function QueueRowEvents(s: Snapshot, instance: Labels, consumerInfo: Value -> seq<Row>, q: Row): seq<Event>
    requires s.Valid()
  {
    QueueEvents(s, instance, QueueMetrics(s), q)
      + ConsumerRowsEvents(s, instance, ConsumerMetrics(s), consumerInfo(QueueName(q)), q)
  }

  /** How many consumer rows the queues in `qs` have between them. */
  function ConsumerCount(consumerInfo: Value -> seq<Row>, qs: seq<Row>): nat
    decreases |qs|
  {
    if qs == [] then 0
    else ConsumerCount(consumerInfo, qs[..|qs| - 1]) + |consumerInfo(QueueName(qs[|qs| - 1]))|
  }

  /** The events of every queue row in `qs`, queue by queue. */
  function AllQueues(s: Snapshot, instance: Labels, consumerInfo: Value -> seq<Row>, qs: seq<Row>): seq<Event>
    requires s.Valid()
    decreases |qs|
  {
    if qs == [] then []
    else AllQueues(s, instance, consumerInfo, qs[..|qs| - 1]) + QueueRowEvents(s, instance, consumerInfo, qs[|qs| - 1])
  }

  /** The event count of `qs`: one event per queue metric per queue row, one per consumer metric per consumer row. */
  lemma {:induction false} AllQueuesSize(s: Snapshot, instance: Labels, consumerInfo: Value -> seq<Row>, qs: seq<Row>)
    requires s.Valid()
    ensures |AllQueues(s, instance, consumerInfo, qs)| == |qs| * |QueueMetrics(s)| + ConsumerCount(consumerInfo, qs) * |ConsumerMetrics(s)|
    decreases |qs|
  {
    var a, b := |QueueMetrics(s)|, |ConsumerMetrics(s)|;
    if qs == [] {
      assert 0 * a == 0 && 0 * b == 0;
    } else {
      var n := |qs|;
      AllQueuesSize(s, instance, consumerInfo, qs[..n - 1]);
      ConsumerRowsSize(s, instance, ConsumerMetrics(s), consumerInfo(QueueName(qs[n - 1])), qs[n - 1]);
      CountStep(n, a, ConsumerCount(consumerInfo, qs[..n - 1]), |consumerInfo(QueueName(qs[n - 1]))|, b,
        |AllQueues(s, instance, consumerInfo, qs[..n - 1])|, |QueueRowEvents(s, instance, consumerInfo, qs[n - 1])|,
        ConsumerCount(consumerInfo, qs));
    }
  }

  /** The arithmetic of one more queue row in the event count. */
  lemma CountStep(n: int, a: int, x: int, y: int, b: int, prev: int, row: int, count: int)
    requires prev == (n - 1) * a + x * b && row == a + y * b && count == x + y
    ensures prev + row == n * a + count * b
  {
    assert n * a == (n - 1) * a + a;
    assert (x + y) * b == x * b + y * b;
  }

  /** The events of the custom metrics `names`, each evaluated once. */
  function CustomEvents(s: Snapshot, instance: Labels, names: seq<string>): (r: seq<Event>)
    requires forall k :: 0 <= k < |names| ==> names[k] in s.defs && s.defs[names[k]].source.Custom?
    ensures |r| == |names|
    decreases |names|
  {
    if names == [] then []
    else
      var last := names[|names| - 1];
      CustomEvents(s, instance, names[..|names| - 1]) + [CustomEvent(s.typeTag, last, s.defs[last], instance)]
  }

  /** The events of one `collect` call: all queue rows, then the custom metrics once. */
  function Sample(s: Snapshot, instance: Labels, queueInfo: seq<Row>, consumerInfo: Value -> seq<Row>): seq<Event>
    requires s.Valid()
  {
    AllQueues(s, instance, consumerInfo, queueInfo) + CustomEvents(s, instance, CustomMetrics(s))
  }

  /**
    The event count of one `collect` call: Q * |queue metrics| + (consumer
    rows) * |consumer metrics| + |custom metrics|.
   */
  lemma SampleSize(s: Snapshot, instance: Labels, queueInfo: seq<Row>, consumerInfo: Value -> seq<Row>)
    requires s.Valid()
    ensures |Sample(s, instance, queueInfo, consumerInfo)|
      == |queueInfo| * |QueueMetrics(s)| + ConsumerCount(consumerInfo, queueInfo) * |ConsumerMetrics(s)| + |CustomMetrics(s)|
  {
    AllQueuesSize(s, instance, consumerInfo, queueInfo);
  }

  /** The `queue_name` of every row of `qs`, in order. */
  function QueueNames(qs: seq<Row>): (r: seq<Value>)
    ensures |r| == |qs|
    ensures forall k :: 0 <= k < |qs| ==> r[k] == QueueName(qs[k])
    decreases |qs|
  {
    if qs == [] then [] else QueueNames(qs[..|qs| - 1]) + [QueueName(qs[|qs| - 1])]
  }

  /** The instance of `PgqPrometheus::Processor` that the worker thread drives. */
  class Processor {
    /** Labels added to every event; they win over the metric's own labels. */
    const metricLabels: Labels

    /** `labels || {}`. */
    constructor (labels: Option<Labels>)
      ensures metricLabels == labels.GetOr(map[])
    {
      metricLabels := labels.GetOr(map[]);
    }

    /**
      `collect`: the events of one tick, computed by the same nested loops as
      the source. `requested` lists the arguments of the `consumer_info` calls:
      one per queue row, with that row's `queue_name`, in order.
     */
    method Collect(config: Registry, queueInfo: seq<Row>, consumerInfo: Value -> seq<Row>)
      returns (events: seq<Event>, requested: seq<Value>)
      requires config.Valid()
      ensures events == Sample(config.View(), metricLabels, queueInfo, consumerInfo)
      ensures |requested| == |queueInfo|
      ensures forall i :: 0 <= i < |queueInfo| ==> requested[i] == QueueName(queueInfo[i])
    {
      var s := config.View();
      events, requested := [], [];
      var i := 0;
      while i < |queueInfo|
        invariant 0 <= i <= |queueInfo|
        invariant events == AllQueues(s, metricLabels, consumerInfo, queueInfo[..i])
        invariant requested == QueueNames(queueInfo[..i])
      {
        var q := queueInfo[i];
        var queue := QueueName(q);
        var queueEvents := CollectQueueMetrics(s, q);

        var consumers := consumerInfo(queue);
        requested := requested + [queue];
        var consumerEvents := CollectConsumerRows(s, consumers, q);

        events := events + (queueEvents + consumerEvents);
        PrefixStep(queueInfo, i);
        i := i + 1;
      }
      assert queueInfo[..i] == queueInfo;

      var customEvents := CollectCustomMetrics(s);
      events := events + customEvents;
    }

    /** The `consumer_info(queue).each` loop of `collect`, over the consumer rows `cs` of queue row `q`. */
    method CollectConsumerRows(s: Snapshot, cs: seq<Row>, q: Row) returns (events: seq<Event>)
      requires s.Valid()
      ensures events == ConsumerRowsEvents(s, metricLabels, ConsumerMetrics(s), cs, q)
    {
      events := [];
      var k := 0;
      while k < |cs|
        invariant 0 <= k <= |cs|
        invariant events == ConsumerRowsEvents(s, metricLabels, ConsumerMetrics(s), cs[..k], q)
      {
        var rowEvents := CollectConsumerMetrics(s, cs[k], q);
        events := events + rowEvents;
        PrefixStep(cs, k);
        k := k + 1;
      }
      assert cs[..k] == cs;
    }

    /** The `custom_metric_opts.each` loop of `collect`: every custom derivation called once. */
    method CollectCustomMetrics(s: Snapshot) returns (events: seq<Event>)
      requires s.Valid()
      ensures events == CustomEvents(s, metricLabels, CustomMetrics(s))
    {
      var names := CustomMetrics(s);
      events := [];
      var j := 0;
      while j < |names|
        invariant 0 <= j <= |names|
        invariant events == CustomEvents(s, metricLabels, names[..j])
      {
        var name := names[j];
        var d := s.defs[name];
        var (value, labels) := d.source.call();
        events := events + [FormatMetric(s.typeTag, name, value, labels.GetOr(map[]) + d.labels, metricLabels)];
        PrefixStep(names, j);
        j := j + 1;
      }
      assert names[..j] == names;
    }

    /** The body of the `queue_metric_opts.each` loop of `collect`, for queue row `q`. */
    method CollectQueueMetrics(s: Snapshot, q: Row) returns (events: seq<Event>)
      requires s.Valid()
      ensures events == QueueEvents(s, metricLabels, QueueMetrics(s), q)
    {
      var queue := QueueName(q);
      var names := QueueMetrics(s);
      events := [];
      var j := 0;
      while j < |names|
        invariant 0 <= j <= |names|
        invariant events == QueueEvents(s, metricLabels, names[..j], q)
      {
        var name := names[j];
        var d := s.defs[name];
        var value := d.source.ofQueue(q);
        var labels := d.labels + map["queue" := queue];
        events := events + [FormatMetric(s.typeTag, name, value, labels, metricLabels)];
        PrefixStep(names, j);
        j := j + 1;
      }
      assert names[..j] == names;
    }

    /** The body of the `consumer_metric_opts.each` loop of `collect`, for consumer row `c` of queue row `q`. */
    method CollectConsumerMetrics(s: Snapshot, c: Row, q: Row) returns (events: seq<Event>)
      requires s.Valid()
      ensures events == ConsumerEvents(s, metricLabels, ConsumerMetrics(s), c, q)
    {
      var queue, consumer := QueueName(q), ConsumerName(c);
      var names := ConsumerMetrics(s);
      events := [];
      var m := 0;
      while m < |names|
        invariant 0 <= m <= |names|
        invariant events == ConsumerEvents(s, metricLabels, names[..m], c, q)
      {
        var name := names[m];
        var d := s.defs[name];
        var value := d.source.ofConsumer(c, q);
        var labels := d.labels + map["queue" := queue, "consumer" := consumer];
        events := events + [FormatMetric(s.typeTag, name, value, labels, metricLabels)];
        PrefixStep(names, m);
        m := m + 1;
      }
      assert names[..m] == names;
    }
  }
}
