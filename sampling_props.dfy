/**
  What one sampling step promises about the events it produces: which
  event each metric contributes, how many events each metric contributes,
  in what order the events come, and the events of one tick with the
  default registry.
 */
module SamplingProperties {
  import opened Data
  import opened Config
  import opened Sampling

  /** How many of the events `es` carry a value for metric `n`. */
  function CountNamed(es: seq<Event>, n: string): nat
    decreases |es|
  {
    if es == [] then 0
    else CountNamed(es[..|es| - 1], n) + (if n in es[|es| - 1].values then 1 else 0)
  }

  lemma {:induction false} CountAppend(a: seq<Event>, b: seq<Event>, n: string)
    ensures CountNamed(a + b, n) == CountNamed(a, n) + CountNamed(b, n)
    decreases |b|
  {
    if b == [] {
      assert a + b == a;
    } else {
      var m := |b| - 1;
      CountAppend(a, b[..m], n);
      assert (a + b)[..|a + b| - 1] == a + b[..m];
      assert (a + b)[|a + b| - 1] == b[m];
    }
  }

  /** `es` holds one event per entry of `names`, the k-th carrying only the k-th name. */
  ghost predicate OnePerName(es: seq<Event>, names: seq<string>) {
    && |es| == |names|
    && forall k :: 0 <= k < |es| ==> es[k].values.Keys == {names[k]}
  }

  /** With distinct names, each name is carried by exactly one event, and any other name by none. */
  lemma {:induction false} CountOnePerName(es: seq<Event>, names: seq<string>, n: string)
    requires OnePerName(es, names) && Distinct(names)
    ensures CountNamed(es, n) == if n in names then 1 else 0
    decreases |es|
  {
    if es != [] {
      var m := |es| - 1;
      assert OnePerName(es[..m], names[..m]);
      CountOnePerName(es[..m], names[..m], n);
      assert names == names[..m] + [names[m]];
      assert n in es[m].values <==> n == names[m];
      if n == names[m] {
        assert n !in names[..m];
      }
    }
  }

  /** The `*_metric_opts` selections keep the registry's names distinct. */
  lemma {:induction false} SelectDistinct(order: seq<string>, defs: map<string, Definition>, k: SourceKind)
    requires forall n :: n in order ==> n in defs
    requires Distinct(order)
    ensures Distinct(Select(order, defs, k))
    decreases |order|
  {
    if order != [] {
      assert Distinct(order[1..]);
      SelectDistinct(order[1..], defs, k);
      assert order[0] !in order[1..];
    }
  }

  /** The k-th queue-metric event of a queue row is the event of the k-th queue metric. */
  lemma {:induction false} QueueEventsAt(s: Snapshot, instance: Labels, names: seq<string>, q: Row)
    requires forall k :: 0 <= k < |names| ==> names[k] in s.defs && s.defs[names[k]].source.FromQueue?
    ensures forall k :: 0 <= k < |names| ==>
      QueueEvents(s, instance, names, q)[k] == QueueEvent(s.typeTag, names[k], s.defs[names[k]], instance, q)
    decreases |names|
  {
    if names != [] {
      QueueEventsAt(s, instance, names[..|names| - 1], q);
    }
  }

  /** The k-th consumer-metric event of a consumer row is the event of the k-th consumer metric. */
  lemma {:induction false} ConsumerEventsAt(s: Snapshot, instance: Labels, names: seq<string>, c: Row, q: Row)
    requires forall k :: 0 <= k < |names| ==> names[k] in s.defs && s.defs[names[k]].source.FromConsumer?
    ensures forall k :: 0 <= k < |names| ==>
      ConsumerEvents(s, instance, names, c, q)[k] == ConsumerEvent(s.typeTag, names[k], s.defs[names[k]], instance, c, q)
    decreases |names|
  {
    if names != [] {
      ConsumerEventsAt(s, instance, names[..|names| - 1], c, q);
    }
  }

  /** The k-th custom event is the event of the k-th custom metric. */
  lemma {:induction false} CustomEventsAt(s: Snapshot, instance: Labels, names: seq<string>)
    requires forall k :: 0 <= k < |names| ==> names[k] in s.defs && s.defs[names[k]].source.Custom?
    ensures forall k :: 0 <= k < |names| ==>
      CustomEvents(s, instance, names)[k] == CustomEvent(s.typeTag, names[k], s.defs[names[k]], instance)
    decreases |names|
  {
    if names != [] {
      CustomEventsAt(s, instance, names[..|names| - 1]);
    }
  }

  /** Each queue metric gives exactly one event per queue row. */
  lemma QueueEventsCount(s: Snapshot, instance: Labels, q: Row, n: string)
    requires s.Valid()
    ensures CountNamed(QueueEvents(s, instance, QueueMetrics(s), q), n) == if n in QueueMetrics(s) then 1 else 0
  {
    var names := QueueMetrics(s);
    SelectDistinct(s.order, s.defs, QueueKind);
    QueueEventsAt(s, instance, names, q);
    CountOnePerName(QueueEvents(s, instance, names, q), names, n);
  }

  /** Each consumer metric gives exactly one event per consumer row. */
  lemma ConsumerEventsCount(s: Snapshot, instance: Labels, c: Row, q: Row, n: string)
    requires s.Valid()
    ensures CountNamed(ConsumerEvents(s, instance, ConsumerMetrics(s), c, q), n) == if n in ConsumerMetrics(s) then 1 else 0
  {
    var names := ConsumerMetrics(s);
    SelectDistinct(s.order, s.defs, ConsumerKind);
    ConsumerEventsAt(s, instance, names, c, q);
    CountOnePerName(ConsumerEvents(s, instance, names, c, q), names, n);
  }

  /** Each custom metric gives exactly one event. */
  lemma CustomEventsCount(s: Snapshot, instance: Labels, n: string)
    requires s.Valid()
    ensures CountNamed(CustomEvents(s, instance, CustomMetrics(s)), n) == if n in CustomMetrics(s) then 1 else 0
  {
    var names := CustomMetrics(s);
    SelectDistinct(s.order, s.defs, CustomKind);
    CustomEventsAt(s, instance, names);
    CountOnePerName(CustomEvents(s, instance, names), names, n);
  }

  /** Over the consumer rows `cs` of one queue, each consumer metric gives one event per row. */
  lemma {:induction false} ConsumerRowsCount(s: Snapshot, instance: Labels, cs: seq<Row>, q: Row, n: string)
    requires s.Valid()
    ensures CountNamed(ConsumerRowsEvents(s, instance, ConsumerMetrics(s), cs, q), n)
      == if n in ConsumerMetrics(s) then |cs| else 0
    decreases |cs|
  {
    if cs != [] {
      var m := |cs| - 1;
      ConsumerRowsCount(s, instance, cs[..m], q, n);
      CountAppend(ConsumerRowsEvents(s, instance, ConsumerMetrics(s), cs[..m], q),
        ConsumerEvents(s, instance, ConsumerMetrics(s), cs[m], q), n);
      ConsumerEventsCount(s, instance, cs[m], q, n);
    }
  }

  /** One queue row: one event per queue metric, one per consumer metric per consumer row of that queue. */
  lemma QueueRowCount(s: Snapshot, instance: Labels, consumerInfo: Value -> seq<Row>, q: Row, n: string)
    requires s.Valid()
    ensures CountNamed(QueueRowEvents(s, instance, consumerInfo, q), n)
      == (if n in QueueMetrics(s) then 1 else 0) + (if n in ConsumerMetrics(s) then |consumerInfo(QueueName(q))| else 0)
  {
    CountAppend(QueueEvents(s, instance, QueueMetrics(s), q),
      ConsumerRowsEvents(s, instance, ConsumerMetrics(s), consumerInfo(QueueName(q)), q), n);
    QueueEventsCount(s, instance, q, n);
    ConsumerRowsCount(s, instance, consumerInfo(QueueName(q)), q, n);
  }

  /**
    Over the queue rows `qs`, a queue metric gives one event per queue row
    and a consumer metric one event per consumer row of those queues.
   */
  lemma {:induction false} AllQueuesCount(s: Snapshot, instance: Labels, consumerInfo: Value -> seq<Row>, qs: seq<Row>, n: string)
    requires s.Valid()
    ensures CountNamed(AllQueues(s, instance, consumerInfo, qs), n)
      == (if n in QueueMetrics(s) then |qs| else 0) + (if n in ConsumerMetrics(s) then ConsumerCount(consumerInfo, qs) else 0)
    decreases |qs|
  {
    if qs != [] {
      var m := |qs| - 1;
      AllQueuesCount(s, instance, consumerInfo, qs[..m], n);
      CountAppend(AllQueues(s, instance, consumerInfo, qs[..m]), QueueRowEvents(s, instance, consumerInfo, qs[m]), n);
      QueueRowCount(s, instance, consumerInfo, qs[m], n);
    }
  }

  /**
    How many events of one tick carry metric `n`: one per queue row for a
    queue metric, one per consumer row for a consumer metric, exactly one
    for a custom metric however many queues there are, none for a name the
    registry does not hold.
   */
  lemma EventsPerMetric(s: Snapshot, instance: Labels, queueInfo: seq<Row>, consumerInfo: Value -> seq<Row>, n: string)
    requires s.Valid()
    ensures n !in s.defs ==> CountNamed(Sample(s, instance, queueInfo, consumerInfo), n) == 0
    ensures n in s.defs && s.defs[n].source.FromQueue? ==>
      CountNamed(Sample(s, instance, queueInfo, consumerInfo), n) == |queueInfo|
    ensures n in s.defs && s.defs[n].source.FromConsumer? ==>
      CountNamed(Sample(s, instance, queueInfo, consumerInfo), n) == ConsumerCount(consumerInfo, queueInfo)
    ensures n in s.defs && s.defs[n].source.Custom? ==>
      CountNamed(Sample(s, instance, queueInfo, consumerInfo), n) == 1
  {
    CountAppend(AllQueues(s, instance, consumerInfo, queueInfo), CustomEvents(s, instance, CustomMetrics(s)), n);
    AllQueuesCount(s, instance, consumerInfo, queueInfo, n);
    CustomEventsCount(s, instance, n);
  }

  /** The events of consecutive runs of queue rows are the concatenation of each run's events. */
  lemma {:induction false} AllQueuesAppend(s: Snapshot, instance: Labels, consumerInfo: Value -> seq<Row>, a: seq<Row>, b: seq<Row>)
    requires s.Valid()
    ensures AllQueues(s, instance, consumerInfo, a + b)
      == AllQueues(s, instance, consumerInfo, a) + AllQueues(s, instance, consumerInfo, b)
    decreases |b|
  {
    if b == [] {
      assert a + b == a;
    } else {
      var m := |b| - 1;
      AllQueuesAppend(s, instance, consumerInfo, a, b[..m]);
      assert (a + b)[..|a + b| - 1] == a + b[..m];
      assert (a + b)[|a + b| - 1] == b[m];
    }
  }

  lemma SplitAt<T>(s: seq<T>, i: int)
    requires 0 <= i < |s|
    ensures s == s[..i] + ([s[i]] + s[i + 1..])
  {
  }

  lemma Assoc<T>(a: seq<T>, b: seq<T>, c: seq<T>, d: seq<T>)
    ensures a + (b + c) + d == a + b + c + d
  {
  }

  /** The events of a single queue row. */
  lemma AllQueuesOne(s: Snapshot, instance: Labels, consumerInfo: Value -> seq<Row>, q: Row)
    requires s.Valid()
    ensures AllQueues(s, instance, consumerInfo, [q]) == QueueRowEvents(s, instance, consumerInfo, q)
  {
    assert [q][..0] == [];
  }

  /**
    The order of one tick's events: the i-th queue row's events (its
    queue-metric events, then the consumer events of its consumer rows)
    come right after the events of the earlier rows and right before those
    of the later rows, and the custom events come last.
   */
  lemma SampleLayout(s: Snapshot, instance: Labels, queueInfo: seq<Row>, consumerInfo: Value -> seq<Row>, i: int)
    requires s.Valid() && 0 <= i < |queueInfo|
    ensures Sample(s, instance, queueInfo, consumerInfo)
      == AllQueues(s, instance, consumerInfo, queueInfo[..i])
       + QueueRowEvents(s, instance, consumerInfo, queueInfo[i])
       + AllQueues(s, instance, consumerInfo, queueInfo[i + 1..])
       + CustomEvents(s, instance, CustomMetrics(s))
  {
    var q, rest := queueInfo[i], queueInfo[i + 1..];
    SplitAt(queueInfo, i);
    AllQueuesAppend(s, instance, consumerInfo, queueInfo[..i], [q] + rest);
    AllQueuesAppend(s, instance, consumerInfo, [q], rest);
    AllQueuesOne(s, instance, consumerInfo, q);
    Assoc(AllQueues(s, instance, consumerInfo, queueInfo[..i]), QueueRowEvents(s, instance, consumerInfo, q),
      AllQueues(s, instance, consumerInfo, rest), CustomEvents(s, instance, CustomMetrics(s)));
  }

  /** With the default registry, what the selections hold. */
  lemma DefaultSelections(s: Snapshot)
    requires s.Valid() && IsDefault(s)
    ensures QueueMetrics(s) == ["new_events", "events_per_second"]
    ensures ConsumerMetrics(s) == ["pending_events"]
    ensures CustomMetrics(s) == []
  {
    var a, b, c := "new_events", "events_per_second", "pending_events";
    assert [a, b, c][1..] == [b, c] && [b, c][1..] == [c] && [c][1..] == [];
    assert Select([c], s.defs, QueueKind) == [];
    assert Select([b, c], s.defs, QueueKind) == [b];
    assert Select([c], s.defs, ConsumerKind) == [c];
    assert Select([b, c], s.defs, ConsumerKind) == [c];
    assert Select([c], s.defs, CustomKind) == [];
    assert Select([b, c], s.defs, CustomKind) == [];
  }

  /** One queue row with one consumer row: the queue's events, that consumer's events, the custom events. */
  lemma SingleConsumerTick(s: Snapshot, instance: Labels, q: Row, c: Row, consumerInfo: Value -> seq<Row>)
    requires s.Valid()
    requires consumerInfo(QueueName(q)) == [c]
    ensures Sample(s, instance, [q], consumerInfo)
      == QueueEvents(s, instance, QueueMetrics(s), q)
       + ConsumerEvents(s, instance, ConsumerMetrics(s), c, q)
       + CustomEvents(s, instance, CustomMetrics(s))
  {
    assert [c][..0] == [];
    assert ConsumerRowsEvents(s, instance, ConsumerMetrics(s), [c], q) == ConsumerEvents(s, instance, ConsumerMetrics(s), c, q);
    AllQueuesOne(s, instance, consumerInfo, q);
  }

  /** With the default registry, the events of a queue row: its two gauges, labelled with the queue. */
  lemma DefaultQueueEvents(s: Snapshot, instance: Labels, q: Row)
    requires s.Valid() && s.typeTag == "pgq" && QueueMetrics(s) == ["new_events", "events_per_second"]
    requires NewEventsGauge(s.defs["new_events"]) && EventsPerSecondGauge(s.defs["events_per_second"])
    ensures QueueEvents(s, instance, QueueMetrics(s), q) == [
      Event("pgq", map["new_events" := Lookup(q, "ev_new")], map["queue" := QueueName(q)] + instance, map[]),
      Event("pgq", map["events_per_second" := Or(Lookup(q, "ev_per_sec"), Int(0))], map["queue" := QueueName(q)] + instance, map[])]
  {
    var queue := map["queue" := QueueName(q)];
    assert map[] + queue == queue;
    QueueEventsAt(s, instance, QueueMetrics(s), q);
  }

  /** With the default registry, the events of a consumer row: its pending-events gauge, labelled with queue and consumer. */
  lemma DefaultConsumerEvents(s: Snapshot, instance: Labels, c: Row, q: Row)
    requires s.Valid() && s.typeTag == "pgq" && ConsumerMetrics(s) == ["pending_events"]
    requires PendingEventsGauge(s.defs["pending_events"])
    ensures ConsumerEvents(s, instance, ConsumerMetrics(s), c, q) == [
      Event("pgq", map["pending_events" := Lookup(c, "pending_events")],
        map["queue" := QueueName(q), "consumer" := ConsumerName(c)] + instance, map[])]
  {
    var both := map["queue" := QueueName(q), "consumer" := ConsumerName(c)];
    assert map[] + both == both;
    ConsumerEventsAt(s, instance, ConsumerMetrics(s), c, q);
  }

  /**
    One tick with the default registry, one queue row and one consumer row:
    three events, the two queue gauges labelled with the queue and the
    pending-events gauge labelled with the queue and the consumer, each
    with the processor's labels merged last.
   */
  lemma DefaultTick(s: Snapshot, instance: Labels, q: Row, c: Row, consumerInfo: Value -> seq<Row>)
    requires s.Valid() && IsDefault(s)
    requires consumerInfo(QueueName(q)) == [c]
    ensures Sample(s, instance, [q], consumerInfo) == [
      Event("pgq", map["new_events" := Lookup(q, "ev_new")], map["queue" := QueueName(q)] + instance, map[]),
      Event("pgq", map["events_per_second" := Or(Lookup(q, "ev_per_sec"), Int(0))], map["queue" := QueueName(q)] + instance, map[]),
      Event("pgq", map["pending_events" := Lookup(c, "pending_events")],
        map["queue" := QueueName(q), "consumer" := ConsumerName(c)] + instance, map[])]
  {
    DefaultSelections(s);
    DefaultQueueEvents(s, instance, q);
    DefaultConsumerEvents(s, instance, c, q);
    SingleConsumerTick(s, instance, q, c, consumerInfo);
    assert CustomEvents(s, instance, []) == [];
  }
}
