/**
  The collector on a concrete buffer: the four events of the exporter-side
  scenario (a queue gauge, a consumer gauge with a custom label, and a
  custom gauge twice, once bare and once with labels of both kinds).
 */
module AggregationProperties {
  import opened Data
  import opened Aggregation

  /** A series holds values only from buffered events that carry the metric under exactly that label set. */
  lemma {:induction false} ValuesUnderFrom(data: seq<Stamped>, n: string, labels: LabelSet)
    requires ValuesUnder(data, n, labels) != []
    ensures exists i :: 0 <= i < |data| && Truthy(ValueOf(data[i].event, n)) && GatherLabels(data[i].event) == labels
    decreases |data|
  {
    var m := |data| - 1;
    var e := data[m].event;
    if !(Truthy(ValueOf(e, n)) && GatherLabels(e) == labels) {
      assert ValuesUnder(data, n, labels) == ValuesUnder(data[..m], n, labels) + [];
      ValuesUnderFrom(data[..m], n, labels);
      var i :| 0 <= i < m && Truthy(ValueOf(data[..m][i].event, n)) && GatherLabels(data[..m][i].event) == labels;
      assert data[..m][i] == data[i];
    }
  }

  /** The observer keys of the scenario: the three default gauges, then the custom gauge. */
  function ScenarioNames(): seq<string> {
    ["new_events", "events_per_second", "pending_events", "custom"]
  }

  function QueueLabels(): LabelSet {
    map["queue" := "q"]
  }

  function ConsumerLabels(): LabelSet {
    map["queue" := "q", "consumer" := "c", "foo" := "bar"]
  }

  function CustomLabels(): LabelSet {
    map["bar" := "baz", "baz" := "boo"]
  }

  /** The four events as they arrive, stamped `t1` to `t4`. */
  function ScenarioData(tag: string, t1: int, t2: int, t3: int, t4: int): seq<Stamped> {
    [ Stamped(Event(tag, map["new_events" := Int(5)], map["queue" := Str("q")], map[]), t1),
      Stamped(Event(tag, map["pending_events" := Int(5)], map["queue" := Str("q"), "consumer" := Str("c")],
        map["foo" := Str("bar")]), t2),
      Stamped(Event(tag, map["custom" := Int(1)], map[], map[]), t3),
      Stamped(Event(tag, map["custom" := Int(2)], map["bar" := Str("baz")], map["baz" := Str("boo")]), t4) ]
  }

  /** How the four events' labels gather. */
  lemma ScenarioLabels(tag: string, t1: int, t2: int, t3: int, t4: int)
    ensures var d := ScenarioData(tag, t1, t2, t3, t4);
      && GatherLabels(d[0].event) == QueueLabels()
      && GatherLabels(d[1].event) == ConsumerLabels()
      && GatherLabels(d[2].event) == map[]
      && GatherLabels(d[3].event) == CustomLabels()
  {
    var d := ScenarioData(tag, t1, t2, t3, t4);
    QueueEventLabels(d[0].event);
    ConsumerEventLabels(d[1].event);
    CustomEventLabels(d[3].event);
  }

  lemma QueueEventLabels(e: Event)
    requires e.metricLabels == map["queue" := Str("q")] && e.customLabels == map[]
    ensures GatherLabels(e) == QueueLabels()
  {
    var r := GatherLabels(e);
    assert r.Keys == QueueLabels().Keys;
    assert r["queue"] == "q";
  }

  lemma ConsumerEventLabels(e: Event)
    requires e.metricLabels == map["queue" := Str("q"), "consumer" := Str("c")]
    requires e.customLabels == map["foo" := Str("bar")]
    ensures GatherLabels(e) == ConsumerLabels()
  {
    var r := GatherLabels(e);
    assert r.Keys == ConsumerLabels().Keys;
    assert r["queue"] == "q" && r["consumer"] == "c" && r["foo"] == "bar";
  }

  lemma CustomEventLabels(e: Event)
    requires e.metricLabels == map["bar" := Str("baz")] && e.customLabels == map["baz" := Str("boo")]
    ensures GatherLabels(e) == CustomLabels()
  {
    var r := GatherLabels(e);
    assert r.Keys == CustomLabels().Keys;
    assert r["bar"] == "baz" && r["baz"] == "boo";
  }

  /**
    `metrics` on the scenario returns the observers of `new_events`,
    `pending_events` and `custom`, each once; the `events_per_second`
    observer received nothing and is not returned.
   */
  lemma ScenarioTouched(tag: string, t1: int, t2: int, t3: int, t4: int)
    ensures var touched := Touched(ScenarioNames(), ScenarioData(tag, t1, t2, t3, t4));
      && Distinct(touched)
      && forall n :: n in touched <==> n == "new_events" || n == "pending_events" || n == "custom"
  {
    var d := ScenarioData(tag, t1, t2, t3, t4);
    TouchedFacts(ScenarioNames(), d);
    assert Truthy(ValueOf(d[0].event, "new_events"));
    assert Truthy(ValueOf(d[1].event, "pending_events"));
    assert Truthy(ValueOf(d[2].event, "custom"));
    forall i | 0 <= i < |d|
      ensures !Truthy(ValueOf(d[i].event, "events_per_second"))
    {
    }
  }

  /** A buffer of four entries: each entry's contribution, in order. */
  lemma ValuesUnderFour(a: Stamped, b: Stamped, c: Stamped, e: Stamped, n: string, labels: LabelSet)
    ensures ValuesUnder([a, b, c, e], n, labels)
      == Contribution(a, n, labels) + Contribution(b, n, labels) + Contribution(c, n, labels) + Contribution(e, n, labels)
  {
    assert [a][..0] == [];
    assert ValuesUnder([a], n, labels) == [] + Contribution(a, n, labels) == Contribution(a, n, labels);
    assert [a, b][..1] == [a];
    assert ValuesUnder([a, b], n, labels) == ValuesUnder([a], n, labels) + Contribution(b, n, labels);
    assert [a, b, c][..2] == [a, b];
    assert ValuesUnder([a, b, c], n, labels) == ValuesUnder([a, b], n, labels) + Contribution(c, n, labels);
    assert [a, b, c, e][..3] == [a, b, c];
  }

  /** `new_events` ends with 5 under the queue label, and has no other series. */
  lemma ScenarioNewEvents(tag: string, t1: int, t2: int, t3: int, t4: int)
    ensures ValuesUnder(ScenarioData(tag, t1, t2, t3, t4), "new_events", QueueLabels()) == [Int(5)]
    ensures forall l :: ValuesUnder(ScenarioData(tag, t1, t2, t3, t4), "new_events", l) != [] ==> l == QueueLabels()
  {
    var d := ScenarioData(tag, t1, t2, t3, t4);
    ScenarioLabels(tag, t1, t2, t3, t4);
    ValuesUnderFour(d[0], d[1], d[2], d[3], "new_events", QueueLabels());
    forall l | ValuesUnder(d, "new_events", l) != []
      ensures l == QueueLabels()
    {
      ValuesUnderFrom(d, "new_events", l);
      var i :| 0 <= i < |d| && Truthy(ValueOf(d[i].event, "new_events")) && GatherLabels(d[i].event) == l;
      assert i == 0;
    }
  }

  /** `pending_events` ends with 5 under queue, consumer and the custom label, and has no other series. */
  lemma ScenarioPendingEvents(tag: string, t1: int, t2: int, t3: int, t4: int)
    ensures ValuesUnder(ScenarioData(tag, t1, t2, t3, t4), "pending_events", ConsumerLabels()) == [Int(5)]
    ensures forall l :: ValuesUnder(ScenarioData(tag, t1, t2, t3, t4), "pending_events", l) != [] ==> l == ConsumerLabels()
  {
    var d := ScenarioData(tag, t1, t2, t3, t4);
    ScenarioLabels(tag, t1, t2, t3, t4);
    ValuesUnderFour(d[0], d[1], d[2], d[3], "pending_events", ConsumerLabels());
    forall l | ValuesUnder(d, "pending_events", l) != []
      ensures l == ConsumerLabels()
    {
      ValuesUnderFrom(d, "pending_events", l);
      var i :| 0 <= i < |d| && Truthy(ValueOf(d[i].event, "pending_events")) && GatherLabels(d[i].event) == l;
      assert i == 1;
    }
  }

  /** `custom` ends with 1 under no labels and 2 under both of its labels. */
  lemma ScenarioCustom(tag: string, t1: int, t2: int, t3: int, t4: int)
    ensures ValuesUnder(ScenarioData(tag, t1, t2, t3, t4), "custom", map[]) == [Int(1)]
    ensures ValuesUnder(ScenarioData(tag, t1, t2, t3, t4), "custom", CustomLabels()) == [Int(2)]
  {
    var d := ScenarioData(tag, t1, t2, t3, t4);
    ScenarioLabels(tag, t1, t2, t3, t4);
    assert "bar" in CustomLabels();
    ValuesUnderFour(d[0], d[1], d[2], d[3], "custom", map[]);
    ValuesUnderFour(d[0], d[1], d[2], d[3], "custom", CustomLabels());
  }

  /** `custom` has no series besides those two. */
  lemma ScenarioCustomOnly(tag: string, t1: int, t2: int, t3: int, t4: int)
    ensures forall l :: ValuesUnder(ScenarioData(tag, t1, t2, t3, t4), "custom", l) != [] ==> l == map[] || l == CustomLabels()
  {
    var d := ScenarioData(tag, t1, t2, t3, t4);
    ScenarioLabels(tag, t1, t2, t3, t4);
    forall l | ValuesUnder(d, "custom", l) != []
      ensures l == map[] || l == CustomLabels()
    {
      ValuesUnderFrom(d, "custom", l);
      var i :| 0 <= i < |d| && Truthy(ValueOf(d[i].event, "custom")) && GatherLabels(d[i].event) == l;
      assert i == 2 || i == 3;
    }
  }

  /** No event of the scenario carries `events_per_second`, so it has no series at all. */
  lemma ScenarioEventsPerSecond(tag: string, t1: int, t2: int, t3: int, t4: int)
    ensures forall l :: ValuesUnder(ScenarioData(tag, t1, t2, t3, t4), "events_per_second", l) == []
  {
    var d := ScenarioData(tag, t1, t2, t3, t4);
    forall l
      ensures ValuesUnder(d, "events_per_second", l) == []
    {
      ValuesUnderFour(d[0], d[1], d[2], d[3], "events_per_second", l);
    }
  }

  /** `@observers` holds an observer for each of the scenario's metric names. */
  ghost predicate HasScenarioObservers(obs: map<string, Observer>) {
    "new_events" in obs && "events_per_second" in obs && "pending_events" in obs && "custom" in obs
  }

  /** The observer of `n` after the scenario's `metrics` call: reset, then the four events replayed. */
  function ScenarioObserver(obs: map<string, Observer>, n: string, tag: string, t1: int, t2: int, t3: int, t4: int): Observer
    requires HasScenarioObservers(obs) && n in obs
  {
    Replay(ResetAll(obs), ScenarioNames(), ScenarioData(tag, t1, t2, t3, t4))[n]
  }

  /** After the scenario's `metrics`, `new_events` has one series: 5 under `queue="q"`. */
  lemma ScenarioNewEventsObserver(obs: map<string, Observer>, tag: string, t1: int, t2: int, t3: int, t4: int)
    requires HasScenarioObservers(obs)
    ensures ScenarioObserver(obs, "new_events", tag, t1, t2, t3, t4).series == map[QueueLabels() := [Int(5)]]
  {
    var names := ScenarioNames();
    assert names[0] == "new_events" && Distinct(names);
    ScenarioNewEvents(tag, t1, t2, t3, t4);
    MetricsSeriesMap(obs, names, ScenarioData(tag, t1, t2, t3, t4), "new_events", map[QueueLabels() := [Int(5)]]);
  }

  /** After the scenario's `metrics`, `pending_events` has one series: 5 under `queue="q",consumer="c",foo="bar"`. */
  lemma ScenarioPendingEventsObserver(obs: map<string, Observer>, tag: string, t1: int, t2: int, t3: int, t4: int)
    requires HasScenarioObservers(obs)
    ensures ScenarioObserver(obs, "pending_events", tag, t1, t2, t3, t4).series == map[ConsumerLabels() := [Int(5)]]
  {
    var names := ScenarioNames();
    assert names[2] == "pending_events" && Distinct(names);
    ScenarioPendingEvents(tag, t1, t2, t3, t4);
    MetricsSeriesMap(obs, names, ScenarioData(tag, t1, t2, t3, t4), "pending_events", map[ConsumerLabels() := [Int(5)]]);
  }

  /** After the scenario's `metrics`, `custom` has exactly two series: 1 with no labels, 2 under `bar="baz",baz="boo"`. */
  lemma ScenarioCustomObserver(obs: map<string, Observer>, tag: string, t1: int, t2: int, t3: int, t4: int)
    requires HasScenarioObservers(obs)
    ensures ScenarioObserver(obs, "custom", tag, t1, t2, t3, t4).series == map[map[] := [Int(1)], CustomLabels() := [Int(2)]]
  {
    var names := ScenarioNames();
    assert names[3] == "custom" && Distinct(names);
    ScenarioCustom(tag, t1, t2, t3, t4);
    ScenarioCustomOnly(tag, t1, t2, t3, t4);
    assert map[] != CustomLabels() by { assert "bar" in CustomLabels(); }
    MetricsSeriesMap(obs, names, ScenarioData(tag, t1, t2, t3, t4), "custom", map[map[] := [Int(1)], CustomLabels() := [Int(2)]]);
  }

  /** After the scenario's `metrics`, `events_per_second` has no series, so it renders no line. */
  lemma ScenarioEventsPerSecondObserver(obs: map<string, Observer>, tag: string, t1: int, t2: int, t3: int, t4: int)
    requires HasScenarioObservers(obs)
    ensures ScenarioObserver(obs, "events_per_second", tag, t1, t2, t3, t4).series == map[]
  {
    var names := ScenarioNames();
    assert names[1] == "events_per_second" && Distinct(names);
    ScenarioEventsPerSecond(tag, t1, t2, t3, t4);
    MetricsSeriesMap(obs, names, ScenarioData(tag, t1, t2, t3, t4), "events_per_second", map[]);
  }
}
