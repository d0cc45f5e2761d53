/**
  The exporter-side aggregator: a buffer of recent events, stamped with the
  clock when they arrive, and one observer per registered metric that is
  rebuilt from the buffer each time the exporter asks for metrics.

  An observer stands for a Prometheus metric object: which label sets it
  has seen and, for each, the values observed under it in order. How a
  gauge, counter, histogram or summary folds those values into a number
  belongs to the Prometheus library and is not modelled.
 */
module Aggregation {
  import opened Data
  import opened Config

  /** `MAX_METRIC_AGE`: how long, in clock units, a buffered event is kept. */
  const MaxMetricAge: int := 30

  /** A buffered event and the `created_at` stamp `collect` wrote into it. */
  datatype Stamped = Stamped(event: Event, createdAt: int)

  /** The entries `delete_if` keeps at time `now`, in their original order. */
  function KeepFresh(data: seq<Stamped>, now: int): (r: seq<Stamped>)
    ensures |r| <= |data|
    ensures forall m :: m in r ==> m in data && m.createdAt + MaxMetricAge >= now
    decreases |data|
  {
    if data == [] then []
    else
      var rest := KeepFresh(data[..|data| - 1], now);
      var m := data[|data| - 1];
      if m.createdAt + MaxMetricAge < now then rest else rest + [m]
  }

  /** An entry survives exactly when it is at most `MaxMetricAge` old; one exactly that old stays. */
  lemma {:induction false} KeepFreshMembers(data: seq<Stamped>, now: int)
    ensures forall m :: m in KeepFresh(data, now) <==> m in data && m.createdAt + MaxMetricAge >= now
    decreases |data|
  {
    if data != [] {
      KeepFreshMembers(data[..|data| - 1], now);
      assert data == data[..|data| - 1] + [data[|data| - 1]];
    }
  }

  /** Eviction works entry by entry, so the survivors keep their relative order. */
  lemma {:induction false} KeepFreshAppend(a: seq<Stamped>, b: seq<Stamped>, now: int)
    ensures KeepFresh(a + b, now) == KeepFresh(a, now) + KeepFresh(b, now)
    decreases |b|
  {
    if b == [] {
      assert a + b == a;
    } else {
      var m := |b| - 1;
      KeepFreshAppend(a, b[..m], now);
      assert (a + b)[..|a + b| - 1] == a + b[..m];
      assert (a + b)[|a + b| - 1] == b[m];
    }
  }

  /** Evicting at `t1` and then at a later `t2` is evicting at `t2`. */
  lemma {:induction false} KeepFreshLater(data: seq<Stamped>, t1: int, t2: int)
    requires t1 <= t2
    ensures KeepFresh(KeepFresh(data, t1), t2) == KeepFresh(data, t2)
    decreases |data|
  {
    if data != [] {
      var m := |data| - 1;
      KeepFreshLater(data[..m], t1, t2);
      var rest := KeepFresh(data[..m], t1);
      if data[m].createdAt + MaxMetricAge >= t1 {
        KeepFreshAppend(rest, [data[m]], t2);
        assert [data[m]][..0] == [];
      }
    }
  }

  /**
    The buffer after `collect(obj)` at `now`: the new event last, stamped
    `now`; before it only earlier entries at most `MaxMetricAge` old, in
    their original order.
   */
  lemma CollectWindow(data: seq<Stamped>, obj: Event, now: int)
    ensures var r := KeepFresh(data, now) + [Stamped(obj, now)];
      && r[|r| - 1] == Stamped(obj, now)
      && (forall i :: 0 <= i < |r| - 1 ==> r[i] in data && r[i].createdAt + MaxMetricAge >= now)
  {
    KeepFreshMembers(data, now);
    var r := KeepFresh(data, now) + [Stamped(obj, now)];
    forall i | 0 <= i < |r| - 1
      ensures r[i] in data && r[i].createdAt + MaxMetricAge >= now
    {
      assert r[i] == KeepFresh(data, now)[i];
    }
  }

  /** `gather_labels`: the event's metric labels, overridden by its custom labels, every value as a string. */
  function GatherLabels(e: Event): (r: LabelSet)
    ensures r.Keys == e.metricLabels.Keys + e.customLabels.Keys
    ensures forall k :: k in e.customLabels ==> r[k] == ToS(e.customLabels[k])
    ensures forall k :: k in e.metricLabels && k !in e.customLabels ==> r[k] == ToS(e.metricLabels[k])
  {
    var merged := e.metricLabels + e.customLabels;
    map k | k in merged :: ToS(merged[k])
  }

  /** A metric object: its constructor arguments and, per label set, the values observed under it. */
  datatype Observer = Observer(name: string, kind: Kind, help: string, args: seq<MetricArg>, series: map<LabelSet, seq<Value>>)

  /** The values observed under `labels`, none when the label set is new. */
  function SeriesAt(o: Observer, labels: LabelSet): seq<Value> {
    if labels in o.series then o.series[labels] else []
  }

  /** The observer the collector builds for registry entry `name`. */
  function NewObserver(typeTag: string, name: string, d: Definition): Observer {
    Observer(typeTag + "_" + name, d.kind, d.help, d.metricArgs, map[])
  }

  /** `reset!`: forget every series. */
  function Reset(o: Observer): (r: Observer)
    ensures r.series == map[]
    ensures r.name == o.name && r.kind == o.kind && r.help == o.help && r.args == o.args
  {
    o.(series := map[])
  }

  /** `observe(value, labels)`: one more value under `labels`; every other series is unchanged. */
  function Observe(o: Observer, v: Value, labels: LabelSet): (r: Observer)
    ensures r.series.Keys == o.series.Keys + {labels}
    ensures r.series[labels] == SeriesAt(o, labels) + [v]
    ensures forall l :: l in o.series && l != labels ==> r.series[l] == o.series[l]
    ensures r.name == o.name && r.kind == o.kind && r.help == o.help && r.args == o.args
  {
    o.(series := o.series[labels := SeriesAt(o, labels) + [v]])
  }

  /** The value event `e` holds for metric `n`: a missing key reads as nil. */
  function ValueOf(e: Event, n: string): Value {
    Lookup(e.values, n)
  }

  /** What observer `o`, fed for metric `n`, becomes after the buffer `data` is replayed into it. */
  function Feed(o: Observer, data: seq<Stamped>, n: string): (r: Observer)
    ensures r.name == o.name && r.kind == o.kind && r.help == o.help && r.args == o.args
    ensures o.series.Keys <= r.series.Keys
    decreases |data|
  {
    if data == [] then o
    else
      var prev := Feed(o, data[..|data| - 1], n);
      var e := data[|data| - 1].event;
      if Truthy(ValueOf(e, n)) then Observe(prev, ValueOf(e, n), GatherLabels(e)) else prev
  }

  /** What the buffered entry `x` contributes to the series of metric `n` under `labels`. */
  function Contribution(x: Stamped, n: string, labels: LabelSet): seq<Value> {
    if Truthy(ValueOf(x.event, n)) && GatherLabels(x.event) == labels then [ValueOf(x.event, n)] else []
  }

  /** The values of metric `n`, in buffer order, of the events of `data` whose labels gather to `labels`. */
  function ValuesUnder(data: seq<Stamped>, n: string, labels: LabelSet): seq<Value>
    decreases |data|
  {
    if data == [] then []
    else ValuesUnder(data[..|data| - 1], n, labels) + Contribution(data[|data| - 1], n, labels)
  }

  /**
    Feeding the buffer adds, under each label set, exactly the truthy values
    of the metric from the events with that label set, in buffer order;
    nothing else about the observer changes.
   */
  lemma {:induction false} FeedSeries(o: Observer, data: seq<Stamped>, n: string)
    ensures var r := Feed(o, data, n);
      && r.name == o.name && r.kind == o.kind && r.help == o.help && r.args == o.args
      && (forall l :: l in r.series <==> l in o.series || ValuesUnder(data, n, l) != [])
      && (forall l :: l in r.series ==> r.series[l] == SeriesAt(o, l) + ValuesUnder(data, n, l))
    decreases |data|
  {
    if data != [] {
      var m := |data| - 1;
      FeedSeries(o, data[..m], n);
      var prev := Feed(o, data[..m], n);
      var e := data[m].event;
      forall l
        ensures l in Feed(o, data, n).series <==> l in o.series || ValuesUnder(data, n, l) != []
        ensures l in Feed(o, data, n).series ==> Feed(o, data, n).series[l] == SeriesAt(o, l) + ValuesUnder(data, n, l)
      {
        if Truthy(ValueOf(e, n)) && GatherLabels(e) == l {
          assert SeriesAt(prev, l) == SeriesAt(o, l) + ValuesUnder(data[..m], n, l);
          assert ValuesUnder(data, n, l) == ValuesUnder(data[..m], n, l) + [ValueOf(e, n)];
        } else {
          assert ValuesUnder(data, n, l) == ValuesUnder(data[..m], n, l) + [];
        }
      }
    }
  }

  /** An event that carries a truthy value of `n` puts that value under its own labels. */
  lemma {:induction false} ValuesUnderHas(data: seq<Stamped>, n: string, i: int)
    requires 0 <= i < |data| && Truthy(ValueOf(data[i].event, n))
    ensures ValueOf(data[i].event, n) in ValuesUnder(data, n, GatherLabels(data[i].event))
    decreases |data|
  {
    var m := |data| - 1;
    if i < m {
      ValuesUnderHas(data[..m], n, i);
    }
  }

  /** The observers `@observers` holds after `reset!` on each. */
  function ResetAll(obs: map<string, Observer>): (r: map<string, Observer>)
    ensures r.Keys == obs.Keys
    ensures forall n :: n in r ==> r[n] == Reset(obs[n])
  {
    map n | n in obs :: Reset(obs[n])
  }

  /** The inner loop of the replay: event `e` offered to the observers of `names`, in order. */
  function ObserveEvent(obs: map<string, Observer>, names: seq<string>, e: Event): (r: map<string, Observer>)
    requires forall k :: 0 <= k < |names| ==> names[k] in obs
    ensures r.Keys == obs.Keys
    decreases |names|
  {
    if names == [] then obs
    else
      var prev := ObserveEvent(obs, names[..|names| - 1], e);
      var n := names[|names| - 1];
      if Truthy(ValueOf(e, n)) then prev[n := Observe(prev[n], ValueOf(e, n), GatherLabels(e))] else prev
  }

  /** The whole replay: every event of `data`, in order, offered to the observers of `names`. */
  function Replay(obs: map<string, Observer>, names: seq<string>, data: seq<Stamped>): (r: map<string, Observer>)
    requires forall k :: 0 <= k < |names| ==> names[k] in obs
    ensures r.Keys == obs.Keys
    decreases |data|
  {
    if data == [] then obs
    else ObserveEvent(Replay(obs, names, data[..|data| - 1]), names, data[|data| - 1].event)
  }

  /** With distinct names, an event changes only the observers whose metric it carries a truthy value for. */
  lemma {:induction false} ObserveEventAt(obs: map<string, Observer>, names: seq<string>, e: Event, n: string)
    requires forall k :: 0 <= k < |names| ==> names[k] in obs
    requires Distinct(names) && n in obs
    ensures ObserveEvent(obs, names, e)[n]
      == if n in names && Truthy(ValueOf(e, n)) then Observe(obs[n], ValueOf(e, n), GatherLabels(e)) else obs[n]
    decreases |names|
  {
    if names != [] {
      var m := |names| - 1;
      ObserveEventAt(obs, names[..m], e, n);
      assert names == names[..m] + [names[m]];
      if n == names[m] {
        assert n !in names[..m];
      }
    }
  }

  /** Replaying the buffer into the observers feeds each observer its own metric, and leaves the others alone. */
  lemma {:induction false} ReplayAt(obs: map<string, Observer>, names: seq<string>, data: seq<Stamped>, n: string)
    requires forall k :: 0 <= k < |names| ==> names[k] in obs
    requires Distinct(names) && n in obs
    ensures Replay(obs, names, data)[n] == if n in names then Feed(obs[n], data, n) else obs[n]
    decreases |data|
  {
    if data != [] {
      var m := |data| - 1;
      ReplayAt(obs, names, data[..m], n);
      ObserveEventAt(Replay(obs, names, data[..m]), names, data[m].event, n);
    }
  }

  /**
    After `metrics`, the observer of metric `n` holds exactly what the
    current buffer says: a series for each label set some buffered event
    gives a truthy value of `n` under, holding those values in buffer
    order, and nothing from before the reset.
   */
  lemma MetricsSeries(obs: map<string, Observer>, names: seq<string>, data: seq<Stamped>, n: string, labels: LabelSet)
    requires forall k :: 0 <= k < |names| ==> names[k] in obs
    requires Distinct(names) && n in names
    ensures var o := Replay(ResetAll(obs), names, data)[n];
      && o.name == obs[n].name && o.kind == obs[n].kind && o.help == obs[n].help && o.args == obs[n].args
      && (labels in o.series <==> ValuesUnder(data, n, labels) != [])
      && (labels in o.series ==> o.series[labels] == ValuesUnder(data, n, labels))
  {
    ReplayAt(ResetAll(obs), names, data, n);
    FeedSeries(Reset(obs[n]), data, n);
  }

  /**
    The whole series map of metric `n`'s observer after `metrics`: it is
    `expected` whenever `expected` lists exactly the label sets the buffer
    gives values under, each with those values.
   */
  lemma MetricsSeriesMap(obs: map<string, Observer>, names: seq<string>, data: seq<Stamped>, n: string,
                         expected: map<LabelSet, seq<Value>>)
    requires forall k :: 0 <= k < |names| ==> names[k] in obs
    requires Distinct(names) && n in names
    requires forall l :: l in expected <==> ValuesUnder(data, n, l) != []
    requires forall l :: l in expected ==> expected[l] == ValuesUnder(data, n, l)
    ensures Replay(ResetAll(obs), names, data)[n].series == expected
  {
    var o := Replay(ResetAll(obs), names, data)[n];
    forall l
      ensures (l in o.series <==> l in expected) && (l in o.series ==> o.series[l] == expected[l])
    {
      MetricsSeries(obs, names, data, n, l);
    }
  }

  /**
    Two buffered events for one metric whose labels gather differently end
    up as two series of the same observer.
   */
  lemma TwoLabelSetsTwoSeries(obs: map<string, Observer>, names: seq<string>, data: seq<Stamped>, n: string, i: int, j: int)
    requires forall k :: 0 <= k < |names| ==> names[k] in obs
    requires Distinct(names) && n in names
    requires 0 <= i < |data| && 0 <= j < |data|
    requires Truthy(ValueOf(data[i].event, n)) && Truthy(ValueOf(data[j].event, n))
    requires GatherLabels(data[i].event) != GatherLabels(data[j].event)
    ensures var o := Replay(ResetAll(obs), names, data)[n];
      && GatherLabels(data[i].event) in o.series
      && GatherLabels(data[j].event) in o.series
      && ValueOf(data[i].event, n) in o.series[GatherLabels(data[i].event)]
      && ValueOf(data[j].event, n) in o.series[GatherLabels(data[j].event)]
  {
    ValuesUnderHas(data, n, i);
    ValuesUnderHas(data, n, j);
    MetricsSeries(obs, names, data, n, GatherLabels(data[i].event));
    MetricsSeries(obs, names, data, n, GatherLabels(data[j].event));
  }

  /**
    The keys the local `metrics` hash gains from event `e`: each name of
    `names`, in order, that `e` carries a truthy value for and that is not
    a key yet. A key already present keeps its place.
   */
  function TouchEvent(seen: seq<string>, names: seq<string>, e: Event): (r: seq<string>)
    ensures |seen| <= |r| && r[..|seen|] == seen
    ensures forall n :: n in r ==> n in seen || n in names
    decreases |names|
  {
    if names == [] then seen
    else
      var prev := TouchEvent(seen, names[..|names| - 1], e);
      var n := names[|names| - 1];
      if Truthy(ValueOf(e, n)) && n !in prev then prev + [n] else prev
  }

  /** The keys of the local `metrics` hash after replaying `data`, in insertion order. */
  function Touched(names: seq<string>, data: seq<Stamped>): (r: seq<string>)
    ensures forall n :: n in r ==> n in names
    decreases |data|
  {
    if data == [] then []
    else TouchEvent(Touched(names, data[..|data| - 1]), names, data[|data| - 1].event)
  }

  /** An event adds exactly its truthy names, after the keys already there, each once. */
  lemma {:induction false} TouchEventFacts(seen: seq<string>, names: seq<string>, e: Event)
    ensures forall n :: n in TouchEvent(seen, names, e) <==> n in seen || (n in names && Truthy(ValueOf(e, n)))
    ensures |seen| <= |TouchEvent(seen, names, e)| && TouchEvent(seen, names, e)[..|seen|] == seen
    ensures Distinct(seen) ==> Distinct(TouchEvent(seen, names, e))
    decreases |names|
  {
    if names != [] {
      var m := |names| - 1;
      TouchEventFacts(seen, names[..m], e);
      assert names == names[..m] + [names[m]];
    }
  }

  /**
    `metrics` returns each observer at most once, and exactly those whose
    metric some buffered event carries a truthy value for.
   */
  lemma {:induction false} TouchedFacts(names: seq<string>, data: seq<Stamped>)
    ensures forall n :: n in Touched(names, data) <==>
      n in names && exists i :: 0 <= i < |data| && Truthy(ValueOf(data[i].event, n))
    ensures Distinct(Touched(names, data))
    decreases |data|
  {
    if data != [] {
      var m := |data| - 1;
      TouchedFacts(names, data[..m]);
      TouchEventFacts(Touched(names, data[..m]), names, data[m].event);
      forall n | n in names && exists i :: 0 <= i < |data| && Truthy(ValueOf(data[i].event, n))
        ensures n in Touched(names, data)
      {
        var i :| 0 <= i < |data| && Truthy(ValueOf(data[i].event, n));
        if i < m {
          assert data[..m][i] == data[i];
        }
      }
      forall n | n in Touched(names, data)
        ensures exists i :: 0 <= i < |data| && Truthy(ValueOf(data[i].event, n))
      {
        if n in Touched(names, data[..m]) {
          var i :| 0 <= i < m && Truthy(ValueOf(data[..m][i].event, n));
          assert data[..m][i] == data[i];
        } else {
          assert Truthy(ValueOf(data[m].event, n));
        }
      }
    }
  }

  /** The observers named by `keys`, in that order: `metrics.values`. */
  function Project(obs: map<string, Observer>, keys: seq<string>): (r: seq<Observer>)
    requires forall k :: 0 <= k < |keys| ==> keys[k] in obs
    ensures |r| == |keys| && forall k :: 0 <= k < |keys| ==> r[k] == obs[keys[k]]
  {
    seq(|keys|, i requires 0 <= i < |keys| => obs[keys[i]])
  }

  /** `PgqPrometheus::Collector`: the event buffer and the observers. */
  class Collector {
    /** `Config.type` when the collector was built. */
    const typeTag: string
    /** The keys of `@observers`, in insertion order (the registry's order when the collector was built). */
    const names: seq<string>
    /** `@observers`, keyed by metric name. */
    var observers: map<string, Observer>
    /** `@data`: the buffered events, oldest first. */
    var data: seq<Stamped>

    ghost predicate Valid()
      reads this
    {
      && Distinct(names)
      && (forall n :: n in names <==> n in observers)
    }

    /** `initialize`: an empty buffer and one fresh observer per registry entry, named `<type>_<name>`. */
    constructor (config: Registry)
      requires config.Valid()
      ensures Valid()
      ensures typeTag == config.typeTag && names == config.order && data == []
      ensures forall n :: n in observers <==> n in config.defs
      ensures forall n :: n in observers ==> observers[n] == NewObserver(config.typeTag, n, config.defs[n])
    {
      var s := config.View();
      var built: map<string, Observer> := map[];
      var i := 0;
      while i < |s.order|
        invariant 0 <= i <= |s.order|
        invariant forall n :: n in built <==> n in s.order[..i]
        invariant forall n :: n in built ==> n in s.defs && built[n] == NewObserver(s.typeTag, n, s.defs[n])
      {
        var name := s.order[i];
        built := built[name := NewObserver(s.typeTag, name, s.defs[name])];
        PrefixStep(s.order, i);
        assert s.order[..i + 1] == s.order[..i] + [name];
        i := i + 1;
      }
      assert s.order[..i] == s.order;
      typeTag, names, observers, data := s.typeTag, s.order, built, [];
    }

    /**
      `collect(obj)`: stamp the event with the clock value `now`, drop the
      buffered events older than `MaxMetricAge`, then append the event.
     */
    method Collect(obj: Event, now: int)
      modifies this`data
      ensures data == KeepFresh(old(data), now) + [Stamped(obj, now)]
    {
      var stamped := Stamped(obj, now);
      data := KeepFresh(data, now);
      data := data + [stamped];
    }

    /**
      `metrics`: nothing when the buffer is empty; otherwise reset every
      observer, replay the whole buffer (without evicting anything) and
      return the observers that received a value, in first-touch order.
     */
    method Metrics() returns (result: seq<Observer>)
      requires Valid()
      modifies this`observers
      ensures Valid()
      ensures data == [] ==> result == [] && observers == old(observers)
      ensures data != [] ==> observers == Replay(ResetAll(old(observers)), names, data)
      ensures data != [] ==>
        && |result| == |Touched(names, data)|
        && forall k :: 0 <= k < |result| ==> Touched(names, data)[k] in observers && result[k] == observers[Touched(names, data)[k]]
    {
      if |data| == 0 {
        return [];
      }
      observers := ResetAll(observers);
      ghost var start := observers;
      var touched: seq<string> := [];
      var j := 0;
      while j < |data|
        invariant 0 <= j <= |data|
        invariant Valid() && observers.Keys == start.Keys
        invariant observers == Replay(start, names, data[..j])
        invariant touched == Touched(names, data[..j])
      {
        touched := ObserveEventStep(data[j].event, touched);
        PrefixStep(data, j);
        j := j + 1;
      }
      assert data[..j] == data;
      TouchedFacts(names, data);
      result := Project(observers, touched);
    }

    /** One pass of the `@observers.each` loop of `metrics`, for the event `e`. */
    method ObserveEventStep(e: Event, seen: seq<string>) returns (touched: seq<string>)
      requires Valid()
      modifies this`observers
      ensures Valid() && observers.Keys == old(observers).Keys
      ensures observers == ObserveEvent(old(observers), names, e)
      ensures touched == TouchEvent(seen, names, e)
    {
      var labels := GatherLabels(e);
      ghost var start := observers;
      touched := seen;
      var k := 0;
      while k < |names|
        invariant 0 <= k <= |names|
        invariant observers.Keys == start.Keys
        invariant observers == ObserveEvent(start, names[..k], e)
        invariant touched == TouchEvent(seen, names[..k], e)
      {
        var name := names[k];
        var value := ValueOf(e, name);
        PrefixStep(names, k);
        if Truthy(value) {
          observers := observers[name := Observe(observers[name], value, labels)];
          if name !in touched {
            touched := touched + [name];
          }
        }
        k := k + 1;
      }
      assert names[..k] == names;
    }
  }
}
