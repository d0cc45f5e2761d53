/**
  Values shared by the registry, the sampling step and the aggregator:
  the cells of a pgq introspection row, label maps, and the metric event
  that travels from the processor to the collector.

  Symbol and string keys are identified: the processor builds events with
  symbol keys, and the transport delivers them to the collector with string
  keys, so one `string` key type stands for both.
 */
module Data {

  datatype Option<T> = None | Some(value: T) {
    /** Ruby's `x || default` for an optional option value. */
    function GetOr(default: T): T {
      match this
      case Some(v) => v
      case None => default
    }
  }

  /** A cell of a row, a metric value or a label value. Floats are not modelled. */
  datatype Value = Nil | Bool(b: bool) | Int(i: int) | Str(s: string)

  /** One row of `pgq.get_queue_info()` or `pgq.get_consumer_info(queue)`. */
  type Row = map<string, Value>

  /** Labels as the processor builds them: values not yet turned into strings. */
  type Labels = map<string, Value>

  /** Labels as the collector feeds them to an observer: all strings. */
  type LabelSet = map<string, string>

  /** Ruby truthiness: everything except `nil` and `false`. */
  predicate Truthy(v: Value) {
    !(v.Nil? || v == Bool(false))
  }

  /** `row[key]`: a missing column reads as `nil`. */
  function Lookup(row: Row, key: string): Value {
    if key in row then row[key] else Nil
  }

  /** Ruby's `a || b`. */
  function Or(a: Value, b: Value): Value {
    if Truthy(a) then a else b
  }

  function Digit(d: nat): char
    requires d < 10
  {
    "0123456789"[d]
  }

  function Digits(n: nat): string
    decreases n
  {
    if n < 10 then [Digit(n)] else Digits(n / 10) + [Digit(n % 10)]
  }

  /** Ruby's `Integer#to_s`. */
  function IntToString(i: int): string {
    if i < 0 then "-" + Digits(-i) else Digits(i)
  }

  /** Ruby's `to_s` on a label value. */
  function ToS(v: Value): string {
    match v
    case Nil => ""
    case Bool(b) => if b then "true" else "false"
    case Int(i) => IntToString(i)
    case Str(s) => s
  }

  /**
    A metric event: the flat hash `{type: ..., <metric name> => value,
    metric_labels: ..., custom_labels: ...}`. An absent `metric_labels` or
    `custom_labels` key is the empty map; the collector treats the two alike.
   */
  datatype Event = Event(typeTag: string, values: map<string, Value>, metricLabels: Labels, customLabels: Labels)

  ghost predicate Distinct<T>(s: seq<T>) {
    forall i, j :: 0 <= i < j < |s| ==> s[i] != s[j]
  }

  /** Growing a prefix by one element. */
  lemma PrefixStep<T>(s: seq<T>, j: int)
    requires 0 <= j < |s|
    ensures s[..j + 1][..j] == s[..j] && s[..j + 1][j] == s[j]
  {
  }
}
