/** The stock optional-value datatype. */
module Wrappers {
  datatype Option<+T> = None | Some(value: T)
}

/**
  The JSON shape that the dashboard's backend emits and its line charts read: a named
  series of `{period|date, value}` points. The field that holds the time bucket is
  `period` for financial trends and `date` for the other trends; here it is `key`.
  A series' `data` is optional because the chart components read it through optional
  chaining (`revenue_trends[0]?.data?.map`); a missing `data` is `None`.
 */
module SeriesModel {
  import opened Wrappers

  datatype Point = Point(key: string, value: real)

  datatype Series = Series(name: string, data: Option<seq<Point>>)

  /** The time buckets of a list of points, in order. */
  function Keys(points: seq<Point>): (ks: seq<string>)
    ensures |ks| == |points|
    ensures forall i :: 0 <= i < |points| ==> ks[i] == points[i].key
  {
    if points == [] then [] else [points[0].key] + Keys(points[1..])
  }

  /** Every series of a group carries its `data` list. */
  predicate AllHaveData(group: seq<Series>) {
    forall i :: 0 <= i < |group| ==> group[i].data.Some?
  }

  /**
    `data.find(d => d.key === k)`: the index of the first point whose key is `k`.
   */
  function FindIndex(data: seq<Point>, k: string): (r: Option<nat>)
    ensures r.Some? ==> r.value < |data| && data[r.value].key == k
    ensures r.Some? ==> forall j :: 0 <= j < r.value ==> data[j].key != k
    ensures r.None? ==> forall j :: 0 <= j < |data| ==> data[j].key != k
  {
    if data == [] then None
    else if data[0].key == k then Some(0)
    else match FindIndex(data[1..], k)
      case None => None
      case Some(i) => Some(i + 1)
  }

  /**
    `data.find(d => d.key === k)?.value || 0`: the value of the first point with key `k`,
    or 0 when there is none. (`v || 0` is `v` for every number but NaN, which reals lack.)
   */
  function Lookup(data: seq<Point>, k: string): (v: real)
    ensures (forall j :: 0 <= j < |data| ==> data[j].key != k) ==> v == 0.0
    ensures forall i :: 0 <= i < |data| && data[i].key == k
              && (forall j :: 0 <= j < i ==> data[j].key != k)
              ==> v == data[i].value
  {
    match FindIndex(data, k)
    case None => 0.0
    case Some(i) => data[i].value
  }

  /** Distinct keys make the lookup of a point's own key return that point's value. */
  lemma LookupOwnKey(data: seq<Point>, i: nat)
    requires i < |data|
    requires forall a, b :: 0 <= a < b < |data| ==> data[a].key != data[b].key
    ensures Lookup(data, data[i].key) == data[i].value
  {
  }
}
