/** Time series keyed by epochs (data_types/containers/TimeSeries.py): a dictionary, the list
    of its epochs in dictionary order and a flag recording whether that list is sorted. */
module Series {
  import opened Errors
  import opened Epochs
  import Text

  /** No epoch of the list is `<` an epoch before it: the order `sorted()` produces. */
  predicate Ascending(es: seq<Epoch>) {
    forall i, j :: 0 <= i < j < |es| ==> !Less(es[j], es[i])
  }

  predicate Distinct<T(==)>(s: seq<T>) {
    forall i, j :: 0 <= i < j < |s| ==> s[i] != s[j]
  }

  /** `x` placed after every epoch of `s` that it is not `<`: one step of a stable sort. */
  function Insert(x: Epoch, s: seq<Epoch>): (r: seq<Epoch>)
    ensures multiset(r) == multiset(s) + multiset{x}
  {
    if s == [] then [x]
    else if Less(x, s[0]) then [x] + s
    else
      assert s == [s[0]] + s[1..];
      [s[0]] + Insert(x, s[1..])
  }

  lemma {:induction false} InsertAscending(x: Epoch, s: seq<Epoch>)
    requires Ascending(s)
    ensures Ascending(Insert(x, s))
  {
    if s == [] {
    } else if Less(x, s[0]) {
      forall j | 0 <= j < |s| ensures !Less(s[j], x) {
        OrderFacts(x, s[0], s[j]);
        OrderFacts(s[0], s[j], x);
      }
    } else {
      InsertAscending(x, s[1..]);
      var t := Insert(x, s[1..]);
      forall j | 0 <= j < |t| ensures !Less(t[j], s[0]) {
        assert t[j] in multiset(t);
        assert t[j] in s[1..] || t[j] == x;
      }
    }
  }

  /** `sorted(epochs)`: Python's stable sort under `<`. */
  function SortEpochs(s: seq<Epoch>): (r: seq<Epoch>)
    ensures multiset(r) == multiset(s)
    ensures Ascending(r)
  {
    if s == [] then []
    else
      assert s == s[..|s| - 1] + [s[|s| - 1]];
      InsertAscending(s[|s| - 1], SortEpochs(s[..|s| - 1]));
      Insert(s[|s| - 1], SortEpochs(s[..|s| - 1]))
  }

  /** The three attributes of a `TimeSeries`; the dictionary's order is always `epochs`. */
  datatype SeriesValue<V> = SeriesValue(epochs: seq<Epoch>, data: map<Epoch, V>, sorted: bool)

  /** The epoch list has no duplicates and holds exactly the dictionary's keys, and a series
      flagged sorted has its epochs in ascending order. */
  ghost predicate Invariant<V>(s: SeriesValue<V>) {
    Distinct(s.epochs) && (forall e :: e in s.data <==> e in s.epochs)
    && (s.sorted ==> Ascending(s.epochs))
  }

  function Empty<V>(): (r: SeriesValue<V>)
    ensures Invariant(r) && r.sorted && r.epochs == []
  {
    SeriesValue([], map[], true)
  }

  /** `set_data(epoch, value)`. */
  function WithData<V>(s: SeriesValue<V>, e: Epoch, v: V): (r: SeriesValue<V>)
    requires Invariant(s)
    ensures Invariant(r)
  {
    if e in s.epochs then SeriesValue(s.epochs, s.data[e := v], s.sorted)
    else SeriesValue(s.epochs + [e], s.data[e := v], false)
  }

  /** After `set_data` the epoch holds the value and every other epoch keeps its own; a new
      epoch is appended and clears the sorted flag, an existing one keeps list and flag. */
  lemma SetDataFacts<V>(s: SeriesValue<V>, e: Epoch, v: V)
    requires Invariant(s)
    ensures WithData(s, e, v).data[e] == v
    ensures forall d :: d in s.data && d != e ==> d in WithData(s, e, v).data && WithData(s, e, v).data[d] == s.data[d]
    ensures e in s.epochs ==> WithData(s, e, v).epochs == s.epochs && WithData(s, e, v).sorted == s.sorted
    ensures e !in s.epochs ==> WithData(s, e, v).epochs == s.epochs + [e] && !WithData(s, e, v).sorted
  {}

  /** `list.remove(x)`: the list without the first occurrence of `x`. */
  function RemoveFirst<T(==)>(s: seq<T>, x: T): (r: seq<T>)
    requires x in s
    ensures |r| == |s| - 1
    ensures var k := Text.IndexOf(s, x).value;
            forall i :: 0 <= i < |r| ==> r[i] == s[if i < k then i else i + 1]
  {
    var k := Text.IndexOf(s, x).value;
    s[..k] + s[k + 1..]
  }

  lemma RemoveFirstDistinct<T>(s: seq<T>, x: T)
    requires x in s && Distinct(s)
    ensures Distinct(RemoveFirst(s, x))
    ensures forall y :: y in RemoveFirst(s, x) <==> y in s && y != x
  {
    var k := Text.IndexOf(s, x).value;
    var r := RemoveFirst(s, x);
    forall y ensures y in r <==> y in s && y != x {
      if y in s && y != x {
        var m :| 0 <= m < |s| && s[m] == y;
        assert r[if m < k then m else m - 1] == y;
      }
    }
  }

  /** Removing an epoch from an ascending list leaves it ascending. */
  lemma RemoveFirstAscending(s: seq<Epoch>, x: Epoch)
    requires x in s && Distinct(s)
    ensures Ascending(s) ==> Ascending(RemoveFirst(s, x))
  {
  }

  /** `remove_data(epoch)`: the series without the epoch, and the value it held. */
  function WithoutEpoch<V>(s: SeriesValue<V>, e: Epoch): (r: Result<(SeriesValue<V>, V)>)
    requires Invariant(s)
    ensures e !in s.epochs <==> r == Err(KeyError)
    ensures r.Ok? ==> Invariant(r.value.0) && r.value.1 == s.data[e] && e !in r.value.0.data
    ensures r.Ok? ==> r.value.0.data == s.data - {e} && r.value.0.sorted == s.sorted
    ensures r.Ok? ==> forall d :: d in r.value.0.epochs <==> d in s.epochs && d != e
  {
    if e !in s.epochs then Err(KeyError)
    else
      RemoveFirstDistinct(s.epochs, e);
      RemoveFirstAscending(s.epochs, e);
      Ok((SeriesValue(RemoveFirst(s.epochs, e), s.data - {e}, s.sorted), s.data[e]))
  }

  /** `sort()`: an unsorted series gets its epochs in ascending order and the flag set. */
  function SortedSeries<V>(s: SeriesValue<V>): (r: SeriesValue<V>)
    requires Invariant(s)
    ensures Invariant(r) && r.sorted && r.data == s.data
    ensures multiset(r.epochs) == multiset(s.epochs)
    ensures Ascending(r.epochs)
    ensures s.sorted ==> r == s
  {
    if s.sorted then s
    else
      var es := SortEpochs(s.epochs);
      DistinctPermutation(s.epochs, es);
      SeriesValue(es, s.data, true)
  }

  lemma DistinctPermutation<T>(a: seq<T>, b: seq<T>)
    requires Distinct(a) && multiset(a) == multiset(b)
    ensures Distinct(b) && forall x :: x in a <==> x in b
  {
    forall x ensures x in a <==> x in b {
      assert x in a <==> x in multiset(a);
    }
    forall i, j | 0 <= i < j < |b| ensures b[i] != b[j] {
      if b[i] == b[j] {
        var x := b[i];
        assert multiset(b)[x] >= 2 by {
          assert b == b[..i] + [x] + b[i+1..j] + [x] + b[j+1..];
        }
        DistinctCount(a, x);
      }
    }
  }

  lemma DistinctCount<T>(a: seq<T>, x: T)
    requires Distinct(a)
    ensures multiset(a)[x] <= 1
  {
    if a != [] {
      assert a == [a[0]] + a[1..];
      DistinctCount(a[1..], x);
      if a[0] == x {
        assert x !in a[1..];
      }
    }
  }

  /** The body of the loop of `get_closest_epoch`: walks the (sorted) list and stops at the first
      epoch `>` the query, answering the epoch before it. */
  function Scan(es: seq<Epoch>, prev: Epoch, e: Epoch): Epoch {
    if es == [] then prev
    else if Greater(es[0], e) then prev
    else Scan(es[1..], es[0], e)
  }

  /** `get_closest_epoch(epoch)` on a list already sorted. */
  function ClosestIn(es: seq<Epoch>, e: Epoch): (r: Result<Epoch>)
    ensures r.Err? <==> |es| == 0 || Less(e, es[0])
    ensures r.Err? ==> r.error == TimeSeriesError
  {
    if |es| == 0 then Err(TimeSeriesError)
    else if Less(e, es[0]) then Err(TimeSeriesError)
    else Ok(Scan(es, es[0], e))
  }

  /** The checks and the loop of `get_closest_epoch`, run over the epoch list. */
  method Closest(es: seq<Epoch>, e: Epoch) returns (r: Result<Epoch>)
    ensures r == ClosestIn(es, e)
  {
    if |es| == 0 {
      return Err(TimeSeriesError);
    }
    if Less(e, es[0]) {
      return Err(TimeSeriesError);
    }
    var prev := es[0];
    var i := 0;
    while i < |es|
      invariant 0 <= i <= |es|
      invariant Scan(es[i..], prev, e) == Scan(es, es[0], e)
    {
      if Greater(es[i], e) {
        return Ok(prev);
      }
      assert es[i..][1..] == es[i + 1..];
      prev := es[i];
      i := i + 1;
    }
    return Ok(prev);
  }

  /** On an ascending list `get_closest_epoch` fails exactly when no stored epoch is at or before
      the query, and otherwise answers the greatest stored epoch at or before it. */
  lemma ClosestIsFloor(es: seq<Epoch>, e: Epoch)
    requires Ascending(es)
    ensures ClosestIn(es, e).Err? <==> forall x :: x in es ==> Greater(x, e)
    ensures ClosestIn(es, e).Ok? ==>
              var r := ClosestIn(es, e).value;
              r in es && !Greater(r, e) && forall x :: x in es && !Greater(x, e) ==> !Greater(x, r)
  {
    if |es| > 0 {
      OrderFacts(e, es[0], e);
      if Less(e, es[0]) {
        forall x | x in es ensures Greater(x, e) {
          var m :| 0 <= m < |es| && es[m] == x;
          if m > 0 { OrderFacts(es[0], x, e); OrderFacts(x, es[0], e); }
        }
      } else {
        ScanIsFloor(es, 1, e);
      }
    }
  }

  lemma {:induction false} ScanIsFloor(all: seq<Epoch>, i: nat, e: Epoch)
    requires Ascending(all) && 1 <= i <= |all| && !Greater(all[i - 1], e)
    ensures var r := Scan(all[i..], all[i - 1], e);
            r in all && !Greater(r, e) && forall x :: x in all && !Greater(x, e) ==> !Greater(x, r)
    decreases |all| - i
  {
    var prev := all[i - 1];
    if i == |all| {
      forall x | x in all ensures !Greater(x, prev) {
        var m :| 0 <= m < |all| && all[m] == x;
        OrderFacts(prev, x, x);
      }
    } else if Greater(all[i], e) {
      forall x | x in all && !Greater(x, e) ensures !Greater(x, prev) {
        var m :| 0 <= m < |all| && all[m] == x;
        if m >= i {
          OrderFacts(all[i], x, e);
        } else {
          OrderFacts(prev, x, x);
        }
      }
    } else {
      assert all[i..][1..] == all[i + 1..];
      ScanIsFloor(all, i + 1, e);
    }
  }

  /** `get_common_epochs(series1, series2)`: the epochs of `xs` that also occur in `ys`,
      in the order of `xs`. */
  function CommonEpochs(xs: seq<Epoch>, ys: seq<Epoch>): (r: seq<Epoch>)
    ensures forall x :: x in r <==> x in xs && x in ys
    ensures |r| <= |xs|
    ensures Distinct(xs) ==> Distinct(r)
  {
    if xs == [] then []
    else
      var rest := CommonEpochs(xs[1..], ys);
      assert Distinct(xs) ==> Distinct(xs[1..]) && xs[0] !in xs[1..];
      if xs[0] in ys then [xs[0]] + rest else rest
  }

  /** `copy()`: the series sorted first, then rebuilt with `set_data` in sorted order, so the copy
      has the same epochs in the same order and the same values, and its own flag is cleared by
      the first insertion. */
  function Copied<V>(s: SeriesValue<V>): (r: SeriesValue<V>)
    requires Invariant(s)
    ensures Invariant(r) && r.epochs == SortedSeries(s).epochs && r.data == s.data
    ensures r.sorted <==> s.epochs == []
  {
    var t := SortedSeries(s);
    SeriesValue(t.epochs, t.data, t.epochs == [])
  }

  /** A `TimeSeries` object. */
  class TimeSeries<V> {
    var epochs: seq<Epoch>
    var data: map<Epoch, V>
    var isSorted: bool

    function Value(): SeriesValue<V> reads this { SeriesValue(epochs, data, isSorted) }

    ghost predicate Valid() reads this { Invariant(Value()) }

    constructor ()
      ensures Valid() && Value() == Empty()
    {
      epochs, data, isSorted := [], map[], true;
    }

    /** `set_data(epoch, value)` (and `series[epoch] = value`). */
    method SetData(e: Epoch, v: V)
      requires Valid()
      modifies this
      ensures Valid() && Value() == WithData(old(Value()), e, v)
    {
      data := data[e := v];
      if e !in epochs {
        epochs := epochs + [e];
        isSorted := false;
      }
    }

    /** `remove_data(epoch)`: KeyError for an absent epoch, else the removed value. */
    method RemoveData(e: Epoch) returns (r: Result<V>)
      requires Valid()
      modifies this
      ensures Valid()
      ensures var w := WithoutEpoch(old(Value()), e);
              if w.Err? then r == Err(KeyError) && Value() == old(Value())
              else r == Ok(w.value.1) && Value() == w.value.0
    {
      if e !in epochs {
        return Err(KeyError);
      }
      RemoveFirstDistinct(epochs, e);
      RemoveFirstAscending(epochs, e);
      var v := data[e];
      epochs := RemoveFirst(epochs, e);
      data := data - {e};
      return Ok(v);
    }

    /** `sort()`. */
    method Sort()
      requires Valid()
      modifies this
      ensures Valid() && Value() == SortedSeries(old(Value()))
    {
      if !isSorted {
        var es := SortEpochs(epochs);
        DistinctPermutation(epochs, es);
        epochs := es;
        isSorted := true;
      }
    }

    /** `get_all_epochs()`: sorts, then answers the epoch list. */
    method GetAllEpochs() returns (es: seq<Epoch>)
      requires Valid()
      modifies this
      ensures Valid() && Value() == SortedSeries(old(Value())) && es == epochs
    {
      Sort();
      es := epochs;
    }

    /** `get_data_for_epoch(epoch)`: sorts, then looks the epoch up. */
    method GetDataForEpoch(e: Epoch) returns (r: Result<V>)
      requires Valid()
      modifies this
      ensures Valid() && Value() == SortedSeries(old(Value()))
      ensures e in old(data) ==> r == Ok(old(data)[e])
      ensures e !in old(data) ==> r == Err(KeyError)
    {
      Sort();
      if e in data {
        r := Ok(data[e]);
      } else {
        r := Err(KeyError);
      }
    }

    /** `get_closest_epoch(epoch)`: sorts, then answers the greatest stored epoch at or before
        the query. */
    method GetClosestEpoch(e: Epoch) returns (r: Result<Epoch>)
      requires Valid()
      modifies this
      ensures Valid() && Value() == SortedSeries(old(Value()))
      ensures r == ClosestIn(epochs, e)
      ensures r.Err? <==> forall x :: x in epochs ==> Greater(x, e)
      ensures r.Ok? ==> r.value in epochs && !Greater(r.value, e)
                        && forall x :: x in epochs && !Greater(x, e) ==> !Greater(x, r.value)
    {
      Sort();
      r := Closest(epochs, e);
      ClosestIsFloor(epochs, e);
    }

    /** `TimeSeries.get_common_epochs(series1, series2)`; neither series is sorted first. */
    static method GetCommonEpochs(s1: TimeSeries<V>, s2: TimeSeries<V>) returns (r: seq<Epoch>)
      ensures r == CommonEpochs(s1.epochs, s2.epochs)
      ensures forall x :: x in r <==> x in s1.epochs && x in s2.epochs
    {
      r := [];
      var i := 0;
      while i < |s1.epochs|
        invariant 0 <= i <= |s1.epochs|
        invariant r + CommonEpochs(s1.epochs[i..], s2.epochs) == CommonEpochs(s1.epochs, s2.epochs)
      {
        assert s1.epochs[i..][1..] == s1.epochs[i + 1..];
        if s1.epochs[i] in s2.epochs {
          r := r + [s1.epochs[i]];
        }
        i := i + 1;
      }
    }

    /** `copy()`: sorts this series, then fills a new one entry by entry in sorted order. */
    method Copy() returns (c: TimeSeries<V>)
      requires Valid()
      modifies this
      ensures Valid() && Value() == SortedSeries(old(Value()))
      ensures fresh(c) && c.Valid() && c.Value() == Copied(old(Value()))
    {
      Sort();
      c := new TimeSeries();
      var i := 0;
      while i < |epochs|
        invariant 0 <= i <= |epochs|
        invariant c.Valid() && c.epochs == epochs[..i]
        invariant forall k :: k in c.data <==> k in epochs[..i]
        invariant forall k :: k in c.data ==> k in data && c.data[k] == data[k]
        invariant c.isSorted <==> i == 0
        invariant Value() == SortedSeries(old(Value()))
      {
        assert epochs[..i + 1] == epochs[..i] + [epochs[i]];
        assert epochs[i] !in epochs[..i];
        c.SetData(epochs[i], data[epochs[i]]);
        i := i + 1;
      }
      assert epochs[..i] == epochs;
      assert c.data == data;
    }

    /** `has_epoch(epoch)`. */
    function HasEpoch(e: Epoch): (b: bool)
      reads this
      requires Valid()
      ensures b <==> e in data
    {
      e in epochs
    }

    /** `is_empty()`: sorts (through `get_all_epochs`), then tests for no epochs. */
    method IsEmpty() returns (b: bool)
      requires Valid()
      modifies this
      ensures Valid() && Value() == SortedSeries(old(Value()))
      ensures b <==> old(data) == map[]
    {
      var es := GetAllEpochs();
      b := |es| == 0;
      assert b ==> data == map[];
      if !b {
        assert es[0] in data;
      }
    }
  }
}
