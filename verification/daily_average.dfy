/** `transform_data`: group the rows by (calendar date, zone) and give each
    group the arithmetic mean of its prices, one output row per group and
    the groups sorted by key, as a pandas group-by does. Prices are reals,
    so the mean is exact. */
module DailyAverage {
  import opened Calendar
  import opened PriceSchedule
  import opened PriceRows

  /** A group: a calendar date and a zone. */
  datatype Key = Key(date: Date, zone: Zone)

  /** A row of the transformed frame: date, zone, avg_price. */
  datatype AvgRow = AvgRow(date: Date, zone: Zone, avgPrice: real)

  /** Zones sort as their names do: "SE1" < "SE2" < "SE3" < "SE4". */
  function ZoneRank(z: Zone): nat
  {
    match z
    case SE1 => 1
    case SE2 => 2
    case SE3 => 3
    case SE4 => 4
  }

  /** The grouping key of a row: the calendar date of its timestamp and its zone. */
  function KeyOf(r: PriceRow): Key
  {
    Key(r.timestamp.date, r.zone)
  }

  function RowKey(a: AvgRow): Key
  {
    Key(a.date, a.zone)
  }

  predicate KeyBefore(a: Key, b: Key)
  {
    Before(a.date, b.date) || (a.date == b.date && ZoneRank(a.zone) < ZoneRank(b.zone))
  }

  predicate StrictlySorted(ks: seq<Key>)
  {
    forall i, j :: 0 <= i < j < |ks| ==> KeyBefore(ks[i], ks[j])
  }

  predicate HasKey(rows: seq<PriceRow>, k: Key)
  {
    exists i :: 0 <= i < |rows| && KeyOf(rows[i]) == k
  }

  /** Adds a key to a strictly sorted sequence of keys, keeping it so. */
  function Insert(ks: seq<Key>, k: Key): (r: seq<Key>)
    requires StrictlySorted(ks)
    ensures StrictlySorted(r)
    ensures forall x :: x in r <==> x in ks || x == k
  {
    if ks == [] then [k]
    else if k == ks[0] then ks
    else if KeyBefore(k, ks[0]) then [k] + ks
    else
      var tail := Insert(ks[1..], k);
      assert forall x :: x in tail ==> KeyBefore(ks[0], x);
      [ks[0]] + tail
  }

  /** The distinct keys of the rows, in increasing order. */
  function GroupKeys(rows: seq<PriceRow>): (ks: seq<Key>)
    ensures StrictlySorted(ks)
    ensures forall k :: k in ks <==> HasKey(rows, k)
  {
    if rows == [] then []
    else
      var init := rows[..|rows| - 1];
      var ks := Insert(GroupKeys(init), KeyOf(rows[|rows| - 1]));
      assert forall k :: HasKey(init, k) ==> HasKey(rows, k) by {
        forall k | HasKey(init, k) ensures HasKey(rows, k) {
          var i :| 0 <= i < |init| && KeyOf(init[i]) == k;
          assert rows[i] == init[i];
        }
      }
      assert forall k :: HasKey(rows, k) ==> HasKey(init, k) || k == KeyOf(rows[|rows| - 1]) by {
        forall k | HasKey(rows, k) ensures HasKey(init, k) || k == KeyOf(rows[|rows| - 1]) {
          var i :| 0 <= i < |rows| && KeyOf(rows[i]) == k;
          if i < |init| { assert init[i] == rows[i]; }
        }
      }
      ks
  }

  /** The prices of the rows of group `k`, in row order. */
  function PricesOf(rows: seq<PriceRow>, k: Key): (ps: seq<real>)
    ensures |ps| > 0 <==> HasKey(rows, k)
  {
    if rows == [] then []
    else
      var init := rows[..|rows| - 1];
      var last := rows[|rows| - 1];
      var ps := PricesOf(init, k) + (if KeyOf(last) == k then [last.price] else []);
      assert HasKey(init, k) ==> HasKey(rows, k) by {
        if HasKey(init, k) {
          var i :| 0 <= i < |init| && KeyOf(init[i]) == k;
          assert rows[i] == init[i];
        }
      }
      assert HasKey(rows, k) ==> HasKey(init, k) || KeyOf(last) == k by {
        if HasKey(rows, k) {
          var i :| 0 <= i < |rows| && KeyOf(rows[i]) == k;
          if i < |init| { assert init[i] == rows[i]; }
        }
      }
      ps
  }

  function Sum(xs: seq<real>): real
  {
    if xs == [] then 0.0 else Sum(xs[..|xs| - 1]) + xs[|xs| - 1]
  }

  /** The arithmetic mean, as pandas' `mean` of a non-empty group. */
  function Mean(xs: seq<real>): real
    requires |xs| > 0
  {
    Sum(xs) / (|xs| as real)
  }

  /** `df.groupby(['date', 'zone']).agg(avg_price=('price', 'mean')).reset_index()`. */
  function Transform(rows: seq<PriceRow>): seq<AvgRow>
  {
    var ks := GroupKeys(rows);
    seq(|ks|, i requires 0 <= i < |ks| => AvgRow(ks[i].date, ks[i].zone, Mean(PricesOf(rows, ks[i]))))
  }

  /** Exactly one output row per distinct (date, zone) of the input: every
      input group has a row, every row is an input group, and the rows are
      strictly increasing by key, so no group appears twice. */
  lemma TransformGroups(rows: seq<PriceRow>)
    ensures var out := Transform(rows);
      (forall j1, j2 :: 0 <= j1 < j2 < |out| ==> KeyBefore(RowKey(out[j1]), RowKey(out[j2])))
      && (forall j :: 0 <= j < |out| ==> HasKey(rows, RowKey(out[j])))
      && (forall i :: 0 <= i < |rows| ==> exists j :: 0 <= j < |out| && RowKey(out[j]) == KeyOf(rows[i]))
  {
    var out, ks := Transform(rows), GroupKeys(rows);
    assert forall j :: 0 <= j < |out| ==> RowKey(out[j]) == ks[j];
    forall i | 0 <= i < |rows|
      ensures exists j :: 0 <= j < |out| && RowKey(out[j]) == KeyOf(rows[i])
    {
      assert HasKey(rows, KeyOf(rows[i]));
      var j :| 0 <= j < |ks| && ks[j] == KeyOf(rows[i]);
      assert RowKey(out[j]) == KeyOf(rows[i]);
    }
  }

  /** The sum of the prices of group `k`, read straight off the rows. */
  function GroupSum(rows: seq<PriceRow>, k: Key): real
  {
    if rows == [] then 0.0
    else GroupSum(rows[..|rows| - 1], k) + (if KeyOf(rows[|rows| - 1]) == k then rows[|rows| - 1].price else 0.0)
  }

  /** The number of rows of group `k`. */
  function GroupSize(rows: seq<PriceRow>, k: Key): nat
  {
    if rows == [] then 0
    else GroupSize(rows[..|rows| - 1], k) + (if KeyOf(rows[|rows| - 1]) == k then 1 else 0)
  }

  lemma {:induction false} PricesOfSums(rows: seq<PriceRow>, k: Key)
    ensures |PricesOf(rows, k)| == GroupSize(rows, k)
    ensures Sum(PricesOf(rows, k)) == GroupSum(rows, k)
  {
    if rows != [] {
      var init, last := rows[..|rows| - 1], rows[|rows| - 1];
      PricesOfSums(init, k);
      var ps := PricesOf(init, k);
      if KeyOf(last) == k {
        assert PricesOf(rows, k) == ps + [last.price];
        assert (ps + [last.price])[..|ps|] == ps;
      } else {
        assert PricesOf(rows, k) == ps;
      }
    }
  }

  /** The mean of group `k` is the group's total price over its size. */
  lemma GroupMean(rows: seq<PriceRow>, k: Key)
    requires HasKey(rows, k)
    ensures GroupSize(rows, k) > 0
    ensures Mean(PricesOf(rows, k)) == GroupSum(rows, k) / (GroupSize(rows, k) as real)
  {
    PricesOfSums(rows, k);
  }

  /** Each output row's `avg_price` is the mean of its group: the total
      price of the input rows with that date and zone over their number. */
  lemma TransformMean(rows: seq<PriceRow>)
    ensures var out := Transform(rows);
      forall j :: 0 <= j < |out| ==>
        GroupSize(rows, RowKey(out[j])) > 0
        && out[j].avgPrice == GroupSum(rows, RowKey(out[j])) / (GroupSize(rows, RowKey(out[j])) as real)
  {
    var out, ks := Transform(rows), GroupKeys(rows);
    forall j | 0 <= j < |out|
      ensures GroupSize(rows, RowKey(out[j])) > 0
      ensures out[j].avgPrice == GroupSum(rows, RowKey(out[j])) / (GroupSize(rows, RowKey(out[j])) as real)
    {
      assert ks[j] in ks;
      assert out[j] == AvgRow(ks[j].date, ks[j].zone, Mean(PricesOf(rows, ks[j])));
      GroupMean(rows, ks[j]);
    }
  }

  lemma {:induction false} SumBounds(xs: seq<real>, lo: real, hi: real)
    requires forall i :: 0 <= i < |xs| ==> lo <= xs[i] <= hi
    ensures (|xs| as real) * lo <= Sum(xs) <= (|xs| as real) * hi
  {
    if xs != [] {
      SumBounds(xs[..|xs| - 1], lo, hi);
    }
  }

  lemma DivBounds(s: real, n: real, lo: real, hi: real)
    requires n > 0.0 && n * lo <= s <= n * hi
    ensures lo <= s / n <= hi
  {
  }

  /** A mean lies between any lower and upper bound of the values. */
  lemma MeanBounds(xs: seq<real>, lo: real, hi: real)
    requires |xs| > 0
    requires forall i :: 0 <= i < |xs| ==> lo <= xs[i] <= hi
    ensures lo <= Mean(xs) <= hi
  {
    SumBounds(xs, lo, hi);
    DivBounds(Sum(xs), |xs| as real, lo, hi);
  }

  lemma {:induction false} PricesOfFrom(rows: seq<PriceRow>, k: Key, x: real)
    requires x in PricesOf(rows, k)
    ensures exists i :: 0 <= i < |rows| && KeyOf(rows[i]) == k && rows[i].price == x
  {
    var init := rows[..|rows| - 1];
    if x in PricesOf(init, k) {
      PricesOfFrom(init, k, x);
      var i :| 0 <= i < |init| && KeyOf(init[i]) == k && init[i].price == x;
      assert rows[i] == init[i];
    } else {
      assert KeyOf(rows[|rows| - 1]) == k && rows[|rows| - 1].price == x;
    }
  }

  /** Every daily average lies between the lowest and the highest input
      price; in particular a group whose prices are all equal keeps that price. */
  lemma TransformWithinBounds(rows: seq<PriceRow>, lo: real, hi: real)
    requires forall i :: 0 <= i < |rows| ==> lo <= rows[i].price <= hi
    ensures var out := Transform(rows);
      forall j :: 0 <= j < |out| ==> lo <= out[j].avgPrice <= hi
  {
    var out, ks := Transform(rows), GroupKeys(rows);
    forall j | 0 <= j < |out|
      ensures lo <= out[j].avgPrice <= hi
    {
      var ps := PricesOf(rows, ks[j]);
      forall m | 0 <= m < |ps|
        ensures lo <= ps[m] <= hi
      {
        PricesOfFrom(rows, ks[j], ps[m]);
      }
      MeanBounds(ps, lo, hi);
    }
  }

  lemma {:induction false} GroupKeysOfOneGroup(rows: seq<PriceRow>, k: Key)
    requires |rows| > 0
    requires forall i :: 0 <= i < |rows| ==> KeyOf(rows[i]) == k
    ensures GroupKeys(rows) == [k]
  {
    if |rows| > 1 {
      GroupKeysOfOneGroup(rows[..|rows| - 1], k);
    }
  }

  /** Rows that all share one date and one zone, as a response for a
      single day usually does, average to a single row with that key. */
  lemma TransformSingleGroup(rows: seq<PriceRow>, k: Key)
    requires |rows| > 0
    requires forall i :: 0 <= i < |rows| ==> KeyOf(rows[i]) == k
    ensures |Transform(rows)| == 1 && RowKey(Transform(rows)[0]) == k
  {
    var ks := GroupKeys(rows);
    GroupKeysOfOneGroup(rows, k);
  }

  /** Every output row carries a zone of the input. */
  lemma TransformZones(rows: seq<PriceRow>, z: Zone)
    requires forall i :: 0 <= i < |rows| ==> rows[i].zone == z
    ensures forall j :: 0 <= j < |Transform(rows)| ==> Transform(rows)[j].zone == z
  {
    TransformGroups(rows);
  }
}
