/** The numbers behind `renderStats` of src/screens/HistoryScreen.js:
    minimum, maximum and mean of the present values of the configured
    field over the whole window (not capped at 30 readings). */
module Stats {
  import opened Values
  import opened Readings
  import opened ChartSampler
  import opened RangeFilter

  datatype Summary = NoData | Summary(min: real, max: real, avg: real)

  /** The least of the values. */
  function MinOf(vs: seq<real>): (m: real)
    requires vs != []
    ensures m in vs
    ensures forall v :: v in vs ==> m <= v
  {
    if |vs| == 1 then vs[0]
    else
      var rest := MinOf(vs[1..]);
      assert forall v :: v in vs ==> v == vs[0] || v in vs[1..];
      if vs[0] <= rest then vs[0] else rest
  }

  /** The greatest of the values. */
  function MaxOf(vs: seq<real>): (m: real)
    requires vs != []
    ensures m in vs
    ensures forall v :: v in vs ==> v <= m
  {
    if |vs| == 1 then vs[0]
    else
      var rest := MaxOf(vs[1..]);
      assert forall v :: v in vs ==> v == vs[0] || v in vs[1..];
      if vs[0] >= rest then vs[0] else rest
  }

  /** The total of the values. */
  function Sum(vs: seq<real>): real {
    if vs == [] then 0.0 else vs[0] + Sum(vs[1..])
  }

  /** The sum lies between count times the least and count times the greatest value. */
  lemma {:induction false} SumBounds(vs: seq<real>, lo: real, hi: real)
    requires forall v :: v in vs ==> lo <= v <= hi
    ensures |vs| as real * lo <= Sum(vs) <= |vs| as real * hi
  {
    if vs != [] {
      assert forall v :: v in vs[1..] ==> v in vs;
      SumBounds(vs[1..], lo, hi);
      assert vs[0] in vs;
      BoundsStep(vs[0], Sum(vs[1..]), |vs[1..]| as real, lo, hi);
      assert |vs| as real == |vs[1..]| as real + 1.0;
    }
  }

  /** One more value within the bounds widens the bounds on the total by
      one more copy of each. */
  lemma BoundsStep(x: real, rest: real, n: real, lo: real, hi: real)
    requires lo <= x <= hi && n * lo <= rest <= n * hi
    ensures (n + 1.0) * lo <= x + rest <= (n + 1.0) * hi
  {
    assert (n + 1.0) * lo == n * lo + lo;
    assert (n + 1.0) * hi == n * hi + hi;
  }

  /** Adding the values left to right, as a reduction from 0 does, gives
      the same total: appending a value adds it. */
  lemma {:induction false} SumSnoc(vs: seq<real>, v: real)
    ensures Sum(vs + [v]) == Sum(vs) + v
  {
    if vs != [] {
      assert (vs + [v])[1..] == vs[1..] + [v];
      SumSnoc(vs[1..], v);
    }
  }

  /** Real-arithmetic step for the mean in `Summarize`: a sum between n
      times two bounds, divided by n, lies between those bounds. */
  lemma MeanBetween(sum: real, n: real, lo: real, hi: real)
    requires n > 0.0 && n * lo <= sum <= n * hi
    ensures (sum / n) * n == sum
    ensures lo <= sum / n <= hi
  {
  }

  /** The summary of `vs`, with the mean taken over exact reals. */
  function Summarize(vs: seq<real>): (s: Summary)
    ensures s.NoData? <==> vs == []
    ensures s.Summary? ==> s.min in vs && s.max in vs
    ensures s.Summary? ==> forall v :: v in vs ==> s.min <= v <= s.max
    ensures s.Summary? ==> s.avg * |vs| as real == Sum(vs)
    ensures s.Summary? ==> s.min <= s.avg <= s.max
  {
    if vs == [] then NoData
    else
      var lo, hi := MinOf(vs), MaxOf(vs);
      var total, n := Sum(vs), |vs| as real;
      SumBounds(vs, lo, hi);
      MeanBetween(total, n, lo, hi);
      Summary(lo, hi, total / n)
  }

  /** The present values of the window are exactly the numbers its
      readings hold in field `f`. */
  lemma WindowValues(window: seq<Reading>, f: Field)
    ensures forall r :: r in window && FieldOf(r, f).Num? ==> FieldOf(r, f).n in DefinedValues(window, f)
    ensures forall v :: v in DefinedValues(window, f) ==> exists r :: r in window && FieldOf(r, f) == Num(v)
  {
    var ps := PointsOf(window, f);
    PointsOfContent(window, f);
    forall r | r in window && FieldOf(r, f).Num?
      ensures FieldOf(r, f).n in DefinedValues(window, f)
    {
      var i :| 0 <= i < |ps| && ps[i] == Point(r.timestamp, FieldOf(r, f).n);
      assert DefinedValues(window, f)[i] == FieldOf(r, f).n;
    }
    forall v | v in DefinedValues(window, f)
      ensures exists r :: r in window && FieldOf(r, f) == Num(v)
    {
      var i :| 0 <= i < |ps| && DefinedValues(window, f)[i] == v;
      assert ps[i] in ps;
    }
  }

  /** The figures `renderStats` shows for field `f`, taken over every
      reading of the window, not only the thirty the chart draws. */
  function WindowStats(window: seq<Reading>, f: Field): (s: Summary)
    ensures s.NoData? <==> forall r :: r in window ==> !IsPresent(FieldOf(r, f))
    ensures s.Summary? ==> s.min <= s.avg <= s.max
    ensures s.Summary? ==>
      && DefinedValues(window, f) != []
      && s.avg == Sum(DefinedValues(window, f)) / |DefinedValues(window, f)| as real
  {
    SummaryMean(DefinedValues(window, f));
    Summarize(DefinedValues(window, f))
  }

  /** The minimum and maximum of the window's summary are numbers some
      reading of the window holds, and they bound what every reading of
      the window holds, including readings past the thirtieth. */
  lemma WindowStatsBounds(window: seq<Reading>, f: Field)
    requires WindowStats(window, f).Summary?
    ensures var s := WindowStats(window, f);
      && (forall r :: r in window && FieldOf(r, f).Num? ==> s.min <= FieldOf(r, f).n <= s.max)
      && (exists r :: r in window && FieldOf(r, f) == Num(s.min))
      && (exists r :: r in window && FieldOf(r, f) == Num(s.max))
  {
    WindowValues(window, f);
  }

  /** The mean of a summary lies between its minimum and maximum, and
      times the number of values gives their total. */
  lemma SummaryMean(vs: seq<real>)
    ensures var s := Summarize(vs);
      s.Summary? ==> s.min <= s.avg <= s.max && s.avg * |vs| as real == Sum(vs)
  {
  }

  /** A worked window: 09:00 at 20 degrees, 08:00 at 22, 06:00 with no
      temperature; at 09:30 with the 24h range all three readings are in the
      window and the summary ignores the missing value. */
  lemma ThreeReadingExample()
    ensures var data := [
        Reading(Some(9 * MsPerHour), Num(20.0), Null, Null, Null, Null),
        Reading(Some(8 * MsPerHour), Num(22.0), Null, Null, Null, Null),
        Reading(Some(6 * MsPerHour), Null, Null, Null, Null, Null)];
      var window := FilterByRange(data, 24, 9 * MsPerHour + 30 * 60000);
      window == data && WindowStats(window, AirTemperature) == Summary(20.0, 22.0, 21.0)
  {
    var a := Reading(Some(9 * MsPerHour), Num(20.0), Null, Null, Null, Null);
    var b := Reading(Some(8 * MsPerHour), Num(22.0), Null, Null, Null, Null);
    var c := Reading(Some(6 * MsPerHour), Null, Null, Null, Null, Null);
    var data := [a, b, c];
    KeepAll(data, Cutoff(24, 9 * MsPerHour + 30 * 60000));
    ExampleValues(a, b, c);
    ExampleSummary();
  }

  /** The summary of the worked window's two temperatures. */
  lemma ExampleSummary()
    ensures Summarize([20.0, 22.0]) == Summary(20.0, 22.0, 21.0)
  {
    var vs := [20.0, 22.0];
    assert vs[1..] == [22.0] && vs[1..][1..] == [];
    assert MinOf(vs) == 20.0 && MaxOf(vs) == 22.0;
    assert Sum(vs) == 42.0;
  }

  /** The temperatures the worked window yields, in order. */
  lemma ExampleValues(a: Reading, b: Reading, c: Reading)
    requires a.airTemperature == Num(20.0) && b.airTemperature == Num(22.0) && c.airTemperature == Null
    ensures DefinedValues([a, b, c], AirTemperature) == [20.0, 22.0]
  {
    assert [a, b, c][1..] == [b, c] && [b, c][1..] == [c] && [c][1..] == [];
    assert PointsOf([c], AirTemperature) == [];
    assert PointsOf([b, c], AirTemperature) == [Point(b.timestamp, 22.0)];
    assert PointsOf([a, b, c], AirTemperature) == [Point(a.timestamp, 20.0), Point(b.timestamp, 22.0)];
  }
}
