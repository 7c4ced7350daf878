/** `prepareChartData` of src/screens/HistoryScreen.js: at most 30 of the
    most recent readings of the window, put back in chronological order,
    readings without a value dropped, and a label on every `step`-th point. */
module ChartSampler {
  import opened Values
  import opened Readings

  const MaxPoints: nat := 30

  /** The first (most recent) thirty readings of the window, or all of
      them when there are fewer. */
  function Recent(window: seq<Reading>): (s: seq<Reading>)
    ensures |s| == if |window| < MaxPoints then |window| else MaxPoints
    ensures s == window[..|s|]
  {
    if |window| <= MaxPoints then window else window[..MaxPoints]
  }

  /** The elements of `s` from last to first. */
  function Reverse<T>(s: seq<T>): (r: seq<T>)
    ensures |r| == |s|
    ensures forall k :: 0 <= k < |s| ==> r[k] == s[|s| - 1 - k]
  {
    if s == [] then [] else Reverse(s[1..]) + [s[0]]
  }

  /** One chart point: the reading's date and the value of the configured field. */
  datatype Point = Point(at: Option<int>, value: real)

  /** One point per reading whose field `f` holds a number (neither null
      nor undefined), with that reading's date, in the readings' order. */
  function PointsOf(s: seq<Reading>, f: Field): (ps: seq<Point>)
    ensures |ps| <= |s|
    ensures ps == [] <==> forall r :: r in s ==> !IsPresent(FieldOf(r, f))

  {
    if s == [] then []
    else
      var rest := PointsOf(s[1..], f);
      assert forall r :: r in s[1..] ==> r in s;
      match FieldOf(s[0], f)
      case Num(v) => [Point(s[0].timestamp, v)] + rest
      case _ => rest
  }

  /** Every point comes from a reading of `s` with a numeric field `f`, and
      every such reading gives a point. */
  lemma {:induction false} PointsOfContent(s: seq<Reading>, f: Field)
    ensures forall p :: p in PointsOf(s, f) ==>
      exists r :: r in s && r.timestamp == p.at && FieldOf(r, f) == Num(p.value)
    ensures forall r :: r in s && FieldOf(r, f).Num? ==> Point(r.timestamp, FieldOf(r, f).n) in PointsOf(s, f)
  {
    if s != [] {
      PointsOfContent(s[1..], f);
      assert s == [s[0]] + s[1..];
    }
  }

  /** The values of the points, in order. */
  function ValuesOf(ps: seq<Point>): (vs: seq<real>)
    ensures |vs| == |ps|
    ensures forall i :: 0 <= i < |ps| ==> vs[i] == ps[i].value
  {
    seq(|ps|, i requires 0 <= i < |ps| => ps[i].value)
  }

  /** The present values of field `f` across `s`, in order. */
  function DefinedValues(s: seq<Reading>, f: Field): seq<real> {
    ValuesOf(PointsOf(s, f))
  }

  lemma {:induction false} PointsOfAppend(a: seq<Reading>, b: seq<Reading>, f: Field)
    ensures PointsOf(a + b, f) == PointsOf(a, f) + PointsOf(b, f)
  {
    if a != [] {
      assert (a + b)[1..] == a[1..] + b;
      PointsOfAppend(a[1..], b, f);
    } else {
      assert a + b == b;
    }
  }

  /** Dropping absent values commutes with putting the readings in
      chronological order. */
  lemma {:induction false} PointsOfReverse(s: seq<Reading>, f: Field)
    ensures PointsOf(Reverse(s), f) == Reverse(PointsOf(s, f))
  {
    if s != [] {
      PointsOfReverse(s[1..], f);
      PointsOfAppend(Reverse(s[1..]), [s[0]], f);
      assert [s[0]][1..] == [];
      var rest := PointsOf(s[1..], f);
      match FieldOf(s[0], f)
      case Num(v) =>
        var p := Point(s[0].timestamp, v);
        assert ([p] + rest)[1..] == rest;
      case _ =>
    }
  }

  lemma ValuesOfReverse(ps: seq<Point>)
    ensures ValuesOf(Reverse(ps)) == Reverse(ValuesOf(ps))
  {
    forall k | 0 <= k < |ps|
      ensures ValuesOf(Reverse(ps))[k] == Reverse(ValuesOf(ps))[k]
    {
    }
  }

  /** The three label styles of `formatLabel`. */
  datatype LabelKind = HourMinute | WeekdayHour | MonthDay

  /** An x-axis label: either '' or the point's date rendered in some style. */
  datatype Label = Blank | Stamp(kind: LabelKind, at: Option<int>)

  /** The branch of `formatLabel` taken for the selected range. The `<= 1`
      and `<= 24` branches render alike. */
  function LabelKindFor(hours: int): (k: LabelKind)
    ensures k == HourMinute <==> hours <= 24
    ensures k == WeekdayHour <==> 24 < hours <= 168
    ensures k == MonthDay <==> 168 < hours
  {
    if hours <= 1 then HourMinute
    else if hours <= 24 then HourMinute
    else if hours <= 168 then WeekdayHour
    else MonthDay
  }

  /** The label spacing: a sixth of the point count, rounded down, and at
      least one. */
  function Step(n: nat): (step: nat)
    ensures 1 <= step
    ensures n >= 12 ==> step * 6 <= n < (step + 1) * 6
    ensures n < 12 ==> step == 1
  {
    if n / 6 > 1 then n / 6 else 1
  }

  /** One label per point: the point's own date in style `kind` at every
      `step`-th position starting from the first, blank elsewhere. */
  function LabelsFor(points: seq<Point>, kind: LabelKind): (labels: seq<Label>)
    ensures |labels| == |points|
    ensures forall i :: 0 <= i < |points| ==> (labels[i].Stamp? <==> i % Step(|points|) == 0)
    ensures forall i :: 0 <= i < |points| && labels[i].Stamp? ==>
      labels[i] == Stamp(kind, points[i].at)
  {
    var step := Step(|points|);
    seq(|points|, i requires 0 <= i < |points| =>
      if i % step == 0 then Stamp(kind, points[i].at) else Blank)
  }

  datatype ChartSeries = ChartSeries(labels: seq<Label>, data: seq<real>)

  /** `prepareChartData()`: None stands for `null`, the "no data" chart. */
  function PrepareChartData(window: seq<Reading>, f: Field, hours: int): (r: Option<ChartSeries>)
    ensures r.None? <==> forall x :: x in Recent(window) ==> !IsPresent(FieldOf(x, f))
    ensures r.Some? ==> 1 <= |r.value.data| <= MaxPoints && |r.value.labels| == |r.value.data|
    ensures r.Some? ==> r.value.data == Reverse(DefinedValues(Recent(window), f))
    ensures r.Some? ==> |r.value.labels| == |PointsOf(Reverse(Recent(window)), f)|
    ensures r.Some? ==> forall i :: 0 <= i < |r.value.labels| ==>
      (r.value.labels[i].Stamp? <==> i % Step(|r.value.data|) == 0)
    ensures r.Some? ==> forall i :: 0 <= i < |r.value.labels| && r.value.labels[i].Stamp? ==>
      && r.value.labels[i].kind == LabelKindFor(hours)
      && r.value.labels[i].at == PointsOf(Reverse(Recent(window)), f)[i].at
  {
    var points := PointsOf(Reverse(Recent(window)), f);
    PointsOfReverse(Recent(window), f);
    ValuesOfReverse(PointsOf(Recent(window), f));
    if points == [] then None
    else Some(ChartSeries(LabelsFor(points, LabelKindFor(hours)), ValuesOf(points)))
  }

  /** Number of non-empty labels. */
  function CountStamped(labels: seq<Label>): nat {
    if labels == [] then 0
    else CountStamped(labels[..|labels| - 1]) + (if labels[|labels| - 1].Stamp? then 1 else 0)
  }

  /** Number of indices `i < n` with `i % step == 0`. */
  function Multiples(n: nat, step: nat): nat
    requires step >= 1
  {
    if n == 0 then 0 else Multiples(n - 1, step) + (if (n - 1) % step == 0 then 1 else 0)
  }

  lemma DivExact(q: int, t: int, d: int)
    requires d >= 1 && 0 <= t < d
    ensures (q * d + t) / d == q
  {
    var a := q * d + t;
    var k := q - a / d;
    assert k * d == a % d - t by {
      assert a == (a / d) * d + a % d;
    }
  }

  /** Going from m to m + 1 raises ceil(m / step) by one exactly when m is
      a multiple of step. */
  lemma CeilStep(m: nat, step: nat)
    requires step >= 1
    ensures (m + step) / step == (m + step - 1) / step + (if m % step == 0 then 1 else 0)
  {
    var q, r := m / step, m % step;
    assert m == q * step + r;
    if r == 0 {
      DivExact(q, step - 1, step);
      DivExact(q + 1, 0, step);
      assert m + step - 1 == q * step + (step - 1);
      assert m + step == (q + 1) * step + 0;
    } else {
      DivExact(q + 1, r - 1, step);
      DivExact(q + 1, r, step);
      assert m + step - 1 == (q + 1) * step + (r - 1);
      assert m + step == (q + 1) * step + r;
    }
  }

  /** Exactly `ceil(n / step)` indices below `n` are multiples of `step`. */
  lemma {:induction false} MultiplesCount(n: nat, step: nat)
    requires step >= 1
    ensures Multiples(n, step) == (n + step - 1) / step
  {
    if n > 0 {
      MultiplesCount(n - 1, step);
      CeilStep(n - 1, step);
    }
  }

  lemma {:induction false} CountStampedIsMultiples(labels: seq<Label>, step: nat)
    requires step >= 1
    requires forall i :: 0 <= i < |labels| ==> (labels[i].Stamp? <==> i % step == 0)
    ensures CountStamped(labels) == Multiples(|labels|, step)
  {
    if labels != [] {
      var init := labels[..|labels| - 1];
      assert forall i :: 0 <= i < |init| ==> init[i] == labels[i];
      CountStampedIsMultiples(init, step);
    }
  }

  /** A chart of n points carries exactly ceil(n / step) non-empty labels. */
  lemma StampedLabelCount(window: seq<Reading>, f: Field, hours: int)
    requires PrepareChartData(window, f, hours).Some?
    ensures var c := PrepareChartData(window, f, hours).value;
      var n := |c.data|;
      CountStamped(c.labels) == (n + Step(n) - 1) / Step(n)
  {
    var c := PrepareChartData(window, f, hours).value;
    CountStampedIsMultiples(c.labels, Step(|c.data|));
    MultiplesCount(|c.data|, Step(|c.data|));
  }

  /** Fewer than six points: every point is labelled. */
  lemma FewPointsAllLabelled(window: seq<Reading>, f: Field, hours: int)
    requires PrepareChartData(window, f, hours).Some?
    requires |PrepareChartData(window, f, hours).value.data| < 6
    ensures var c := PrepareChartData(window, f, hours).value;
      CountStamped(c.labels) == |c.labels|
  {
    StampedLabelCount(window, f, hours);
  }

  /** A full chart of thirty points carries exactly six labels. */
  lemma FullChartSixLabels(window: seq<Reading>, f: Field, hours: int)
    requires PrepareChartData(window, f, hours).Some?
    requires |PrepareChartData(window, f, hours).value.data| == MaxPoints
    ensures CountStamped(PrepareChartData(window, f, hours).value.labels) == 6
  {
    StampedLabelCount(window, f, hours);
  }
}
