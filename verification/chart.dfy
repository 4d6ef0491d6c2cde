/** `prepareChartData` of the income and expense pages (the two pages hold the same function):
    the fetched records are grouped by the calendar-day label of their date, each group's
    amounts are summed, and the groups are stably sorted by the day the label stands for.
    The label of a date (`toLocaleDateString('en-IN', …)`) and the time a label parses back
    to (`new Date(label)`) are parameters: `labelOf` and `rank`. A point's `date` field is
    its label, and `day` names such a label below. */
module Chart {
  import opened Ledger
  import Seqs

  /** One bar of the chart: `{date, amount}`. */
  datatype Point = Point(date: string, amount: int)

  function PointAmount(p: Point): int {
    p.amount
  }

  /** One step of `forEach`: add `amount` to the group of `day`, creating it at the end
      (`Object.entries` lists string keys in insertion order) when it is new. The `if
      (!groupedByDate[date])` reset only ever resets a group whose sum is already 0. */
  function AddTo(ps: seq<Point>, day: string, amount: int): (r: seq<Point>)
    ensures |r| == |ps| || |r| == |ps| + 1
  {
    if ps == [] then [Point(day, amount)]
    else if ps[0].date == day then [ps[0].(amount := ps[0].amount + amount)] + ps[1..]
    else [ps[0]] + AddTo(ps[1..], day, amount)
  }

  /** The `groupedByDate` object after visiting `s` from first to last: there is never more
      than one entry per record, and there is one as soon as there is a record. */
  function Group(s: seq<Txn>, labelOf: int -> string): (r: seq<Point>)
    ensures |r| <= |s|
    ensures r == [] <==> s == []
  {
    if s == [] then []
    else
      var last := s[|s| - 1];
      AddTo(Group(s[..|s| - 1], labelOf), labelOf(last.date), last.amount)
  }

  /** The sort key: `(a, b) => new Date(a.date) - new Date(b.date)` is ascending, so the
      descending sort of the model runs on the negated day. */
  function ChartKey(rank: string -> int): Point -> int {
    (p: Point) => -rank(p.date)
  }

  /** `prepareChartData`: the groups, sorted ascending by day; `Array.prototype.sort` is stable,
      so groups of the same day keep their first-seen order. */
  function PrepareChartData(s: seq<Txn>, labelOf: int -> string, rank: string -> int): (r: seq<Point>)
    ensures forall i, j :: 0 <= i < j < |r| ==> rank(r[i].date) <= rank(r[j].date)
  {
    var r := Seqs.SortDesc(ChartKey(rank), Group(s, labelOf));
    assert forall i, j :: 0 <= i < j < |r| ==> ChartKey(rank)(r[i]) >= ChartKey(rank)(r[j]);
    r
  }

  function PointLabel(p: Point): string {
    p.date
  }

  /** No two points share a label. */
  predicate LabelsDistinct(ps: seq<Point>) {
    Seqs.DistinctBy(PointLabel, ps)
  }

  predicate HasLabel(ps: seq<Point>, day: string) {
    exists i :: 0 <= i < |ps| && ps[i].date == day
  }

  /** Some record of `s` has the label `day`. */
  predicate Mentions(s: seq<Txn>, labelOf: int -> string, day: string) {
    exists k :: 0 <= k < |s| && labelOf(s[k].date) == day
  }

  /** The amount of the first point labelled `day`, 0 when there is none. */
  function AmountAt(ps: seq<Point>, day: string): int {
    if ps == [] then 0 else if ps[0].date == day then ps[0].amount else AmountAt(ps[1..], day)
  }

  /** The sum of the amounts of the records of `s` whose label is `day`. */
  function LabelSum(s: seq<Txn>, labelOf: int -> string, day: string): int {
    if s == [] then 0
    else
      var last := s[|s| - 1];
      LabelSum(s[..|s| - 1], labelOf, day) + (if labelOf(last.date) == day then last.amount else 0)
  }

  /** One `forEach` step adds exactly the label `day` to the labels. */
  lemma {:induction false} AddToLabels(ps: seq<Point>, day: string, amount: int)
    ensures forall m :: HasLabel(AddTo(ps, day, amount), m) <==> HasLabel(ps, m) || m == day
  {
    var r := AddTo(ps, day, amount);
    if ps == [] {
      assert r[0].date == day;
    } else if ps[0].date == day {
      forall m ensures HasLabel(r, m) <==> HasLabel(ps, m) || m == day {
        if HasLabel(ps, m) {
          var i :| 0 <= i < |ps| && ps[i].date == m;
          assert r[i].date == m;
        }
        if HasLabel(r, m) {
          var i :| 0 <= i < |r| && r[i].date == m;
          assert ps[i].date == m;
        }
      }
    } else {
      var tail := ps[1..];
      AddToLabels(tail, day, amount);
      var rt := AddTo(tail, day, amount);
      assert r == [ps[0]] + rt;
      forall m ensures HasLabel(r, m) <==> HasLabel(ps, m) || m == day {
        if m == ps[0].date {
          assert r[0] == ps[0];
        }
        if HasLabel(ps, m) && m != ps[0].date {
          var i :| 0 <= i < |ps| && ps[i].date == m;
          assert tail[i - 1] == ps[i];
          assert HasLabel(tail, m) && HasLabel(rt, m);
          var k :| 0 <= k < |rt| && rt[k].date == m;
          assert r[k + 1] == rt[k];
        }
        if m == day {
          assert HasLabel(rt, m);
          var k :| 0 <= k < |rt| && rt[k].date == m;
          assert r[k + 1] == rt[k];
        }
        if HasLabel(r, m) && m != ps[0].date {
          var i :| 0 <= i < |r| && r[i].date == m;
          assert rt[i - 1] == r[i];
          if HasLabel(tail, m) {
            var k :| 0 <= k < |tail| && tail[k].date == m;
            assert ps[k + 1] == tail[k];
          }
        }
      }
    }
  }

  /** One `forEach` step keeps the labels distinct. */
  lemma {:induction false} AddToDistinct(ps: seq<Point>, day: string, amount: int)
    requires LabelsDistinct(ps)
    ensures LabelsDistinct(AddTo(ps, day, amount))
  {
    var r := AddTo(ps, day, amount);
    if ps != [] && ps[0].date != day {
      var tail := ps[1..];
      assert LabelsDistinct(tail);
      AddToDistinct(tail, day, amount);
      AddToLabels(tail, day, amount);
      var rt := AddTo(tail, day, amount);
      assert r == [ps[0]] + rt;
      forall i | 0 < i < |r| ensures r[i].date != ps[0].date {
        assert HasLabel(rt, r[i].date) by { assert rt[i - 1] == r[i]; }
        if HasLabel(tail, r[i].date) {
          var k :| 0 <= k < |tail| && tail[k].date == r[i].date;
          assert ps[k + 1] == tail[k];
        }
      }
    }
  }

  /** One `forEach` step adds `amount` to the group labelled `day` and to no other. */
  lemma {:induction false} AddToAmounts(ps: seq<Point>, day: string, amount: int)
    ensures forall m :: AmountAt(AddTo(ps, day, amount), m)
                        == AmountAt(ps, m) + (if m == day then amount else 0)
  {
    var r := AddTo(ps, day, amount);
    if ps == [] {
      assert r[1..] == [];
    } else if ps[0].date == day {
      assert r[1..] == ps[1..];
    } else {
      AddToAmounts(ps[1..], day, amount);
      assert r[1..] == AddTo(ps[1..], day, amount);
    }
  }

  /** One `forEach` step adds `amount` to the sum of all groups. */
  lemma {:induction false} AddToSum(ps: seq<Point>, day: string, amount: int)
    ensures Seqs.Sum(PointAmount, AddTo(ps, day, amount)) == Seqs.Sum(PointAmount, ps) + amount
  {
    var r := AddTo(ps, day, amount);
    if ps == [] {
      assert r[1..] == [];
    } else if ps[0].date == day {
      assert r[1..] == ps[1..];
    } else {
      AddToSum(ps[1..], day, amount);
      assert r[1..] == AddTo(ps[1..], day, amount);
    }
  }

  /** The groups of `s`: distinct labels, exactly the labels of the records, each group holding
      the sum of its day's amounts, and all groups together holding the sum of `s`. */
  lemma GroupFacts(s: seq<Txn>, labelOf: int -> string)
    ensures LabelsDistinct(Group(s, labelOf))
    ensures forall m :: HasLabel(Group(s, labelOf), m) <==> Mentions(s, labelOf, m)
    ensures forall m :: AmountAt(Group(s, labelOf), m) == LabelSum(s, labelOf, m)
    ensures Seqs.Sum(PointAmount, Group(s, labelOf)) == Total(s)
  {
    GroupLabels(s, labelOf);
    GroupAmounts(s, labelOf);
  }

  /** The labels of the groups are distinct and are exactly the labels of the records. */
  lemma {:induction false} GroupLabels(s: seq<Txn>, labelOf: int -> string)
    ensures LabelsDistinct(Group(s, labelOf))
    ensures forall m :: HasLabel(Group(s, labelOf), m) <==> Mentions(s, labelOf, m)
  {
    if s != [] {
      var init := s[..|s| - 1];
      var last := s[|s| - 1];
      GroupLabels(init, labelOf);
      var g := Group(init, labelOf);
      AddToDistinct(g, labelOf(last.date), last.amount);
      AddToLabels(g, labelOf(last.date), last.amount);
      forall m ensures Mentions(s, labelOf, m) <==> Mentions(init, labelOf, m) || m == labelOf(last.date) {
        if Mentions(s, labelOf, m) && m != labelOf(last.date) {
          var k :| 0 <= k < |s| && labelOf(s[k].date) == m;
          assert init[k] == s[k];
        }
        if Mentions(init, labelOf, m) {
          var k :| 0 <= k < |init| && labelOf(init[k].date) == m;
          assert s[k] == init[k];
        }
      }
    }
  }

  /** Each group holds the sum of its day's amounts, and all groups together the sum of `s`. */
  lemma {:induction false} GroupAmounts(s: seq<Txn>, labelOf: int -> string)
    ensures forall m :: AmountAt(Group(s, labelOf), m) == LabelSum(s, labelOf, m)
    ensures Seqs.Sum(PointAmount, Group(s, labelOf)) == Total(s)
  {
    if s != [] {
      var init := s[..|s| - 1];
      var last := s[|s| - 1];
      GroupAmounts(init, labelOf);
      var g := Group(init, labelOf);
      AddToAmounts(g, labelOf(last.date), last.amount);
      AddToSum(g, labelOf(last.date), last.amount);
      assert s == init + [last];
      Seqs.SumConcat(AmountOf, init, [last]);
      assert Total([last]) == last.amount by { assert [last][1..] == []; }
    }
  }

  /** With distinct labels, `AmountAt` reads each point's own amount. */
  lemma {:induction false} AmountAtPoint(ps: seq<Point>, i: nat)
    requires LabelsDistinct(ps) && i < |ps|
    ensures AmountAt(ps, ps[i].date) == ps[i].amount
  {
    if i > 0 {
      assert ps[1..][i - 1] == ps[i];
      AmountAtPoint(ps[1..], i - 1);
    }
  }

  /** Sorting keeps the labels distinct. */
  lemma SortDistinct(key: Point -> int, ps: seq<Point>)
    requires LabelsDistinct(ps)
    ensures LabelsDistinct(Seqs.SortDesc(key, ps))
  {
    Seqs.SortDistinctBy(key, PointLabel, ps);
  }

  /** Sorting keeps the set of labels. */
  lemma SortLabels(key: Point -> int, ps: seq<Point>)
    ensures forall m :: HasLabel(Seqs.SortDesc(key, ps), m) <==> HasLabel(ps, m)
  {
    var r := Seqs.SortDesc(key, ps);
    forall m ensures HasLabel(r, m) <==> HasLabel(ps, m) {
      if HasLabel(r, m) {
        var i :| 0 <= i < |r| && r[i].date == m;
        assert r[i] in multiset(ps);
        var k :| 0 <= k < |ps| && ps[k] == r[i];
      }
      if HasLabel(ps, m) {
        var k :| 0 <= k < |ps| && ps[k].date == m;
        assert ps[k] in multiset(r);
        var i :| 0 <= i < |r| && r[i] == ps[k];
      }
    }
  }

  /** After sorting points with distinct labels, each point still holds its label's amount. */
  lemma SortAmounts(key: Point -> int, ps: seq<Point>)
    requires LabelsDistinct(ps)
    ensures var r := Seqs.SortDesc(key, ps);
      forall i :: 0 <= i < |r| ==> r[i].amount == AmountAt(ps, r[i].date)
  {
    var r := Seqs.SortDesc(key, ps);
    forall i | 0 <= i < |r| ensures r[i].amount == AmountAt(ps, r[i].date) {
      assert r[i] in multiset(ps);
      var k :| 0 <= k < |ps| && ps[k] == r[i];
      AmountAtPoint(ps, k);
    }
  }

  /** The chart has exactly one point per day of the records, and each point holds the sum of
      the amounts of the records of that day. */
  lemma ChartContents(s: seq<Txn>, labelOf: int -> string, rank: string -> int)
    ensures var r := PrepareChartData(s, labelOf, rank);
      && LabelsDistinct(r)
      && (forall m :: HasLabel(r, m) <==> Mentions(s, labelOf, m))
      && (forall i :: 0 <= i < |r| ==> r[i].amount == LabelSum(s, labelOf, r[i].date))
  {
    var g := Group(s, labelOf);
    assert PrepareChartData(s, labelOf, rank) == Seqs.SortDesc(ChartKey(rank), g);
    GroupFacts(s, labelOf);
    SortDistinct(ChartKey(rank), g);
    SortLabels(ChartKey(rank), g);
    SortAmounts(ChartKey(rank), g);
  }

  /** The chart's amounts add up to the page's total (`reduce` over the same list). */
  lemma ChartSumIsTotal(s: seq<Txn>, labelOf: int -> string, rank: string -> int)
    ensures Seqs.Sum(PointAmount, PrepareChartData(s, labelOf, rank)) == Total(s)
  {
    GroupFacts(s, labelOf);
    Seqs.SumSortDesc(ChartKey(rank), PointAmount, Group(s, labelOf));
  }

  /** The chart is empty, and the page shows "No … data available" with a total of 0, exactly
      when there are no records. */
  lemma EmptyChartIffNoRecords(s: seq<Txn>, labelOf: int -> string, rank: string -> int)
    ensures PrepareChartData(s, labelOf, rank) == [] <==> s == []
    ensures s == [] ==> Total(s) == 0
  {
    GroupFacts(s, labelOf);
    if s != [] {
      assert Mentions(s, labelOf, labelOf(s[0].date));
      assert HasLabel(Group(s, labelOf), labelOf(s[0].date));
    }
  }
}
