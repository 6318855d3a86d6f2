/**
 * The aggregator: `get_price_change_stats`, which summarises a classified
 * table for the dashboard as counts per status and mean price advantages.
 */
module Aggregator {
  import opened PriceRecords
  import opened Selection

  /** The dashboard summary of one classified table. */
  datatype Stats = Stats(
    totalProducts: nat,
    competitorsCheaper: nat,
    weAreCheaper: nat,
    identicalPrices: nat,
    avgCompetitorAdvantage: real,
    avgOurAdvantage: real)

  /** The summary of an empty table: every field is zero. */
  const NoStats := Stats(0, 0, 0, 0, 0.0, 0.0)

  /**
   * The rows of `t` whose status is `s`, in their original order: the
   * selection `df[df['status'] == s]`.
   */
  function RowsWith(t: seq<ClassifiedRecord>, s: Status): (f: seq<ClassifiedRecord>)
    ensures |f| <= |t|
    ensures forall c :: c in f <==> c in t && c.status == s
  {
    Filter(t, (c: ClassifiedRecord) => c.status == s)
  }

  /**
   * The selection by status keeps every row with that status as often as
   * it occurs in the table, so its length counts repeated rows.
   */
  lemma RowsWithMultiplicity(t: seq<ClassifiedRecord>, s: Status)
    ensures forall c :: multiset(RowsWith(t, s))[c] == if c.status == s then multiset(t)[c] else 0
  {
    FilterMultiplicity(t, (c: ClassifiedRecord) => c.status == s);
  }

  /** By how much the competitor undercuts us on a row. */
  function CompetitorAdvantage(r: PriceRecord): real {
    r.ourPrice - r.competitorPrice
  }

  /** By how much we undercut the competitor on a row. */
  function OurAdvantage(r: PriceRecord): real {
    r.competitorPrice - r.ourPrice
  }

  /** The sum of `f` over the rows of `t`. */
  function Sum(t: seq<ClassifiedRecord>, f: PriceRecord -> real): real {
    if t == [] then 0.0 else f(t[0].record) + Sum(t[1..], f)
  }

  /** The average of `n` values whose total is `total`; zero for no values. */
  function Average(total: real, n: nat): (m: real)
    ensures n == 0 ==> m == 0.0
    ensures n > 0 ==> m * n as real == total
  {
    if n == 0 then 0.0 else total / n as real
  }

  /** The mean of `f` over the rows of `t`: pandas' `mean`, with zero for no rows. */
  function Mean(t: seq<ClassifiedRecord>, f: PriceRecord -> real): real {
    Average(Sum(t, f), |t|)
  }

  /**
   * `get_price_change_stats`: the number of rows, the number with each of
   * the three statuses, and the mean advantage over the alert rows and over
   * the good rows, each zero when there are no such rows.
   */
  function PriceChangeStats(t: seq<ClassifiedRecord>): (st: Stats)
    ensures t == [] ==> st == NoStats
    ensures st.totalProducts == |t|
    ensures st.competitorsCheaper + st.weAreCheaper + st.identicalPrices <= st.totalProducts
    ensures st.competitorsCheaper == 0 ==> st.avgCompetitorAdvantage == 0.0
    ensures st.weAreCheaper == 0 ==> st.avgOurAdvantage == 0.0
  {
    if t == [] then NoStats
    else
      var alerts := RowsWith(t, Alert);
      var goods := RowsWith(t, Good);
      CountsAddUp(t);
      Stats(|t|, |alerts|, |goods|, |RowsWith(t, Neutral)|,
            Mean(alerts, CompetitorAdvantage), Mean(goods, OurAdvantage))
  }

  /** The number of rows with status `s`, counted in one pass over the table. */
  function CountStatus(t: seq<ClassifiedRecord>, s: Status): nat {
    if t == [] then 0 else (if t[0].status == s then 1 else 0) + CountStatus(t[1..], s)
  }

  /** The total of `f` over the rows with status `s`, accumulated in one pass over the table. */
  function SumStatus(t: seq<ClassifiedRecord>, s: Status, f: PriceRecord -> real): real {
    if t == [] then 0.0
    else (if t[0].status == s then f(t[0].record) else 0.0) + SumStatus(t[1..], s, f)
  }

  /** A sum over two tables placed one after the other is the sum of their sums. */
  lemma {:induction false} SumOfConcat(a: seq<ClassifiedRecord>, b: seq<ClassifiedRecord>, f: PriceRecord -> real)
    ensures Sum(a + b, f) == Sum(a, f) + Sum(b, f)
  {
    if a == [] {
      assert a + b == b;
    } else {
      assert (a + b)[0] == a[0] && (a + b)[1..] == a[1..] + b;
      SumOfConcat(a[1..], b, f);
    }
  }

  /**
   * Selecting by status and then measuring the selection gives the same
   * count and total as counting and accumulating in one pass.
   */
  lemma {:induction false} SelectionMeasures(t: seq<ClassifiedRecord>, s: Status, f: PriceRecord -> real)
    ensures |RowsWith(t, s)| == CountStatus(t, s)
    ensures Sum(RowsWith(t, s), f) == SumStatus(t, s, f)
  {
    if t != [] {
      SelectionMeasures(t[1..], s, f);
      var head := if t[0].status == s then [t[0]] else [];
      assert RowsWith(t, s) == head + RowsWith(t[1..], s);
      SumOfConcat(head, RowsWith(t[1..], s), f);
    }
  }

  /** Each count in the summary is the number of rows with its status. */
  lemma StatsCountStatuses(t: seq<ClassifiedRecord>)
    ensures var st := PriceChangeStats(t);
      && st.competitorsCheaper == CountStatus(t, Alert)
      && st.weAreCheaper == CountStatus(t, Good)
      && st.identicalPrices == CountStatus(t, Neutral)
  {
    SelectionMeasures(t, Alert, CompetitorAdvantage);
    SelectionMeasures(t, Good, OurAdvantage);
    SelectionMeasures(t, Neutral, CompetitorAdvantage);
  }

  /**
   * Each average in the summary is the mean advantage over the rows of its
   * status: the competitor's total advantage over the alert rows, or our
   * total advantage over the good rows, divided by the number of those rows.
   */
  lemma StatsAverageAdvantages(t: seq<ClassifiedRecord>)
    ensures var st := PriceChangeStats(t);
      && st.avgCompetitorAdvantage
         == Average(SumStatus(t, Alert, CompetitorAdvantage), CountStatus(t, Alert))
      && st.avgOurAdvantage == Average(SumStatus(t, Good, OurAdvantage), CountStatus(t, Good))
  {
    SelectionMeasures(t, Alert, CompetitorAdvantage);
    SelectionMeasures(t, Good, OurAdvantage);
  }

  /** No row carries a status outside 'alert', 'good' and 'neutral'. */
  predicate AllRecognised(t: seq<ClassifiedRecord>) {
    forall i :: 0 <= i < |t| ==> !t[i].status.Unrecognised?
  }

  /**
   * The three status counts never exceed the number of rows, and they add
   * up to it exactly when every row carries one of the three statuses.
   */
  lemma {:induction false} CountsAddUp(t: seq<ClassifiedRecord>)
    ensures |RowsWith(t, Alert)| + |RowsWith(t, Good)| + |RowsWith(t, Neutral)| <= |t|
    ensures |RowsWith(t, Alert)| + |RowsWith(t, Good)| + |RowsWith(t, Neutral)| == |t|
            <==> AllRecognised(t)
  {
    if t != [] {
      CountsAddUp(t[1..]);
      assert AllRecognised(t) <==> !t[0].status.Unrecognised? && AllRecognised(t[1..]) by {
        if AllRecognised(t[1..]) && !t[0].status.Unrecognised? {
          forall i | 0 <= i < |t|
            ensures !t[i].status.Unrecognised?
          {
            if i > 0 {
              assert t[i] == t[1..][i - 1];
            }
          }
        }
      }
    }
  }

  /** The conservation of counts as a fact about the summary. */
  lemma CountConservation(t: seq<ClassifiedRecord>)
    ensures var st := PriceChangeStats(t);
      st.competitorsCheaper + st.weAreCheaper + st.identicalPrices == st.totalProducts
      <==> AllRecognised(t)
  {
    CountsAddUp(t);
  }

  /** A sum of positive terms is positive unless it is empty. */
  lemma {:induction false} SumOfPositives(t: seq<ClassifiedRecord>, f: PriceRecord -> real)
    requires forall c :: c in t ==> 0.0 < f(c.record)
    ensures 0.0 <= Sum(t, f)
    ensures t != [] ==> 0.0 < Sum(t, f)
  {
    if t != [] {
      SumOfPositives(t[1..], f);
    }
  }

  /**
   * On a table whose rows are classified, both averages are non-negative,
   * and each is positive whenever some row carries its status.
   */
  lemma AdvantagesOfClassified(t: seq<ClassifiedRecord>)
    requires forall i :: 0 <= i < |t| ==> Classified(t[i])
    ensures var st := PriceChangeStats(t);
      && 0.0 <= st.avgCompetitorAdvantage
      && 0.0 <= st.avgOurAdvantage
      && (st.competitorsCheaper > 0 ==> 0.0 < st.avgCompetitorAdvantage)
      && (st.weAreCheaper > 0 ==> 0.0 < st.avgOurAdvantage)
  {
    if t != [] {
      var alerts, goods := RowsWith(t, Alert), RowsWith(t, Good);
      SumOfPositives(alerts, CompetitorAdvantage);
      SumOfPositives(goods, OurAdvantage);
    }
  }
}
