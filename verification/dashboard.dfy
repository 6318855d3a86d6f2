/**
 * The engine as its callers use it. The dashboard's home page classifies
 * the stored table and summarises the result; the alert page classifies it
 * and keeps the alert rows. The lemmas here relate the status selections
 * and the summary of a classified table back to the prices of the input
 * rows, and check a few worked examples.
 */
module Dashboard {
  import opened PriceRecords
  import opened Selection
  import opened Classifier
  import opened Aggregator

  predicate TheirsCheaper(r: PriceRecord) { r.competitorPrice < r.ourPrice }

  predicate OursCheaper(r: PriceRecord) { r.ourPrice < r.competitorPrice }

  predicate SamePrice(r: PriceRecord) { r.ourPrice == r.competitorPrice }

  /** Dropping the added columns commutes with concatenation. */
  lemma RecordsOfConcat(a: seq<ClassifiedRecord>, b: seq<ClassifiedRecord>)
    ensures Records(a + b) == Records(a) + Records(b)
  {
  }

  /**
   * Selecting the rows of status `s` from the classified table yields
   * exactly the input rows on which the prices compare the way `s` names,
   * in their input order.
   */
  lemma {:induction false} SelectionOfCompared(rs: seq<PriceRecord>, s: Status, p: PriceRecord -> bool)
    requires forall r :: ClassifyRecord(r).status == s <==> p(r)
    ensures Records(RowsWith(ComparePrices(rs), s)) == Filter(rs, p)
  {
    if rs != [] {
      var t := ComparePrices(rs);
      var c := ClassifyRecord(rs[0]);
      assert t[0] == c && t[1..] == ComparePrices(rs[1..]);
      SelectionOfCompared(rs[1..], s, p);
      var head := if c.status == s then [c] else [];
      assert RowsWith(t, s) == head + RowsWith(t[1..], s);
      RecordsOfConcat(head, RowsWith(t[1..], s));
      assert Records(head) == if p(rs[0]) then [rs[0]] else [];
    }
  }

  /**
   * The alert rows are the input rows where the competitor is cheaper, the
   * good rows those where we are, the neutral rows those where the prices
   * are equal.
   */
  lemma SelectionsOfCompared(rs: seq<PriceRecord>)
    ensures Records(RowsWith(ComparePrices(rs), Alert)) == Filter(rs, TheirsCheaper)
    ensures Records(RowsWith(ComparePrices(rs), Good)) == Filter(rs, OursCheaper)
    ensures Records(RowsWith(ComparePrices(rs), Neutral)) == Filter(rs, SamePrice)
  {
    SelectionOfCompared(rs, Alert, TheirsCheaper);
    SelectionOfCompared(rs, Good, OursCheaper);
    SelectionOfCompared(rs, Neutral, SamePrice);
  }

  /**
   * The counts in the summary of a freshly classified table are the numbers
   * of input rows on which the competitor is cheaper, we are cheaper and the
   * prices are equal, and they add up to the number of input rows.
   */
  lemma CountsOfCompared(rs: seq<PriceRecord>)
    ensures var st := PriceChangeStats(ComparePrices(rs));
      && st.competitorsCheaper == |Filter(rs, TheirsCheaper)|
      && st.weAreCheaper == |Filter(rs, OursCheaper)|
      && st.identicalPrices == |Filter(rs, SamePrice)|
      && st.competitorsCheaper + st.weAreCheaper + st.identicalPrices == |rs|
  {
    var t := ComparePrices(rs);
    SelectionsOfCompared(rs);
    CountConservation(t);
  }

  /** The sum of `f` over input rows. */
  function SumRecords(rs: seq<PriceRecord>, f: PriceRecord -> real): real {
    if rs == [] then 0.0 else f(rs[0]) + SumRecords(rs[1..], f)
  }

  /** Summing over classified rows is summing over their input columns. */
  lemma {:induction false} SumOfRecords(t: seq<ClassifiedRecord>, f: PriceRecord -> real)
    ensures Sum(t, f) == SumRecords(Records(t), f)
  {
    if t != [] {
      assert Records(t)[0] == t[0].record && Records(t)[1..] == Records(t[1..]);
      SumOfRecords(t[1..], f);
    }
  }

  /**
   * The averages in the summary of a freshly classified table, stated on
   * the input rows: the competitor's advantage averaged over the rows where
   * the competitor is cheaper, and ours averaged over the rows where we are.
   */
  lemma MeansOfCompared(rs: seq<PriceRecord>)
    ensures var st := PriceChangeStats(ComparePrices(rs));
      var theirs, ours := Filter(rs, TheirsCheaper), Filter(rs, OursCheaper);
      && st.avgCompetitorAdvantage == Average(SumRecords(theirs, CompetitorAdvantage), |theirs|)
      && st.avgOurAdvantage == Average(SumRecords(ours, OurAdvantage), |ours|)
  {
    var t := ComparePrices(rs);
    SelectionsOfCompared(rs);
    SumOfRecords(RowsWith(t, Alert), CompetitorAdvantage);
    SumOfRecords(RowsWith(t, Good), OurAdvantage);
  }

  /**
   * Both averages in the summary of a freshly classified table are
   * non-negative, and each is positive when its subset is non-empty.
   */
  lemma AdvantagesOfCompared(rs: seq<PriceRecord>)
    ensures var st := PriceChangeStats(ComparePrices(rs));
      && 0.0 <= st.avgCompetitorAdvantage
      && 0.0 <= st.avgOurAdvantage
      && (st.competitorsCheaper > 0 ==> 0.0 < st.avgCompetitorAdvantage)
      && (st.weAreCheaper > 0 ==> 0.0 < st.avgOurAdvantage)
  {
    AdvantagesOfClassified(ComparePrices(rs));
  }

  /** A row of the worked examples, with only the two prices varying. */
  function Row(our: real, comp: real): PriceRecord {
    PriceRecord("P001", "Widget", our, "Rival", comp, Date(2025, 1, 1))
  }

  /** Worked examples: one row of each kind. */
  lemma SingleRowExamples()
    ensures ClassifyRecord(Row(10.0, 8.0)).status == Alert
    ensures ClassifyRecord(Row(10.0, 8.0)).message == PriceDropAlert(2.0, Defined(20.0))
    ensures ClassifyRecord(Row(8.0, 10.0)).status == Good
    ensures ClassifyRecord(Row(8.0, 10.0)).message == WeAreCheaper(2.0, Defined(20.0))
    ensures ClassifyRecord(Row(5.0, 5.0)).status == Neutral
    ensures ClassifyRecord(Row(5.0, 5.0)).message == PricesIdentical
  {
  }

  /** Worked example: two alerts and one good row, and the empty table. */
  lemma SummaryExamples()
    ensures PriceChangeStats(ComparePrices([Row(10.0, 8.0), Row(20.0, 18.0), Row(5.0, 6.0)]))
            == Stats(3, 2, 1, 0, 2.0, 1.0)
    ensures ComparePrices([]) == []
    ensures PriceChangeStats([]) == NoStats
  {
    var rs := [Row(10.0, 8.0), Row(20.0, 18.0), Row(5.0, 6.0)];
    var a, b, c := ClassifyRecord(rs[0]), ClassifyRecord(rs[1]), ClassifyRecord(rs[2]);
    assert rs[1..][1..] == [rs[2]];
    assert ComparePrices(rs) == [a, b, c];
    var t := [a, b, c];
    assert t[1..] == [b, c] && t[1..][1..] == [c];
    assert a.status == Alert && b.status == Alert && c.status == Good;
    assert RowsWith([c], Alert) == [] && RowsWith([b, c], Alert) == [b];
    assert RowsWith(t, Alert) == [a, b];
    assert RowsWith([c], Good) == [c] && RowsWith([b, c], Good) == [c];
    assert RowsWith(t, Good) == [c];
    assert RowsWith([c], Neutral) == [] && RowsWith([b, c], Neutral) == [];
    assert RowsWith(t, Neutral) == [];
    assert [a, b][1..] == [b] && [b][1..] == [];
    assert Sum([b], CompetitorAdvantage) == 2.0;
    assert Sum([a, b], CompetitorAdvantage) == 4.0;
    assert Sum([c], OurAdvantage) == 1.0;
  }
}
