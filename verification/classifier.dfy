/**
 * The classifier: `compare_prices`, which gives every row of a price table
 * a status and a message by comparing our price with the competitor's.
 */
module Classifier {
  import opened PriceRecords

  /**
   * `diff` as a percentage of `base`, computed as (diff / base) * 100.
   * Undefined when `base` is zero, which only a negative price can bring about.
   */
  function PercentOf(diff: real, base: real): (p: Percentage)
    ensures IsShare(p, diff, base)
  {
    if base == 0.0 then Undefined else Defined(diff / base * 100.0)
  }

  /**
   * One iteration of the row loop: a three-way comparison of the two prices.
   * The percentage is taken of our price for an alert and of the
   * competitor's price when we are cheaper.
   */
  function ClassifyRecord(r: PriceRecord): (c: ClassifiedRecord)
    ensures c.record == r
    ensures Classified(c)
    ensures c.status == Alert <==> r.competitorPrice < r.ourPrice
    ensures c.status == Good <==> r.ourPrice < r.competitorPrice
    ensures c.status == Neutral <==> r.ourPrice == r.competitorPrice
  {
    var our := r.ourPrice;
    var comp := r.competitorPrice;
    if comp < our then
      var diff := our - comp;
      ClassifiedRecord(r, Alert, PriceDropAlert(diff, PercentOf(diff, our)))
    else if our < comp then
      var diff := comp - our;
      ClassifiedRecord(r, Good, WeAreCheaper(diff, PercentOf(diff, comp)))
    else
      ClassifiedRecord(r, Neutral, PricesIdentical)
  }

  /**
   * `compare_prices`: the input table with a status and a message added to
   * every row. The rows keep their order and all their columns; an empty
   * table comes back empty.
   */
  function ComparePrices(rs: seq<PriceRecord>): (t: seq<ClassifiedRecord>)
    ensures |t| == |rs|
    ensures forall i :: 0 <= i < |rs| ==> t[i].record == rs[i] && Classified(t[i])
    ensures Records(t) == rs
  {
    if rs == [] then [] else [ClassifyRecord(rs[0])] + ComparePrices(rs[1..])
  }

  /**
   * `Classified` pins down status and message completely: two rows that
   * both satisfy it and share their input columns are equal.
   */
  lemma ClassifiedIsFunctional(c: ClassifiedRecord, d: ClassifiedRecord)
    requires Classified(c) && Classified(d) && c.record == d.record
    ensures c == d
  {
  }

  /** So `ClassifyRecord` is the only classification of a row. */
  lemma ClassificationIsUnique(c: ClassifiedRecord)
    requires Classified(c)
    ensures ClassifyRecord(c.record) == c
  {
  }

  /**
   * Classifying an already classified table again changes nothing: the
   * status and message columns depend on the prices alone.
   */
  lemma {:induction false} ReclassifyIsIdentity(t: seq<ClassifiedRecord>)
    requires forall i :: 0 <= i < |t| ==> Classified(t[i])
    ensures ComparePrices(Records(t)) == t
  {
    var u := ComparePrices(Records(t));
    forall i | 0 <= i < |t|
      ensures u[i] == t[i]
    {
      ClassifiedIsFunctional(u[i], t[i]);
    }
  }

  /**
   * With the non-negative prices ingestion guarantees, a row that is not
   * neutral has a positive gap and a percentage that is defined (no
   * division by zero) and lies in (0, 100].
   */
  lemma PercentageBounds(r: PriceRecord)
    requires NonNegativePrices(r)
    ensures var m := ClassifyRecord(r).message;
      !m.PricesIdentical? ==>
        && 0.0 < m.diff
        && m.percent.Defined?
        && 0.0 < m.percent.value <= 100.0
  {
    var m := ClassifyRecord(r).message;
    if !m.PricesIdentical? {
      var d, w := Gap(r), Dearer(r);
      assert 0.0 < d <= w;
      var v := m.percent.value;
      assert v * w == 100.0 * d;
      assert v == d / w * 100.0;
      ShareOfWholeBounds(d, w);
    }
  }

  /** A positive part of a positive whole is more than 0% and at most 100% of it. */
  lemma ShareOfWholeBounds(part: real, whole: real)
    requires 0.0 < part <= whole
    ensures 0.0 < part / whole * 100.0 <= 100.0
  {
    var q := part / whole;
    assert q * whole == part;
    assert (1.0 - q) * whole == whole - part;
  }
}
