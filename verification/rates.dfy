/** The doughnut of one stage: the observed split next to the displayed
    (reference) rate, with rates as exact reals. */
module Rates {
  import opened Counter
  import opened Config

  /** `success / total`, or 0 when the stage has no attempts. */
  function ObservedRate(c: StageCount): (r: real)
    ensures c.success + c.fail == 0 ==> r == 0.0
    ensures c.success + c.fail != 0 ==> r * (c.success + c.fail) as real == c.success as real
    ensures c.success >= 0 && c.fail >= 0 ==> 0.0 <= r <= 1.0
  {
    var total := c.success + c.fail;
    if total == 0 then 0.0 else c.success as real / total as real
  }

  /** With non-negative counts the observed rate is 0 exactly when nothing
      succeeded, and 1 exactly when something succeeded and nothing failed. */
  lemma ObservedRateExtremes(c: StageCount)
    requires c.success >= 0 && c.fail >= 0
    ensures ObservedRate(c) == 0.0 <==> c.success == 0
    ensures ObservedRate(c) == 1.0 <==> c.success > 0 && c.fail == 0
  {
    var total := c.success + c.fail;
    if total != 0 {
      var r := ObservedRate(c);
      assert r * total as real == c.success as real;
      if r == 1.0 {
        assert c.success as real == total as real;
      }
      if c.fail == 0 {
        assert r * c.success as real == 1.0 * c.success as real;
      }
    }
  }

  /** The reference ring: the displayed rate and its complement, in percent. */
  function ReferenceSeries(rate: real): (s: (real, real))
    ensures s.0 + s.1 == 100.0
    ensures 0.0 <= rate <= 1.0 ==> 0.0 <= s.0 && 0.0 <= s.1
    ensures s.0 / 100.0 == rate
  {
    (rate * 100.0, (1.0 - rate) * 100.0)
  }

  /** Everything one stage's doughnut is drawn from. */
  datatype Doughnut = Doughnut(
    observed: (int, int),
    reference: (real, real),
    observedRate: real,
    displayRate: real,
    showsObservedRate: bool)

  /** SuccessFailDoughnut for the stage at `stageIdx`; the stage index always
      comes from enumerating the stages, so it is in range. */
  function StageDoughnut(cfg: Config, c: StageCount, stageIdx: int): (d: Doughnut)
    requires Valid(cfg) && 0 <= stageIdx < |cfg.stages|
    ensures d.observed == (c.success, c.fail)
    ensures d.displayRate == cfg.rates[stageIdx]
    ensures 0.0 <= d.reference.0 && 0.0 <= d.reference.1
    ensures d.reference.0 + d.reference.1 == 100.0
    ensures d.reference.0 == 100.0 * d.displayRate
    ensures d.showsObservedRate <==> c.success + c.fail != 0
    ensures c.success + c.fail == 0 ==> d.observedRate == 0.0
    ensures c.success + c.fail != 0 ==> d.observedRate * (c.success + c.fail) as real == c.success as real
    ensures c.success >= 0 && c.fail >= 0 ==> 0.0 <= d.observedRate <= 1.0
  {
    var rate := cfg.rates[stageIdx];
    Doughnut((c.success, c.fail), ReferenceSeries(rate), ObservedRate(c), rate,
             c.success + c.fail != 0)
  }

  /** The first stage of an item with the placeholder counts of the first
      item type: 90 successes and 10 failures against a displayed 90%. */
  lemma DefaultFirstStage()
    ensures StageDoughnut(Default, Default.dummy["무기"][0], 0).observedRate == 0.9
    ensures StageDoughnut(Default, Default.dummy["무기"][0], 0).reference == (90.0, 10.0)
  {
  }
}
