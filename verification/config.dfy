/** The fixed tables the page is built from: item types, upgrade stages, the
    displayed (reference) success rate per stage and the placeholder counts. */
module Config {
  import opened Counter

  datatype Config = Config(
    itemTypes: seq<string>,
    stages: seq<string>,
    rates: seq<real>,
    dummy: map<string, seq<StageCount>>)

  /** What every lookup on the page relies on: one rate per stage, each a
      probability, and a placeholder table for every item type with one
      non-negative count per stage. */
  predicate Valid(cfg: Config)
  {
    && |cfg.rates| == |cfg.stages|
    && (forall i :: 0 <= i < |cfg.rates| ==> 0.0 <= cfg.rates[i] <= 1.0)
    && (forall t :: t in cfg.itemTypes ==> t in cfg.dummy)
    && (forall t :: t in cfg.dummy ==> |cfg.dummy[t]| == |cfg.stages| && NonNegative(cfg.dummy[t]))
  }

  /** The literal tables of the page. */
  const Default: Config := Config(
    ["무기", "방어구", "장신구"],
    ["0 → 1", "1 → 2", "2 → 3", "3 → 4", "4 → 5", "5 → 6"],
    [0.9, 0.85, 0.8, 0.5, 0.4, 0.1],
    map[
      "무기" := [StageCount(90, 10), StageCount(85, 15), StageCount(80, 20),
                StageCount(25, 25), StageCount(16, 24), StageCount(2, 18)],
      "방어구" := [StageCount(45, 5), StageCount(40, 10), StageCount(35, 15),
                 StageCount(20, 20), StageCount(12, 18), StageCount(1, 19)],
      "장신구" := [StageCount(60, 40), StageCount(55, 45), StageCount(50, 50),
                 StageCount(15, 35), StageCount(8, 32), StageCount(0, 20)]
    ])

  /** The page's own tables agree in length and range. */
  lemma DefaultValid()
    ensures Valid(Default)
    ensures |Default.itemTypes| == 3 && |Default.stages| == 6
  {
  }
}
