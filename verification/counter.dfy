/** The per-stage success/fail counters edited on the submission form, and the
    single-field, clamped-at-zero adjustment applied by one button click. */
module Counter {

  /** One (item type, upgrade stage) tally. The page keeps these as JavaScript
      numbers, so they are `int` here; the clamp keeps them at zero or above
      only when they start there. */
  datatype StageCount = StageCount(success: int, fail: int)

  /** Which half of a stage row a click targets. */
  datatype Field = Success | Fail

  /** The two deltas a click produces: left half -1, right half +1. */
  type Delta = d: int | d == 1 || d == -1 witness 1

  function Get(c: StageCount, f: Field): int
  {
    match f
    case Success => c.success
    case Fail => c.fail
  }

  function Other(f: Field): Field
  {
    match f
    case Success => Fail
    case Fail => Success
  }

  /** `Math.max(0, v)` */
  function ClampZero(v: int): (r: int)
    ensures r >= 0
    ensures r >= v
    ensures r == v || r == 0
  {
    if v < 0 then 0 else v
  }

  /** The targeted field moved by `delta` and clamped; the other field kept
      (the object spread in the source). */
  function Bump(c: StageCount, f: Field, delta: Delta): (r: StageCount)
    ensures Get(r, f) == ClampZero(Get(c, f) + delta)
    ensures Get(r, Other(f)) == Get(c, Other(f))
  {
    match f
    case Success => c.(success := ClampZero(c.success + delta))
    case Fail => c.(fail := ClampZero(c.fail + delta))
  }

  predicate NonNegative(counts: seq<StageCount>)
  {
    forall i :: 0 <= i < |counts| ==> counts[i].success >= 0 && counts[i].fail >= 0
  }

  /** adjustCount: a fresh sequence in which only entry `stageIdx` has its
      field `f` moved by `delta`, clamped at zero. An index outside the
      sequence matches no entry, so the result is then an equal copy. */
  function Adjust(counts: seq<StageCount>, stageIdx: int, f: Field, delta: Delta): (r: seq<StageCount>)
    ensures |r| == |counts|
    ensures forall i :: 0 <= i < |counts| && i != stageIdx ==> r[i] == counts[i]
    ensures 0 <= stageIdx < |counts| ==>
              && Get(r[stageIdx], f) == ClampZero(Get(counts[stageIdx], f) + delta)
              && Get(r[stageIdx], Other(f)) == Get(counts[stageIdx], Other(f))
    ensures !(0 <= stageIdx < |counts|) ==> r == counts
    ensures NonNegative(counts) ==> NonNegative(r)
  {
    seq(|counts|, i requires 0 <= i < |counts| =>
      if i == stageIdx then Bump(counts[i], f, delta) else counts[i])
  }

  /** +1 followed by -1 on the same field restores the table exactly when the
      targeted counter was not negative (or the index hits no entry); a
      negative counter comes back as zero. */
  lemma IncThenDecRestoresIff(counts: seq<StageCount>, stageIdx: int, f: Field)
    ensures Adjust(Adjust(counts, stageIdx, f, 1), stageIdx, f, -1) == counts
            <==> !(0 <= stageIdx < |counts|) || Get(counts[stageIdx], f) >= 0
  {
  }

  /** -1 followed by +1 on the same field restores the table exactly when the
      targeted counter was above zero (or the index hits no entry); from zero
      the clamp leaves the counter at one. */
  lemma DecThenIncRestoresIff(counts: seq<StageCount>, stageIdx: int, f: Field)
    ensures Adjust(Adjust(counts, stageIdx, f, -1), stageIdx, f, 1) == counts
            <==> !(0 <= stageIdx < |counts|) || Get(counts[stageIdx], f) > 0
    ensures 0 <= stageIdx < |counts| && Get(counts[stageIdx], f) == 0 ==>
              Get(Adjust(Adjust(counts, stageIdx, f, -1), stageIdx, f, 1)[stageIdx], f) == 1
  {
  }
}
