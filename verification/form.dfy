/** The locally edited counter table (`formCounts`): a map from item type to
    that item's stage counts, filled lazily the first time an item is edited,
    and read through a fallback to the placeholder table. */
module Form {
  import opened Counter
  import opened Config

  type FormCounts = map<string, seq<StageCount>>

  /** setItemCounts: a new map whose entry for `t` is `c`. */
  function SetItemCounts(form: FormCounts, t: string, c: seq<StageCount>): (r: FormCounts)
    ensures t in r && r[t] == c
    ensures r.Keys == form.Keys + {t}
    ensures forall u :: u in form && u != t ==> r[u] == form[u]
  {
    form[t := c]
  }

  /** The counts an item's box shows: its edited entry when there is one,
      otherwise the placeholder entry. On a reachable table this always has
      one non-negative count per stage, so the box's per-stage lookups are
      defined. */
  function Displayed(cfg: Config, form: FormCounts, t: string): (r: seq<StageCount>)
    requires t in form || t in cfg.dummy
    ensures Valid(cfg) && Invariant(cfg, form) ==> |r| == |cfg.stages| && NonNegative(r)
  {
    if t in form then form[t] else cfg.dummy[t]
  }

  /** Writing one item's counts changes what that item shows and nothing else. */
  lemma DisplayedAfterSet(cfg: Config, form: FormCounts, t: string, c: seq<StageCount>, u: string)
    requires u in form || u in cfg.dummy
    ensures Displayed(cfg, SetItemCounts(form, t, c), u) == (if u == t then c else Displayed(cfg, form, u))
  {
  }

  /** One click on one counter button of one item's box. */
  datatype Click = Click(item: string, stage: int, field: Field, delta: Delta)

  /** The box's `adjustCount` works on the displayed counts and hands the new
      sequence to `setItemCounts` for its own item. */
  function Step(cfg: Config, form: FormCounts, e: Click): (r: FormCounts)
    requires e.item in form || e.item in cfg.dummy
    ensures r.Keys == form.Keys + {e.item}
    ensures r[e.item] == Adjust(Displayed(cfg, form, e.item), e.stage, e.field, e.delta)
    ensures forall u :: u in form && u != e.item ==> r[u] == form[u]
  {
    SetItemCounts(form, e.item, Adjust(Displayed(cfg, form, e.item), e.stage, e.field, e.delta))
  }

  predicate ClicksOnItems(cfg: Config, clicks: seq<Click>)
  {
    forall k :: 0 <= k < |clicks| ==> clicks[k].item in cfg.itemTypes
  }

  /** A session of clicks, handled one at a time in arrival order. */
  function Run(cfg: Config, form: FormCounts, clicks: seq<Click>): FormCounts
    requires Valid(cfg) && ClicksOnItems(cfg, clicks)
    decreases |clicks|
  {
    if clicks == [] then form
    else Run(cfg, Step(cfg, form, clicks[0]), clicks[1..])
  }

  /** The item types a session has clicked on. */
  function Touched(clicks: seq<Click>): set<string>
  {
    set k | 0 <= k < |clicks| :: clicks[k].item
  }

  /** What holds of the edited table at every render: only known item types,
      one count per stage, none below zero. */
  predicate Invariant(cfg: Config, form: FormCounts)
  {
    forall t :: t in form ==>
      t in cfg.itemTypes && |form[t]| == |cfg.stages| && NonNegative(form[t])
  }

  lemma StepKeepsInvariant(cfg: Config, form: FormCounts, e: Click)
    requires Valid(cfg) && Invariant(cfg, form) && e.item in cfg.itemTypes
    ensures Invariant(cfg, Step(cfg, form, e))
  {
  }

  /** The clamp invariant over a whole session: starting from an empty or
      well-formed table, no click sequence drives any counter below zero or
      changes the number of stages of any entry. */
  lemma {:induction false} RunKeepsInvariant(cfg: Config, form: FormCounts, clicks: seq<Click>)
    requires Valid(cfg) && ClicksOnItems(cfg, clicks) && Invariant(cfg, form)
    ensures Invariant(cfg, Run(cfg, form, clicks))
    decreases |clicks|
  {
    if clicks != [] {
      StepKeepsInvariant(cfg, form, clicks[0]);
      RunKeepsInvariant(cfg, Step(cfg, form, clicks[0]), clicks[1..]);
    }
  }

  /** An item has an edited entry after a session exactly when it had one
      before or the session clicked on it. */
  lemma {:induction false} RunKeys(cfg: Config, form: FormCounts, clicks: seq<Click>)
    requires Valid(cfg) && ClicksOnItems(cfg, clicks)
    ensures Run(cfg, form, clicks).Keys == form.Keys + Touched(clicks)
    decreases |clicks|
  {
    if clicks == [] {
      assert Touched(clicks) == {};
    } else {
      var next := Step(cfg, form, clicks[0]);
      RunKeys(cfg, next, clicks[1..]);
      assert Touched(clicks) == {clicks[0].item} + Touched(clicks[1..]) by {
        forall t | t in Touched(clicks)
          ensures t in {clicks[0].item} + Touched(clicks[1..])
        {
          var k :| 0 <= k < |clicks| && clicks[k].item == t;
          if k > 0 {
            assert clicks[1..][k - 1] == clicks[k];
          }
        }
        forall t | t in Touched(clicks[1..])
          ensures t in Touched(clicks)
        {
          var k :| 0 <= k < |clicks[1..]| && clicks[1..][k].item == t;
          assert clicks[k + 1] == clicks[1..][k];
        }
      }
    }
  }

  /** Items a session never clicks keep their entry, or their absence. */
  lemma {:induction false} RunLeavesUntouched(cfg: Config, form: FormCounts, clicks: seq<Click>, t: string)
    requires Valid(cfg) && ClicksOnItems(cfg, clicks)
    requires forall k :: 0 <= k < |clicks| ==> clicks[k].item != t
    ensures (t in Run(cfg, form, clicks)) == (t in form)
    ensures t in form ==> Run(cfg, form, clicks)[t] == form[t]
    decreases |clicks|
  {
    if clicks != [] {
      RunLeavesUntouched(cfg, Step(cfg, form, clicks[0]), clicks[1..], t);
    }
  }
}
