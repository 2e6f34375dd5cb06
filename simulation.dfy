/** Stance selection of `src/simulation.rs`: the DPS of the base player in
    each weapon stance, and the stance with the highest DPS. */
module Simulation {
  import opened Results
  import opened Floats
  import opened Combat

  /** A weapon stance as the selection sees it: the attack style that sets
      the level bonuses and the attack type that selects the defence roll. */
  type Style = (AttackStyle, DefenceStyle)

  /** A DPS paired with the stance that achieves it. */
  type Scored = (Float, Style)

  /** The ways the selection panics in the source. */
  datatype SelectionError =
    | NoStyles         // `first().unwrap()` on an empty list
    | IncomparableDps  // `partial_cmp(..).unwrap()` on a NaN DPS

  /** The DPS of `base` fighting in `style`, on task: the player's attack
      style replaced by the stance's, and the defence roll taken for the
      stance's attack type. For a well-formed player and monster it is a
      finite, non-negative number, so comparing it never panics. */
  function StyleDps(base: Player, monster: Monster, style: Style): (r: Float)
    ensures base.WellFormed() && monster.WellFormed() ==> r.Num? && r.v >= 0.0
  {
    StanceKeepsWellFormed(base, monster, style);
    base.(attackStyle := style.0).DpsAgainst(monster, true, style.1)
  }

  /** Changing the attack style keeps a player well formed, so the DPS in
      any stance is finite and non-negative. */
  lemma StanceKeepsWellFormed(base: Player, monster: Monster, style: Style)
    ensures base.WellFormed() && monster.WellFormed() ==>
              var d := base.(attackStyle := style.0).DpsAgainst(monster, true, style.1);
              d.Num? && d.v >= 0.0
  {
    if base.WellFormed() && monster.WellFormed() {
      var p := base.(attackStyle := style.0);
      assert p.WellFormed();
      DpsFiniteWhenWellFormed(p, monster, true, style.1);
    }
  }

  /** The (DPS, stance) pairs: one per stance, in the order of the stances,
      each stance paired with its own DPS. */
  function Scores(base: Player, monster: Monster, styles: seq<Style>): (r: seq<Scored>)
    ensures |r| == |styles|
    ensures forall i | 0 <= i < |r| :: r[i].1 == styles[i] && r[i].0 == StyleDps(base, monster, styles[i])
  {
    seq(|styles|, i requires 0 <= i < |styles| => (StyleDps(base, monster, styles[i]), styles[i]))
  }

  predicate HasNaN(scores: seq<Scored>)
  {
    exists i | 0 <= i < |scores| :: scores[i].0.NaN?
  }

  /** When the source panics: taking the first of no pairs, or sorting at
      least two pairs of which one has a NaN DPS (a sort of two or more
      elements compares every element at least once, and a comparison with
      NaN panics; a single element is never compared). */
  predicate SelectionPanics(scores: seq<Scored>)
  {
    |scores| == 0 || (|scores| >= 2 && HasNaN(scores))
  }

  /** `x` is a DPS at least that of every pair. */
  predicate IsTop(scores: seq<Scored>, x: Float)
  {
    forall i | 0 <= i < |scores| :: Le(scores[i].0, x)
  }

  /** The sort by descending DPS followed by `first().unwrap()`: a pair
      of `scores` with the top DPS. Which of several pairs with equal DPS
      comes first is left open by the unstable sort, so only the DPS of the
      result is determined. */
  method SelectTop(scores: seq<Scored>) returns (r: Result<Scored, SelectionError>)
    ensures r.Failure? <==> SelectionPanics(scores)
    ensures r.Failure? ==> (r.error == NoStyles <==> |scores| == 0)
    ensures r.Success? ==> r.value in scores
    ensures r.Success? && |scores| >= 2 ==> IsTop(scores, r.value.0)
  {
    if |scores| == 0 {
      return Failure(NoStyles);
    }
    if |scores| == 1 {
      return Success(scores[0]);
    }
    if scores[0].0.NaN? {
      return Failure(IncomparableDps);
    }
    var best := 0;
    for i := 1 to |scores|
      invariant 0 <= best < i
      invariant forall j | 0 <= j < i :: !scores[j].0.NaN?
      invariant forall j | 0 <= j < i :: Le(scores[j].0, scores[best].0)
    {
      if scores[i].0.NaN? {
        return Failure(IncomparableDps);
      }
      LeTotal(scores[i].0, scores[best].0);
      if !Le(scores[i].0, scores[best].0) {
        forall j | 0 <= j < i
          ensures Le(scores[j].0, scores[i].0)
        {
          LeTransitive(scores[j].0, scores[best].0, scores[i].0);
        }
        best := i;
      }
    }
    r := Success(scores[best]);
  }

  /** `run_attack_styles`: the (DPS, stance) pair with the highest DPS over
      all stances, or the panic of the sort or of `first().unwrap()`. */
  method RunAttackStyles(base: Player, monster: Monster, styles: seq<Style>)
    returns (r: Result<Scored, SelectionError>)
    ensures r.Failure? <==> SelectionPanics(Scores(base, monster, styles))
    ensures r.Failure? ==> (r.error == NoStyles <==> |styles| == 0)
    ensures r.Success? ==> r.value in Scores(base, monster, styles)
    ensures r.Success? && |styles| >= 2 ==> IsTop(Scores(base, monster, styles), r.value.0)
  {
    var a := Scores(base, monster, styles);
    r := SelectTop(a);
  }

  /** The selection panics or not, and returns the base player unchanged
      when it does not: the chosen stance is only reported. */
  method Run(base: Player, monster: Monster, styles: seq<Style>) returns (r: Result<Player, SelectionError>)
    ensures r.Failure? <==> SelectionPanics(Scores(base, monster, styles))
    ensures r.Success? ==> r.value == base
  {
    var best := RunAttackStyles(base, monster, styles);
    match best
    case Failure(e) => return Failure(e);
    case Success(_) => return Success(base);
  }

  /** Two results that both have the top DPS have the same DPS: the value
      is determined even when the stance is not. */
  lemma TopDpsIsUnique(scores: seq<Scored>, x: Scored, y: Scored)
    requires x in scores && IsTop(scores, x.0)
    requires y in scores && IsTop(scores, y.0)
    ensures x.0 == y.0
  {
    var i :| 0 <= i < |scores| && scores[i] == x;
    var j :| 0 <= j < |scores| && scores[j] == y;
    assert Le(x.0, y.0) && Le(y.0, x.0);
    LeAntisymmetric(x.0, y.0);
  }

  /** For a well-formed player and monster every stance has a finite DPS,
      so the selection panics only when there is no stance. */
  lemma WellFormedSelectionPanicsOnlyWhenEmpty(base: Player, monster: Monster, styles: seq<Style>)
    requires base.WellFormed() && monster.WellFormed()
    ensures SelectionPanics(Scores(base, monster, styles)) <==> |styles| == 0
  {
    var scores := Scores(base, monster, styles);
    forall i | 0 <= i < |scores|
      ensures scores[i].0.Num?
    {
      var p := base.(attackStyle := styles[i].0);
      assert p.WellFormed();
      DpsFiniteWhenWellFormed(p, monster, true, styles[i].1);
    }
  }
}
