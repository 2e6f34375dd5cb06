/** The combat formula engine of `src/player.rs`: potion, prayer and style
    tables, effective levels, max hit, attack and defence rolls, hit chance
    and damage per second.

    Every `f64` constant is the exact rational it denotes (`1.05` is 105/100,
    `7.0 / 6.0` is 7/6), each `floor()` is `.Floor`, and `isize` is `int`. */
module Combat {
  import opened Results
  import opened Floats

  datatype StrengthPotion = NoPotion | Strength | SuperStrength

  datatype AttackPotion = NoPotion | Attack | SuperAttack

  datatype AttackPrayer = NoPrayer | Clarity | Improved | Incredible | Chivalry | Piety

  datatype StrengthPrayer = NoPrayer | Burst | Superhuman | Ultimate | Chivalry | Piety

  datatype AttackStyle = Aggressive | Controlled | Accurate | Defensive | Ranged | Magic

  datatype SetBonus = Void | NoSetBonus

  datatype HeadSlot = Slayer | NoHead

  datatype NeckSlot = SalveRegular | SalveEnhanced | NoNeck

  /** The attack type of a stance; it selects the opponent's defence bonus. */
  datatype DefenceStyle = Stab | Slash | Crush | Ranged | Magic | Spellcasting | DefensiveCasting

  /** The ways the formulas panic in the source. */
  datatype Panic =
    | EmptyStances             // `stances[0]` on an empty list
    | StanceWithoutAttackType  // `attack_type.unwrap()` on `None`

  // ---------------------------------------------------------------------
  // Potions: both kinds of potion use the same two formulas on the level
  // they boost.
  // ---------------------------------------------------------------------

  /** A regular attack or strength potion: `floor(level * 0.1 + 3)`,
      which is a tenth of the level rounded down, plus 3. */
  function RegularPotionBonus(level: int): (r: int)
    ensures r == level / 10 + 3
  {
    var x := level as real * 0.1 + 3.0;
    var q := level / 10;
    assert level == 10 * q + level % 10;
    assert (q + 3) as real <= x < (q + 4) as real;
    x.Floor
  }

  /** A super potion: `floor(level * 0.15 + 5)`, which is three twentieths
      of the level rounded down, plus 5. */
  function SuperPotionBonus(level: int): (r: int)
    ensures r == level * 3 / 20 + 5
  {
    var x := level as real * 0.15 + 5.0;
    var q := level * 3 / 20;
    assert level * 3 == 20 * q + (level * 3) % 20;
    assert (q + 5) as real <= x < (q + 6) as real;
    x.Floor
  }

  /** For every non-negative level a super potion boosts at least as much as
      a regular one, and both boost by at least 3. */
  lemma SuperPotionAtLeastRegular(level: int)
    ensures level >= 0 ==> 3 <= RegularPotionBonus(level) <= SuperPotionBonus(level)
  {
    if level >= 0 {
      var q, k := level / 10, level % 10;
      assert level == 10 * q + k;
      assert level * 3 == 20 * q + (10 * q + 3 * k);
      assert (20 * q + (10 * q + 3 * k)) / 20 == q + (10 * q + 3 * k) / 20;
    }
  }

  // ---------------------------------------------------------------------
  // The effective-level formula shared by attack and strength.
  // ---------------------------------------------------------------------

  /** `floor(n * m)`: an integer converted to `f64`, scaled and rounded
      down. A factor of 1 keeps the integer; a factor of at least 1 never
      lowers a non-negative integer. */
  function FloorScaled(n: int, m: real): (r: int)
    ensures m == 1.0 ==> r == n
    ensures n >= 0 && m >= 1.0 ==> r >= n
  {
    assert n >= 0 && m >= 1.0 ==> n as real * m >= n as real by {
      assert n as real * m - n as real == n as real * (m - 1.0);
    }
    (n as real * m).Floor
  }

  /** Scaling by the fraction `p / q` and rounding down is integer
      division: `floor(n * p / q) == n * p / q` in Euclidean division. */
  lemma FloorScaledRational(n: int, p: int, q: int)
    requires q > 0
    ensures FloorScaled(n, p as real / q as real) == n * p / q
  {
    var d, k := n * p / q, (n * p) % q;
    assert n * p == q * d + k;
    assert n as real * (p as real / q as real) == d as real + k as real / q as real;
    assert 0.0 <= k as real / q as real < 1.0;
  }

  /** The void multiplier adds a tenth of the level, rounded down: for a
      non-negative level of at least 10 it raises the level by at least 1. */
  lemma VoidScaledClosedForm(n: int)
    ensures FloorScaled(n, 1.1) == n + n / 10
  {
    var q, k := n / 10, n % 10;
    assert n == 10 * q + k;
    assert n as real * 1.1 == (n + q) as real + k as real / 10.0;
  }

  /** For non-negative operands, scaling and rounding down is monotone in
      both the integer and the factor. */
  lemma FloorScaledMonotone(n: int, m: real, n': int, m': real)
    requires 0 <= n <= n' && 0.0 <= m <= m'
    ensures FloorScaled(n, m) <= FloorScaled(n', m')
  {
    MulMonotone(n as real, m, n' as real, m');
  }

  /** Effective level: boost the level by the potion, multiply by the
      prayer and round down, add the style bonus and 8, multiply by the set
      bonus and round down. With neutral multipliers it is the plain sum,
      and multipliers of at least 1 never bring it below the plain sum. */
  function EffectiveLevel(level: int, potion: int, prayer: real, style: int, setBonus: real): (r: int)
    ensures prayer == 1.0 && setBonus == 1.0 ==> r == level + potion + style + 8
    ensures prayer >= 1.0 && setBonus >= 1.0 && level + potion >= 0 && style + 8 >= 0 ==>
              r >= level + potion + style + 8
  {
    FloorScaled(FloorScaled(level + potion, prayer) + style + 8, setBonus)
  }

  /** With a prayer multiplier `p / q`, the effective level is integer
      arithmetic: the boosted level times `p` divided by `q`, plus the style
      bonus and 8, and then a tenth of that added when the void set is
      worn. */
  lemma EffectiveLevelClosedForm(level: int, potion: int, p: int, q: int, style: int, void: bool)
    requires q > 0
    ensures var s := (level + potion) * p / q + style + 8;
            EffectiveLevel(level, potion, p as real / q as real, style, if void then 1.1 else 1.0)
              == if void then s + s / 10 else s
  {
    FloorScaledRational(level + potion, p, q);
    VoidScaledClosedForm((level + potion) * p / q + style + 8);
  }

  /** The effective level never decreases when any of its inputs grows,
      for non-negative multipliers, a non-negative boosted level and a
      style bonus of at least -8. */
  lemma EffectiveLevelMonotone(
    level: int, potion: int, prayer: real, style: int, setBonus: real,
    level': int, potion': int, prayer': real, style': int, setBonus': real)
    requires 0 <= level + potion <= level' + potion'
    requires 0.0 <= prayer <= prayer' && 0.0 <= setBonus <= setBonus'
    requires -8 <= style <= style'
    ensures EffectiveLevel(level, potion, prayer, style, setBonus)
         <= EffectiveLevel(level', potion', prayer', style', setBonus')
  {
    FloorScaledMonotone(level + potion, prayer, level' + potion', prayer');
    var s := FloorScaled(level + potion, prayer) + style + 8;
    var s' := FloorScaled(level' + potion', prayer') + style' + 8;
    assert FloorScaled(level + potion, prayer) >= 0 by {
      FloorScaledMonotone(0, prayer, level + potion, prayer);
    }
    FloorScaledMonotone(s, setBonus, s', setBonus');
  }

  lemma MulMonotone(a: real, b: real, a': real, b': real)
    requires 0.0 <= a <= a' && 0.0 <= b <= b'
    ensures a * b <= a' * b'
  {
    assert a * b <= a' * b;
    assert a' * b <= a' * b';
  }

  /** `n / m <= c` when `n <= c * m`, for a positive `m`. */
  lemma QuotientAtMost(n: real, m: real, c: real)
    requires m > 0.0 && n <= c * m
    ensures n / m <= c
  {
    assert n / m * m == n;
  }

  /** `n / m < c` when `n < c * m`, for a positive `m`. */
  lemma QuotientBelow(n: real, m: real, c: real)
    requires m > 0.0 && n < c * m
    ensures n / m < c
  {
    assert n / m * m == n;
  }

  // ---------------------------------------------------------------------
  // Rounding of the base max hit.
  // ---------------------------------------------------------------------

  /** The max hit before special bonuses, `floor(0.5 + e * (b + 64) / 640)`:
      the quotient `e * (b + 64) / 640` rounded half up, which is integer
      division after adding 320. */
  function BaseMaxHit(effectiveStrength: int, strengthBonus: int): (r: int)
    ensures r == (effectiveStrength * (strengthBonus + 64) + 320) / 640
  {
    var n := effectiveStrength * (strengthBonus + 64);
    var x := 0.5 + effectiveStrength as real * (strengthBonus + 64) as real / 640.0;
    var q := (n + 320) / 640;
    assert n + 320 == 640 * q + (n + 320) % 640;
    assert x == (n + 320) as real / 640.0;
    assert q as real <= x < (q + 1) as real;
    x.Floor
  }

  // ---------------------------------------------------------------------
  // Accuracy and damage per second on the computed quantities.
  // ---------------------------------------------------------------------

  /** The chance that an attack roll bounded by `attack` beats a defence
      roll bounded by `defence`. For non-negative rolls it is a probability
      below 1, at least one half exactly when the attack roll is the larger
      one. It is NaN only for the rolls -1 against -2, where `0.0 / 0.0`
      is evaluated. */
  function HitChanceOf(attack: int, defence: int): (r: Float)
    ensures attack >= 0 && defence >= 0 ==> r.Num? && 0.0 <= r.v < 1.0
    ensures attack >= 0 && defence >= 0 ==> (r.v >= 0.5 <==> attack > defence)
    ensures r.NaN? <==> attack == -1 && defence == -2
  {
    var a, d := attack as real, defence as real;
    if a > d then
      HitChanceAbove(attack, defence);
      Minus(1.0, Quotient(d + 2.0, 2.0 * (a + 1.0)))
    else
      assert 2.0 * d + 1.0 != 0.0 by {
        assert 2 * defence + 1 != 0;
      }
      HitChanceBelow(attack, defence);
      Quotient(a, 2.0 * d + 1.0)
  }

  /** When the attack roll is the larger one, the quotient subtracted from
      1 lies in (0, 1/2]. */
  lemma HitChanceAbove(attack: int, defence: int)
    ensures 0 <= defence < attack ==>
              var q := (defence as real + 2.0) / (2.0 * (attack as real + 1.0));
              0.0 < q <= 0.5
  {
    if 0 <= defence < attack {
      var a, d := attack as real, defence as real;
      QuotientAtMost(d + 2.0, 2.0 * (a + 1.0), 0.5);
    }
  }

  /** When the defence roll is at least the attack roll, the hit chance
      lies in [0, 1/2). */
  lemma HitChanceBelow(attack: int, defence: int)
    ensures 0 <= attack <= defence ==>
              var q := attack as real / (2.0 * defence as real + 1.0);
              0.0 <= q < 0.5
  {
    if 0 <= attack <= defence {
      var a, d := attack as real, defence as real;
      QuotientBelow(a, 2.0 * d + 1.0, 0.5);
    }
  }

  /** A larger attack roll never lowers the hit chance. */
  lemma HitChanceMonotoneInAttack(attack: int, attack': int, defence: int)
    requires 0 <= attack <= attack' && defence >= 0
    ensures HitChanceOf(attack, defence).v <= HitChanceOf(attack', defence).v
  {
    var a, a', d := attack as real, attack' as real, defence as real;
    if attack > defence {
      QuotientAntitone(d + 2.0, 2.0 * (a + 1.0), 2.0 * (a' + 1.0));
      assert HitChanceOf(attack, defence) == Num(1.0 - (d + 2.0) / (2.0 * (a + 1.0)));
      assert HitChanceOf(attack', defence) == Num(1.0 - (d + 2.0) / (2.0 * (a' + 1.0)));
    } else if attack' <= defence {
      QuotientMonotone(a, a', 2.0 * d + 1.0);
      assert HitChanceOf(attack, defence) == Num(a / (2.0 * d + 1.0));
      assert HitChanceOf(attack', defence) == Num(a' / (2.0 * d + 1.0));
    }
  }

  /** A larger defence roll never raises the hit chance. */
  lemma HitChanceAntitoneInDefence(attack: int, defence: int, defence': int)
    requires attack >= 0 && 0 <= defence <= defence'
    ensures HitChanceOf(attack, defence').v <= HitChanceOf(attack, defence).v
  {
    var a, d, d' := attack as real, defence as real, defence' as real;
    if attack > defence' {
      QuotientMonotone(d + 2.0, d' + 2.0, 2.0 * (a + 1.0));
      assert HitChanceOf(attack, defence) == Num(1.0 - (d + 2.0) / (2.0 * (a + 1.0)));
      assert HitChanceOf(attack, defence') == Num(1.0 - (d' + 2.0) / (2.0 * (a + 1.0)));
    } else if attack <= defence {
      QuotientAntitone(a, 2.0 * d + 1.0, 2.0 * d' + 1.0);
      assert HitChanceOf(attack, defence) == Num(a / (2.0 * d + 1.0));
      assert HitChanceOf(attack, defence') == Num(a / (2.0 * d' + 1.0));
    }
  }

  /** Dividing by a positive number preserves order. */
  lemma QuotientMonotone(n: real, n': real, m: real)
    requires 0.0 <= n <= n' && m > 0.0
    ensures n / m <= n' / m
  {
    assert n' / m - n / m == (n' - n) / m;
  }

  /** A larger positive divisor gives a smaller quotient of a non-negative
      number. */
  lemma QuotientAntitone(n: real, m: real, m': real)
    requires n >= 0.0 && 0.0 < m <= m'
    ensures n / m' <= n / m
  {
    QuotientAtMost(n, m', n / m);
  }

  /** Damage per second, `hit * (max_hit / 2) / interval`: the hit chance
      times the average hit, per second of attack interval. */
  function DpsOf(hitChance: Float, maxHit: int, interval: real): (r: Float)
    ensures hitChance.Num? && hitChance.v >= 0.0 && maxHit >= 0 && interval > 0.0 ==>
              r.Num? && r.v >= 0.0
    ensures hitChance.Num? && maxHit == 0 && interval != 0.0 ==> r == Num(0.0)
    ensures r.NaN? <==>
              || hitChance.NaN?
              || (!hitChance.Num? && maxHit == 0)
              || (hitChance.Num? && interval == 0.0 && (hitChance.v == 0.0 || maxHit == 0))
  {
    var average := maxHit as real / 2.0;
    assert hitChance.Num? && hitChance.v >= 0.0 && maxHit >= 0 ==> hitChance.v * average >= 0.0;
    Over(Times(hitChance, average), interval)
  }

  /** Sum of the hits 0, 1, ..., n. */
  function HitSum(n: nat): nat
  {
    if n == 0 then 0 else HitSum(n - 1) + n
  }

  lemma {:induction false} HitSumClosedForm(n: nat)
    ensures 2 * HitSum(n) == n * (n + 1)
  {
    if n > 0 {
      HitSumClosedForm(n - 1);
    }
  }

  /** Halving the max hit is the mean of a hit drawn uniformly from
      0 .. max hit inclusive. */
  lemma AverageHitIsHalfMaxHit(maxHit: nat)
    ensures HitSum(maxHit) as real / (maxHit + 1) as real == maxHit as real / 2.0
  {
    HitSumClosedForm(maxHit);
    var s, n := HitSum(maxHit) as real, maxHit as real;
    assert 2.0 * s == n * (n + 1.0);
    assert s == n / 2.0 * (n + 1.0);
  }

  /** For a finite hit chance and a positive interval, DPS is the expected
      damage of one attack (hit chance times the mean of a uniform hit in
      0 .. max hit) divided by the attack interval. */
  lemma DpsIsExpectedDamageRate(hitChance: real, maxHit: nat, interval: real)
    requires interval > 0.0
    ensures DpsOf(Num(hitChance), maxHit, interval)
         == Num(hitChance * (HitSum(maxHit) as real / (maxHit + 1) as real) / interval)
  {
    AverageHitIsHalfMaxHit(maxHit);
  }

  /** With a non-negative finite hit chance and a positive interval, DPS
      never decreases as the max hit or the hit chance grows, and never
      increases as the interval grows. */
  lemma DpsMonotone(hitChance: real, maxHit: int, interval: real,
                    hitChance': real, maxHit': int, interval': real)
    requires 0.0 <= hitChance <= hitChance'
    requires 0 <= maxHit <= maxHit'
    requires 0.0 < interval' <= interval
    ensures DpsOf(Num(hitChance), maxHit, interval).v <= DpsOf(Num(hitChance'), maxHit', interval').v
  {
    var m, m' := maxHit as real / 2.0, maxHit' as real / 2.0;
    var e, e' := hitChance * m, hitChance' * m';
    MulMonotone(hitChance, m, hitChance', m');
    assert 0.0 <= e <= e';
    assert DpsOf(Num(hitChance), maxHit, interval) == Num(e / interval);
    assert DpsOf(Num(hitChance'), maxHit', interval') == Num(e' / interval');
    QuotientMonotone(e, e', interval);
    QuotientAntitone(e', interval', interval);
  }

  // ---------------------------------------------------------------------
  // Entities.
  // ---------------------------------------------------------------------

  datatype WeaponStance = WeaponStance(
    combatStyle: string,
    attackType: Option<DefenceStyle>,
    attackStyle: Option<AttackStyle>)

  /** The weapon block of an item: attack speed in game ticks and stances. */
  datatype WeaponStats = WeaponStats(attackSpeed: int, stances: seq<WeaponStance>)

  datatype Weapon = Weapon(name: string, weapon: WeaponStats)
  {
    /** Seconds between attacks: 0.6 seconds per game tick. */
    function AttackInterval(): (r: real)
      ensures 5.0 * r == 3.0 * weapon.attackSpeed as real
      ensures r > 0.0 <==> weapon.attackSpeed > 0
    {
      weapon.attackSpeed as real * 0.6
    }

    /** The attack type of the weapon's first stance; the source panics
        when there is no stance or the first has no attack type. */
    function AttackType(): (r: Result<DefenceStyle, Panic>)
      ensures r.Failure? <==> |weapon.stances| == 0 || weapon.stances[0].attackType.None?
      ensures r.Failure? ==> (r.error == EmptyStances <==> |weapon.stances| == 0)
      ensures r.Success? ==> Some(r.value) == weapon.stances[0].attackType
    {
      if |weapon.stances| == 0 then Failure(EmptyStances)
      else match weapon.stances[0].attackType
        case None => Failure(StanceWithoutAttackType)
        case Some(t) => Success(t)
    }
  }

  datatype Gear = Gear(setBonus: SetBonus, head: HeadSlot, neck: NeckSlot, weapon: Weapon)
  {
    /** The void set multiplies effective levels by 1.1. */
    function VoidBonus(): (r: real)
      ensures setBonus == Void <==> r == 1.1
      ensures setBonus == NoSetBonus <==> r == 1.0
    {
      match setBonus
      case NoSetBonus => 1.0
      case Void => 1.1
    }

    /** The slayer helm adds a sixth, and only on task. */
    function RegularBonus(onTask: bool): (r: real)
      ensures r == 7.0 / 6.0 <==> head == Slayer && onTask
      ensures r == 1.0 <==> !(head == Slayer && onTask)
    {
      match head
      case Slayer => if onTask then 7.0 / 6.0 else 1.0
      case _ => 1.0
    }

    /** Against the undead a salve amulet decides (a sixth, or a fifth when
        enhanced) and without one the head decides; a salve is never worse
        than the head. */
    function UndeadBonus(onTask: bool): (r: real)
      ensures neck == SalveEnhanced ==> r == 1.2
      ensures neck == SalveRegular ==> r == 7.0 / 6.0
      ensures neck == NoNeck ==> r == RegularBonus(onTask)
      ensures RegularBonus(onTask) <= r <= 1.2
    {
      match neck
      case SalveEnhanced => 1.2
      case SalveRegular => 7.0 / 6.0
      case NoNeck => RegularBonus(onTask)
    }

    /** The multiplier on max hit and attack roll: against an undead target
        the amulet decides (falling back to the helm without one), otherwise
        the helm alone. It is 1.2 only for an enhanced salve against undead,
        7/6 for a regular salve against undead or for a slayer helm on task
        when no salve applies, and 1 otherwise. */
    function SpecialBonus(undead: bool, onTask: bool): (r: real)
      ensures 1.0 <= r <= 1.2
      ensures r == 1.0 || r == 7.0 / 6.0 || r == 1.2
      ensures r == 1.2 <==> undead && neck == SalveEnhanced
      ensures r == 7.0 / 6.0 <==>
                || (undead && neck == SalveRegular)
                || ((!undead || neck == NoNeck) && head == Slayer && onTask)
    {
      if undead then UndeadBonus(onTask) else RegularBonus(onTask)
    }

    /** Seconds between attacks with the worn weapon: positive exactly when
        its attack speed is, and 0.6 seconds per tick. */
    function AttackInterval(): (r: real)
      ensures r > 0.0 <==> weapon.weapon.attackSpeed > 0
      ensures 5.0 * r == 3.0 * weapon.weapon.attackSpeed as real
    {
      weapon.AttackInterval()
    }
  }

  /** `Vec::contains`: a linear scan for `item`. */
  function Contains(items: seq<string>, item: string): (r: bool)
    ensures r <==> item in items
  {
    |items| > 0 && (items[0] == item || Contains(items[1..], item))
  }

  datatype Monster = Monster(
    name: string,
    defenceLevel: int,
    defenceStab: int,
    defenceSlash: int,
    defenceCrush: int,
    defenceMagic: int,
    defenceRanged: int,
    attributes: seq<string>)
  {
    /** The monster's level plus 1 plus the constant 8. */
    function EffectiveDefenceLevel(): (r: int)
      ensures r - defenceLevel == 9
    {
      defenceLevel + 1 + 8
    }

    /** The defence bonus against an attack type. Every attack type has
        one, and the three magic types share the magic bonus. */
    function DefenceEquipmentBonus(style: DefenceStyle): (r: int)
      ensures r in [defenceStab, defenceSlash, defenceCrush, defenceRanged, defenceMagic]
      ensures r == defenceMagic <== style in {DefenceStyle.Magic, Spellcasting, DefensiveCasting}
      ensures style == Stab ==> r == defenceStab
      ensures style == Slash ==> r == defenceSlash
      ensures style == Crush ==> r == defenceCrush
      ensures style == DefenceStyle.Ranged ==> r == defenceRanged
    {
      match style
      case Stab => defenceStab
      case Slash => defenceSlash
      case Crush => defenceCrush
      case Ranged => defenceRanged
      case Spellcasting | DefensiveCasting | Magic => defenceMagic
    }

    /** `(level + 9) * (bonus + 64)`: non-negative for a level of at least
        -9 and a bonus of at least -64, and zero exactly when one of the
        two factors is. */
    function MaxDefenceRoll(style: DefenceStyle): (r: int)
      ensures defenceLevel >= -9 && DefenceEquipmentBonus(style) >= -64 ==> r >= 0
      ensures r == 0 <==> defenceLevel == -9 || DefenceEquipmentBonus(style) == -64
    {
      EffectiveDefenceLevel() * (DefenceEquipmentBonus(style) + 64)
    }

    /** Holds exactly when "undead" is one of the monster's attributes. */
    function IsUndead(): (r: bool)
      ensures r <==> "undead" in attributes
    {
      Contains(attributes, "undead")
    }

    /** No defence bonus is below -64 and the level is at least -9, so that
        every defence roll is non-negative. */
    predicate WellFormed()
    {
      && defenceLevel >= -9
      && defenceStab >= -64 && defenceSlash >= -64 && defenceCrush >= -64
      && defenceMagic >= -64 && defenceRanged >= -64
    }
  }

  datatype Player = Player(
    name: string,
    attack: int,
    strength: int,
    attackPotion: AttackPotion,
    attackPrayer: AttackPrayer,
    attackEquipmentBonus: int,
    strengthPotion: StrengthPotion,
    strengthPrayer: StrengthPrayer,
    strengthEquipmentBonus: int,
    attackStyle: AttackStyle,
    gear: Gear)
  {
    /** Aggressive gives +3 strength, controlled +1, every other style 0. */
    function StrengthStyleBonus(): (r: int)
      ensures r == 3 <==> attackStyle == Aggressive
      ensures r == 1 <==> attackStyle == Controlled
      ensures r == 0 <==> attackStyle != Aggressive && attackStyle != Controlled
    {
      match attackStyle
      case Accurate => 0
      case Aggressive => 3
      case Controlled => 1
      case Defensive => 0
      case _ => 0
    }

    /** Each strength prayer multiplies by a factor in [1, 1.23]; only
        the absence of a prayer gives exactly 1. */
    function StrengthPrayerBonus(): (r: real)
      ensures 1.0 <= r <= 1.23
      ensures (r * 100.0).Floor as real == r * 100.0
      ensures r == 1.0 <==> strengthPrayer == StrengthPrayer.NoPrayer
    {
      match strengthPrayer
      case NoPrayer => 1.0
      case Burst => 1.05
      case Superhuman => 1.1
      case Ultimate => 1.15
      case Chivalry => 1.18
      case Piety => 1.23
    }

    /** The strength potion's boost: nothing without a potion, a tenth of
        the level plus 3 for a regular potion, three twentieths plus 5 for a
        super potion. For a non-negative level it is zero exactly without a
        potion and never exceeds the super potion's. */
    function StrengthPotionBonus(): (r: int)
      ensures strengthPotion == StrengthPotion.NoPotion ==> r == 0
      ensures strengthPotion == Strength ==> r == strength / 10 + 3
      ensures strengthPotion == SuperStrength ==> r == strength * 3 / 20 + 5
      ensures strength >= 0 ==> (r == 0 <==> strengthPotion == StrengthPotion.NoPotion)
      ensures strength >= 0 ==> 0 <= r <= SuperPotionBonus(strength)
    {
      SuperPotionAtLeastRegular(strength);
      match strengthPotion
      case NoPotion => 0
      case Strength => RegularPotionBonus(strength)
      case SuperStrength => SuperPotionBonus(strength)
    }

    /** Accurate gives +3 attack, controlled +1, every other style 0. */
    function AttackStyleBonus(): (r: int)
      ensures r == 3 <==> attackStyle == Accurate
      ensures r == 1 <==> attackStyle == Controlled
      ensures r == 0 <==> attackStyle != Accurate && attackStyle != Controlled
    {
      match attackStyle
      case Accurate => 3
      case Aggressive => 0
      case Controlled => 1
      case Defensive => 0
      case _ => 0
    }

    /** Each attack prayer multiplies by a factor in [1, 1.2]; only the
        absence of a prayer gives exactly 1. */
    function AttackPrayerBonus(): (r: real)
      ensures 1.0 <= r <= 1.2
      ensures (r * 100.0).Floor as real == r * 100.0
      ensures r == 1.0 <==> attackPrayer == AttackPrayer.NoPrayer
    {
      match attackPrayer
      case NoPrayer => 1.0
      case Clarity => 1.05
      case Improved => 1.1
      case Incredible => 1.15
      case Chivalry => 1.15
      case Piety => 1.2
    }

    /** The attack potion's boost: nothing without a potion, a tenth of
        the level plus 3 for a regular potion, three twentieths plus 5 for a
        super potion. For a non-negative level it is zero exactly without a
        potion and never exceeds the super potion's. */
    function AttackPotionBonus(): (r: int)
      ensures attackPotion == AttackPotion.NoPotion ==> r == 0
      ensures attackPotion == Attack ==> r == attack / 10 + 3
      ensures attackPotion == SuperAttack ==> r == attack * 3 / 20 + 5
      ensures attack >= 0 ==> (r == 0 <==> attackPotion == AttackPotion.NoPotion)
      ensures attack >= 0 ==> 0 <= r <= SuperPotionBonus(attack)
    {
      SuperPotionAtLeastRegular(attack);
      match attackPotion
      case NoPotion => 0
      case Attack => RegularPotionBonus(attack)
      case SuperAttack => SuperPotionBonus(attack)
    }

    /** The effective strength level. Without potion, prayer or void it is
        the level plus the style bonus plus 8; for a non-negative level it
        is never below the level plus 8. */
    function EffectiveStrengthLevel(): (r: int)
      ensures strengthPotion == StrengthPotion.NoPotion && strengthPrayer == StrengthPrayer.NoPrayer && gear.setBonus == NoSetBonus ==>
                r == strength + StrengthStyleBonus() + 8
      ensures strength >= 0 ==> r >= strength + StrengthPotionBonus() + StrengthStyleBonus() + 8
      ensures strength >= 0 ==> r >= strength + 8
      ensures var s := (strength + StrengthPotionBonus()) * (StrengthPrayerBonus() * 100.0).Floor / 100 + StrengthStyleBonus() + 8;
              r == if gear.setBonus == Void then s + s / 10 else s
    {
      var prayer := StrengthPrayerBonus();
      var percent := (prayer * 100.0).Floor;
      assert prayer == percent as real / 100 as real;
      EffectiveLevelClosedForm(strength, StrengthPotionBonus(), percent, 100, StrengthStyleBonus(), gear.setBonus == Void);
      EffectiveLevel(strength, StrengthPotionBonus(), StrengthPrayerBonus(),
                     StrengthStyleBonus(), gear.VoidBonus())
    }

    /** The effective attack level, with the same guarantees as the
        effective strength level. */
    function EffectiveAttackLevel(): (r: int)
      ensures attackPotion == AttackPotion.NoPotion && attackPrayer == AttackPrayer.NoPrayer && gear.setBonus == NoSetBonus ==>
                r == attack + AttackStyleBonus() + 8
      ensures attack >= 0 ==> r >= attack + AttackPotionBonus() + AttackStyleBonus() + 8
      ensures attack >= 0 ==> r >= attack + 8
      ensures var s := (attack + AttackPotionBonus()) * (AttackPrayerBonus() * 100.0).Floor / 100 + AttackStyleBonus() + 8;
              r == if gear.setBonus == Void then s + s / 10 else s
    {
      var prayer := AttackPrayerBonus();
      var percent := (prayer * 100.0).Floor;
      assert prayer == percent as real / 100 as real;
      EffectiveLevelClosedForm(attack, AttackPotionBonus(), percent, 100, AttackStyleBonus(), gear.setBonus == Void);
      EffectiveLevel(attack, AttackPotionBonus(), AttackPrayerBonus(),
                     AttackStyleBonus(), gear.VoidBonus())
    }

    /** The max hit: the base max hit rounded half up, then the special
        multiplier rounded down. With multiplier 1 it is the base max hit;
        otherwise a non-negative base is raised by at most a fifth. */
    function MaxHit(monster: Monster, onTask: bool): (r: int)
      ensures var base := (EffectiveStrengthLevel() * (strengthEquipmentBonus + 64) + 320) / 640;
              var m := gear.SpecialBonus(monster.IsUndead(), onTask);
              && (m == 1.0 ==> r == base)
              && (m == 7.0 / 6.0 ==> r == base * 7 / 6)
              && (m == 1.2 ==> r == base * 6 / 5)
              && (base >= 0 ==> base <= r <= base * 6 / 5)
    {
      var hit := BaseMaxHit(EffectiveStrengthLevel(), strengthEquipmentBonus);
      var m := gear.SpecialBonus(monster.IsUndead(), onTask);
      FloorScaledSpecial(hit, m);
      FloorScaled(hit, m)
    }

    /** The max attack roll: effective attack level times (bonus + 64), then
        the special multiplier rounded down. With multiplier 1 it is the
        plain product; otherwise a non-negative product is raised by at
        most a fifth. */
    function MaxAttackRoll(monster: Monster, onTask: bool): (r: int)
      ensures var roll := EffectiveAttackLevel() * (attackEquipmentBonus + 64);
              var m := gear.SpecialBonus(monster.IsUndead(), onTask);
              && (m == 1.0 ==> r == roll)
              && (m == 7.0 / 6.0 ==> r == roll * 7 / 6)
              && (m == 1.2 ==> r == roll * 6 / 5)
              && (roll >= 0 ==> roll <= r <= roll * 6 / 5)
    {
      var roll := EffectiveAttackLevel() * (attackEquipmentBonus + 64);
      var m := gear.SpecialBonus(monster.IsUndead(), onTask);
      FloorScaledSpecial(roll, m);
      FloorScaled(roll, m)
    }

    /** The hit chance against the monster's defence roll for `attackType`
        (the source reads it from the weapon's first stance). With
        non-negative rolls it is a probability below 1, and at least one
        half exactly when the attack roll beats the defence roll. */
    function HitChance(monster: Monster, onTask: bool, attackType: DefenceStyle): (r: Float)
      ensures var attackRoll, defenceRoll := MaxAttackRoll(monster, onTask), monster.MaxDefenceRoll(attackType);
              attackRoll >= 0 && defenceRoll >= 0 ==>
                && r.Num? && 0.0 <= r.v < 1.0
                && (r.v >= 0.5 <==> attackRoll > defenceRoll)
    {
      HitChanceOf(MaxAttackRoll(monster, onTask), monster.MaxDefenceRoll(attackType))
    }

    /** DPS against the monster when the defence roll is taken for
        `attackType`: finite and non-negative for a finite non-negative hit
        chance, a non-negative max hit and a positive attack speed, and zero
        when the max hit is zero. */
    function DpsAgainst(monster: Monster, onTask: bool, attackType: DefenceStyle): (r: Float)
      ensures var h := HitChance(monster, onTask, attackType);
              h.Num? && h.v >= 0.0 && MaxHit(monster, onTask) >= 0 && gear.weapon.weapon.attackSpeed > 0 ==>
                r.Num? && r.v >= 0.0
      ensures var h := HitChance(monster, onTask, attackType);
              h.Num? && MaxHit(monster, onTask) == 0 && gear.weapon.weapon.attackSpeed != 0 ==>
                r == Num(0.0)
    {
      DpsOf(HitChance(monster, onTask, attackType), MaxHit(monster, onTask), gear.AttackInterval())
    }

    /** DPS with the attack type of the weapon's first stance; it panics
        exactly when that attack type cannot be read. */
    function Dps(monster: Monster, onTask: bool): (r: Result<Float, Panic>)
      ensures r.Failure? <==> gear.weapon.AttackType().Failure?
      ensures r.Failure? ==> r.error == gear.weapon.AttackType().error
      ensures r.Success? ==>
                r.value == DpsAgainst(monster, onTask, gear.weapon.weapon.stances[0].attackType.value)
    {
      match gear.weapon.AttackType()
      case Failure(e) => Failure(e)
      case Success(t) => Success(DpsAgainst(monster, onTask, t))
    }

    /** Levels are non-negative, equipment bonuses at least -64 and the
        weapon attacks at a positive interval. */
    predicate WellFormed()
    {
      && attack >= 0 && strength >= 0
      && attackEquipmentBonus >= -64 && strengthEquipmentBonus >= -64
      && gear.weapon.weapon.attackSpeed > 0
    }
  }

  /** A special multiplier (1, 7/6 or 1.2) applied and rounded down is
      integer arithmetic, and raises a non-negative n to at most 6n/5. */
  lemma FloorScaledSpecial(n: int, m: real)
    requires m == 1.0 || m == 7.0 / 6.0 || m == 1.2
    ensures m == 1.0 ==> FloorScaled(n, m) == n
    ensures m == 7.0 / 6.0 ==> FloorScaled(n, m) == n * 7 / 6
    ensures m == 1.2 ==> FloorScaled(n, m) == n * 6 / 5
    ensures n >= 0 ==> n <= FloorScaled(n, m) <= n * 6 / 5
  {
    FloorScaledAtMostSixFifths(n, m);
    FloorScaledRational(n, 7, 6);
    FloorScaledRational(n, 6, 5);
  }

  /** A multiplier of at most 1.2 raises a non-negative integer by at most
      a fifth, rounded down. */
  lemma FloorScaledAtMostSixFifths(n: int, m: real)
    requires m <= 1.2
    ensures n >= 0 ==> FloorScaled(n, m) <= n * 6 / 5
  {
    if n >= 0 {
      var x := n as real * m;
      assert x <= n as real * 1.2;
      var q := n * 6 / 5;
      assert n * 6 == 5 * q + (n * 6) % 5;
      assert x < (q + 1) as real;
    }
  }

  /** For well-formed inputs DPS is a finite, non-negative number and the
      hit chance a probability below 1. */
  lemma DpsFiniteWhenWellFormed(p: Player, monster: Monster, onTask: bool, attackType: DefenceStyle)
    requires p.WellFormed() && monster.WellFormed()
    ensures var h := p.HitChance(monster, onTask, attackType);
            h.Num? && 0.0 <= h.v < 1.0
    ensures var d := p.DpsAgainst(monster, onTask, attackType);
            d.Num? && d.v >= 0.0
  {
    var roll := p.EffectiveAttackLevel() * (p.attackEquipmentBonus + 64);
    NonNegativeProduct(p.EffectiveAttackLevel(), p.attackEquipmentBonus + 64);
    assert p.MaxAttackRoll(monster, onTask) >= roll >= 0;
    assert monster.MaxDefenceRoll(attackType) >= 0;
    var hit := p.EffectiveStrengthLevel() * (p.strengthEquipmentBonus + 64);
    NonNegativeProduct(p.EffectiveStrengthLevel(), p.strengthEquipmentBonus + 64);
    assert (hit + 320) / 640 >= 0;
    assert p.MaxHit(monster, onTask) >= 0;
    assert p.gear.AttackInterval() > 0.0;
  }

  lemma NonNegativeProduct(x: int, y: int)
    requires x >= 0 && y >= 0
    ensures x * y >= 0
  {
  }

  /** The example of a level-99 player with no boosts and bare fists
      (4 ticks, accurate crush) against a level-100 dummy with no defence
      bonuses. The accurate style adds 3 to the attack level (110), the
      strength level is 107, so the attack roll 7040 exceeds the defence
      roll 6976, the hit chance is 3552/7041 and the max hit 11. */
  lemma UnarmedAgainstDummy()
    ensures var fists := Weapon("Unarmed", WeaponStats(4, [WeaponStance("Punch", Some(Crush), Some(Accurate))]));
            var p := Player("Player", 99, 99, AttackPotion.NoPotion, AttackPrayer.NoPrayer, 0,
                            StrengthPotion.NoPotion, StrengthPrayer.NoPrayer, 0, Accurate,
                            Gear(NoSetBonus, NoHead, NoNeck, fists));
            var dummy := Monster("Test Dummy", 100, 0, 0, 0, 0, 0, []);
            && p.EffectiveAttackLevel() == 110 && p.EffectiveStrengthLevel() == 107
            && p.MaxAttackRoll(dummy, false) == 7040 && dummy.MaxDefenceRoll(Crush) == 6976
            && p.MaxHit(dummy, false) == 11
            && p.Dps(dummy, false) == Success(Num(3552.0 / 7041.0 * 5.5 / 2.4))
  {
    var fists := Weapon("Unarmed", WeaponStats(4, [WeaponStance("Punch", Some(Crush), Some(Accurate))]));
    var p := Player("Player", 99, 99, AttackPotion.NoPotion, AttackPrayer.NoPrayer, 0,
                    StrengthPotion.NoPotion, StrengthPrayer.NoPrayer, 0, Accurate,
                    Gear(NoSetBonus, NoHead, NoNeck, fists));
    var dummy := Monster("Test Dummy", 100, 0, 0, 0, 0, 0, []);
    assert !dummy.IsUndead();
    assert p.EffectiveAttackLevel() == 110;
    assert p.EffectiveStrengthLevel() == 107;
    assert BaseMaxHit(107, 0) == 11;
  }
}
