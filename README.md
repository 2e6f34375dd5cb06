# OSRSim combat formulas and stance selection, in Dafny

This project models the melee combat formula engine of OSRSim and its stance
selection. The engine turns a player's levels, potions, prayers, attack style
and gear into a damage-per-second (DPS) figure against a monster. The
selection picks the weapon stance with the highest DPS.

- `results.dfy`, module `Results`: `Option` and `Result`. A Rust panic is
  returned as a `Failure`.
- `floats.dfy`, module `Floats`: the `f64` values the formulas produce. A
  finite value is an exact rational. The infinities and NaN that division by
  zero produces are also modelled, together with the `partial_cmp` order.
- `combat.dfy`, module `Combat`: `src/player.rs`. It holds the enumerations,
  `Gear`, `Player`, `Monster`, `Weapon` and `WeaponStance` as datatypes, and
  every formula as a function over them.
- `simulation.dfy`, module `Simulation`: `src/simulation.rs`. It holds the
  DPS of each stance, `run_attack_styles` as an argmax loop, and `run`.

Every `f64` constant is the exact rational it denotes: `1.05` is 105/100 and
`7.0 / 6.0` is 7/6. Each `floor()` is Dafny's `.Floor`, and `isize` is `int`.
The proved facts include these:
- the closed integer forms of the potion formulas and of the round-half-up
  max hit;
- bounds and monotonicity of effective levels, hit chance and DPS;
- "average hit = max hit / 2" is the mean of a uniform hit in 0..max hit;
- the exact conditions under which the selection panics;
- the selected DPS is the maximum over all stances.

Per-stance DPS. `src/simulation.rs:9` calls `Player::weapon_styles()` and
`src/simulation.rs:11` a three-argument `dps`. Neither exists in `src/player.rs`. The model therefore
computes a stance's DPS with the `src/player.rs` chain and two substitutions:
- the stance's `AttackStyle` replaces the player's `attack_style` (a datatype
  update);
- the stance's `DefenceStyle` replaces `weapon.attack_type()` as the attack
  type of the monster's defence roll.

The on-task flag is `true`, as at that call site.

Behaviour of the code worth knowing when reading the model:
- A `Gear` always holds a weapon, so there is no unarmed fallback for the
  attack speed.
- In the level-99 unarmed accurate-crush example against a level-100 dummy,
  the accurate +3 gives an effective attack level of 110. The attack roll
  7040 beats the defence roll 6976, and the hit chance is 3552/7041
  (`Combat.UnarmedAgainstDummy`).
- `sort_unstable_by` leaves the order of equal DPS unspecified, so only the
  top DPS of the selected stance is stated.
- Negative rolls can divide by zero: -1 against -2 gives NaN, and -1
  against anything below -2 gives +∞. The model keeps these values.

## Model

| member | source | states |
|---|---|---|
| `Combat.RegularPotionBonus` | src/player.rs:189-196 | the regular potion bonus floor(L·0.1 + 3) equals L/10 + 3 (integer division) for every level |
| `Combat.SuperPotionBonus` | src/player.rs:219-226 | the super potion bonus floor(L·0.15 + 5) equals 3L/20 + 5 (integer division) for every level |
| `Combat.SuperPotionAtLeastRegular` | src/player.rs:219-226 | for a non-negative level, 3 ≤ regular bonus ≤ super bonus |
| `Combat.FloorScaled` | src/player.rs:230-233 | floor(n·m) is n when m = 1, and is never below a non-negative n when m ≥ 1 |
| `Combat.FloorScaledRational` | src/player.rs:230-233 | floor(n · p/q) equals n·p/q in integer division for every n and positive q |
| `Combat.VoidScaledClosedForm` | src/player.rs:232-233 | the void multiplier floor(1.1·n) adds n/10 (integer division), so any level of at least 10 gains at least 1 |
| `Combat.FloorScaledMonotone` | src/player.rs:230-233 | floor(n·m) is monotone in both n and m for non-negative operands |
| `Combat.FloorScaledSpecial` | src/player.rs:248-261 | the special multipliers 1, 7/6 and 1.2, applied and rounded down, give n, n·7/6 and n·6/5 in integer division, and for n ≥ 0 a value in [n, 6n/5] |
| `Combat.FloorScaledAtMostSixFifths` | src/player.rs:248-252 | a multiplier of at most 1.2 raises a non-negative n to at most 6n/5 |
| `Combat.EffectiveLevel` | src/player.rs:228-242 | with prayer and set multiplier 1 the effective level is level + potion + style + 8; with multipliers ≥ 1 it is never below that sum |
| `Combat.EffectiveLevelClosedForm` | src/player.rs:228-242 | with a prayer multiplier p/q the effective level is s = (level + potion)·p/q + style + 8 in integer division, rounded after the prayer and before the style bonus; with void it is s + s/10 |
| `Combat.EffectiveLevelMonotone` | src/player.rs:228-242 | the effective level never decreases when the boosted level, prayer, style bonus or set multiplier grows |
| `Combat.BaseMaxHit` | src/player.rs:245-247 | floor(0.5 + e·(b+64)/640) is round-half-up, equal to (e·(b+64) + 320)/640 in integer division |
| `Combat.HitChanceOf` | src/player.rs:264-273 | for non-negative rolls the hit chance is finite, in [0, 1), and ≥ 1/2 exactly when attack > defence; it is NaN exactly for the rolls -1 and -2 |
| `Combat.HitChanceAbove` | src/player.rs:268-269 | when attack > defence ≥ 0 the subtracted quotient (d+2)/(2(a+1)) lies in (0, 1/2] |
| `Combat.HitChanceBelow` | src/player.rs:270-271 | when 0 ≤ attack ≤ defence the hit chance a/(2d+1) lies in [0, 1/2) |
| `Combat.HitChanceMonotoneInAttack` | src/player.rs:264-273 | a larger attack roll never lowers the hit chance, across both branches |
| `Combat.HitChanceAntitoneInDefence` | src/player.rs:264-273 | a larger defence roll never raises the hit chance, across both branches |
| `Combat.DpsOf` | src/player.rs:275-278 | DPS is finite and ≥ 0 for a finite hit chance ≥ 0, max hit ≥ 0 and positive interval; it is 0 when max hit is 0, for a finite hit chance and a non-zero interval; it is NaN exactly in the listed division-by-zero cases |
| `Combat.HitSumClosedForm` | src/player.rs:276 | 2·(0 + 1 + … + n) = n(n+1) |
| `Combat.AverageHitIsHalfMaxHit` | src/player.rs:276 | max_hit / 2 is the mean of a hit drawn uniformly from 0..max_hit inclusive |
| `Combat.DpsIsExpectedDamageRate` | src/player.rs:275-278 | DPS is the hit chance times the mean uniform hit, divided by the attack interval |
| `Combat.DpsMonotone` | src/player.rs:275-278 | DPS never decreases in hit chance or max hit, and never increases in attack interval |
| `Combat.Weapon.AttackInterval` | src/player.rs:352-354 | the interval is 0.6 s per tick, and is positive exactly when the attack speed is |
| `Combat.Weapon.AttackType` | src/player.rs:356-358 | the attack type is that of the first stance; it fails with EmptyStances on no stance and StanceWithoutAttackType when the first stance has none |
| `Combat.Gear.VoidBonus` | src/player.rs:97-102 | 1.1 exactly with the void set, 1.0 exactly without |
| `Combat.Gear.RegularBonus` | src/player.rs:104-109 | 7/6 exactly for a slayer helm on task, 1 otherwise |
| `Combat.Gear.UndeadBonus` | src/player.rs:111-117 | enhanced salve 1.2, regular salve 7/6, no amulet falls back to the head bonus; never below the head bonus and never above 1.2 |
| `Combat.Gear.SpecialBonus` | src/player.rs:248-251 | against undead the amulet decides and otherwise the helm: 1.2 exactly for an enhanced salve against undead; 7/6 exactly for a regular salve against undead, or a slayer helm on task when no salve applies; 1 otherwise |
| `Combat.Gear.AttackInterval` | src/player.rs:119-121 | the worn weapon's interval: 0.6 s per tick, positive exactly when its attack speed is |
| `Combat.Contains` | src/player.rs:327-329 | the linear scan finds an item exactly when it is in the list |
| `Combat.Monster.IsUndead` | src/player.rs:327-329 | holds exactly when "undead" is among the monster's attributes |
| `Combat.Monster.EffectiveDefenceLevel` | src/player.rs:307-309 | the effective defence level is the monster's level plus 9 |
| `Combat.Monster.DefenceEquipmentBonus` | src/player.rs:311-321 | total over attack types; stab, slash, crush and ranged read their own bonus; magic, spellcasting and defensive casting all read the magic bonus |
| `Combat.Monster.MaxDefenceRoll` | src/player.rs:323-325 | non-negative for level ≥ -9 and bonus ≥ -64, and zero exactly when one factor is zero |
| `Combat.Player.StrengthStyleBonus` | src/player.rs:168-176 | +3 exactly for aggressive, +1 exactly for controlled, 0 for every other style |
| `Combat.Player.StrengthPrayerBonus` | src/player.rs:178-187 | every strength prayer multiplier is a whole percentage in [1, 1.23], and is 1 exactly without a prayer |
| `Combat.Player.StrengthPotionBonus` | src/player.rs:189-196 | no potion gives 0, a regular potion L/10 + 3 and a super potion 3L/20 + 5 (integer division), for every level; for L ≥ 0 the boost is 0 exactly without a potion and never exceeds the super potion's |
| `Combat.Player.AttackStyleBonus` | src/player.rs:198-206 | +3 exactly for accurate, +1 exactly for controlled, 0 for every other style |
| `Combat.Player.AttackPrayerBonus` | src/player.rs:208-217 | every attack prayer multiplier is a whole percentage in [1, 1.2], and is 1 exactly without a prayer |
| `Combat.Player.AttackPotionBonus` | src/player.rs:219-226 | no potion gives 0, a regular potion L/10 + 3 and a super potion 3L/20 + 5 (integer division), for every level; for L ≥ 0 the boost is 0 exactly without a potion and never exceeds the super potion's |
| `Combat.Player.EffectiveStrengthLevel` | src/player.rs:228-234 | with the prayer multiplier P% it is s = (strength + potion)·P/100 + style + 8 in integer division, and s + s/10 with void; without potion, prayer or void it is strength + style + 8; for strength ≥ 0 it is at least strength + potion + style + 8 |
| `Combat.Player.EffectiveAttackLevel` | src/player.rs:236-242 | with the prayer multiplier P% it is s = (attack + potion)·P/100 + style + 8 in integer division, and s + s/10 with void; without potion, prayer or void it is attack + style + 8; for attack ≥ 0 it is at least attack + potion + style + 8 |
| `Combat.Player.MaxHit` | src/player.rs:244-253 | the round-half-up base hit b is floored before the special multiplier is applied: the result is b, b·7/6 or b·6/5 in integer division for the multipliers 1, 7/6 and 1.2, and lies in [b, 6b/5] for b ≥ 0 |
| `Combat.Player.MaxAttackRoll` | src/player.rs:255-262 | for the roll R = effective attack × (bonus + 64), the result is R, R·7/6 or R·6/5 in integer division for the multipliers 1, 7/6 and 1.2, and lies in [R, 6R/5] for R ≥ 0 |
| `Combat.Player.HitChance` | src/player.rs:264-273 | with non-negative rolls it is a probability below 1, at least 1/2 exactly when the attack roll beats the defence roll |
| `Combat.Player.DpsAgainst` | src/player.rs:275-278 | finite and ≥ 0 for a finite hit chance ≥ 0, max hit ≥ 0 and positive speed; 0 when the max hit is 0, for a finite hit chance and a non-zero attack speed |
| `Combat.Player.Dps` | src/player.rs:275-278 | fails exactly when the first stance's attack type cannot be read, with that error; otherwise it is the DPS for that attack type |
| `Combat.DpsFiniteWhenWellFormed` | src/player.rs:264-278 | for non-negative levels, bonuses ≥ -64 and a positive attack speed, the hit chance is in [0, 1) and the DPS is finite and ≥ 0 |
| `Combat.UnarmedAgainstDummy` | src/player.rs:228-278 | the level-99 unarmed accurate-crush example: levels 110/107, rolls 7040/6976, max hit 11, DPS 3552/7041 · 5.5 / 2.4 |
| `Simulation.StyleDps` | src/simulation.rs:11 | the DPS of the base player in one stance, with the stance's attack style and attack type substituted and on task; finite and ≥ 0 for a well-formed player and monster |
| `Simulation.StanceKeepsWellFormed` | src/simulation.rs:11 | substituting a stance's attack style keeps the player well formed, so its DPS is finite and ≥ 0 |
| `Simulation.Scores` | src/simulation.rs:8-12 | the `map`/`collect` gives one pair per stance, in the order of the stances, each stance paired with its own DPS |
| `Simulation.SelectTop` | src/simulation.rs:13-15 | fails exactly on an empty list (NoStyles) or on ≥ 2 entries with a NaN; otherwise returns one of the entries, and for two or more entries its DPS is ≥ every entry's |
| `Simulation.RunAttackStyles` | src/simulation.rs:7-16 | the returned (DPS, stance) pair is one of the computed pairs, and for two or more stances its DPS is the maximum; panics exactly as the sort and `first().unwrap()` do |
| `Simulation.Run` | src/simulation.rs:18-23 | returns the base player unchanged, and fails exactly when the selection does |
| `Simulation.TopDpsIsUnique` | src/simulation.rs:13-15 | two top entries have the same DPS, even when their stances differ |
| `Simulation.WellFormedSelectionPanicsOnlyWhenEmpty` | src/simulation.rs:13-15 | for a well-formed player and monster the selection panics exactly when there is no stance |

## Left out

- `src/store.rs`: the HTTP and file stores are I/O and JSON parsing. The `Equipment` type they import is not defined in the code.
- `src/main.rs`: the async entry point, with hard-coded inputs and printing.
- `Player::weapon_styles()` and the three-argument `dps` do not exist in `src/player.rs`. `Simulation.RunAttackStyles` and `Simulation.Run` take the list of (attack style, attack type) stances as a parameter.
- Simulation.Run: the chosen stance is printed in the source; the model drops the printing.
- Simulation.SelectTop: models the in-place `sort_unstable_by` and `first()` as an argmax over the same values. It states which value is first, not the order of the sorted vector.
- IEEE 754 rounding of the `f64` operations is not modelled. A finite value is the exact rational. Before a `floor()` the difference is in the last bits; after it, a floored integer can be one lower in `f64` than in the model when an `f64` constant lies below its decimal value.
- Combat.Player.EffectiveStrengthLevel: the closed form uses the exact prayer percentage. In `f64`, `1.15` lies below 23/20, so `100.0 * 1.15` floors to 114 where the model gives 115. For example, strength 89 with a strength potion (+11) and Ultimate Strength reaches this case (src/player.rs:183, 230-231).
- Combat.Player.EffectiveAttackLevel: the same `1.15` case arises for Incredible Reflexes and attack Chivalry (src/player.rs:213-214, 238-239).
- Signed zero is not modelled. Every zero divisor in these formulas is produced as `+0.0`.
- Overflow of `isize` arithmetic and the saturating `as isize` casts are not modelled; integers are unbounded.
- Constructors (`Gear::new`, `Player::new`), `Item`, serde derives and `Debug` are plain data plumbing.
- The multi-slot gear optimizer (candidate pools, cross-product enumeration, two-handed and shield exclusivity) is not part of this code, so it is not modelled.
