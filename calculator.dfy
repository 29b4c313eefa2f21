/** The Attack Rating calculator (src/lib/calculator.ts): a grade-to-coefficient
    table, a four-segment stat saturation curve, and `calculateAR`, which adds a
    scaling bonus to the summed base damage unless a requirement is unmet, in
    which case it returns 60% of the base damage. Arithmetic is exact over `real`. */
module Calculator {
  import opened JsValues
  import opened WeaponTypes

  /** `SCALING_COEFFICIENTS`. */
  function Coefficient(t: ScalingTier): (c: real)
    ensures 0.0 <= c <= 1.5
    ensures c == 0.0 <==> t == NoScaling
  {
    match t
    case S => 1.50
    case A => 1.25
    case B => 1.00
    case C => 0.75
    case D => 0.50
    case E => 0.25
    case NoScaling => 0.00
  }

  /** A grade's position in the table, S first and "-" last. */
  function TierRank(t: ScalingTier): (k: nat)
    ensures k < |Tiers| && Tiers[k] == t
  {
    match t
    case S => 0
    case A => 1
    case B => 2
    case C => 3
    case D => 4
    case E => 5
    case NoScaling => 6
  }

  /** The table's entries, and that a better grade always has a larger coefficient. */
  lemma CoefficientsDecrease(t: ScalingTier, u: ScalingTier)
    ensures Coefficient(S) == 1.5 && Coefficient(A) == 1.25 && Coefficient(B) == 1.0
    ensures Coefficient(C) == 0.75 && Coefficient(D) == 0.5 && Coefficient(E) == 0.25
    ensures Coefficient(NoScaling) == 0.0
    ensures TierRank(t) < TierRank(u) <==> Coefficient(t) > Coefficient(u)
  {
  }

  /** `getStatSaturation`: the share of a grade's scaling power a stat value unlocks. */
  function Saturation(stat: int): (r: real)
    ensures 0.0 <= r <= 1.0
    ensures stat <= 0 ==> r == 0.0
    ensures stat >= 99 ==> r == 1.0
  {
    if stat <= 0 then 0.0
    else
      var v := if stat > 99 then 99 else stat;
      if v <= 20 then v as real / 80.0
      else if v <= 50 then 0.25 + ((v - 20) as real / 30.0) * 0.50
      else if v <= 80 then 0.75 + ((v - 50) as real / 30.0) * 0.20
      else 0.95 + ((v - 80) as real / 19.0) * 0.05
  }

  lemma SaturationBreakpoints(v: int)
    ensures Saturation(0) == 0.0 && Saturation(20) == 0.25 && Saturation(50) == 0.75
    ensures Saturation(80) == 0.95 && Saturation(99) == 1.0
    ensures v > 99 ==> Saturation(v) == Saturation(99)
  {
  }

  /** The segments meet at 20, 50 and 80, so the curve never decreases;
      between 0 and 99 it strictly increases. */
  lemma SaturationMonotone(a: int, b: int)
    requires a <= b
    ensures Saturation(a) <= Saturation(b)
    ensures 0 <= a < b <= 99 ==> Saturation(a) < Saturation(b)
  {
  }

  /** `stats[key] || 0`: an absent key reads as 0. */
  function StatOf(stats: map<string, int>, key: string): int
  {
    if key in stats then stats[key] else 0
  }

  predicate KnownTiers(scaling: seq<Scaling>)
  {
    forall i :: 0 <= i < |scaling| ==> IsKnownTier(scaling[i].tier)
  }

  /** What `calculateAR` needs of a catalog entry to produce a number:
      five numeric damage values and a known grade on every scaling entry. */
  predicate Calculable(w: Weapon)
  {
    && w.damage.physical.Num? && w.damage.magic.Num? && w.damage.fire.Num?
    && w.damage.lightning.Num? && w.damage.holy.Num?
    && KnownTiers(w.scaling)
  }

  /** The five elemental damages; critical is not among them. */
  function BaseTotal(d: Damage): real
    requires d.physical.Num? && d.magic.Num? && d.fire.Num? && d.lightning.Num? && d.holy.Num?
  {
    d.physical.value + d.magic.value + d.fire.value + d.lightning.value + d.holy.value
  }

  /** What one scaling entry adds per unit of base damage: its grade's coefficient
      times the saturation of its stat, so nothing for "-". A grade outside the table
      has no coefficient (the rating is then NaN); `AttackRating` rules such entries
      out through `Calculable`, and they weigh nothing here. */
  function EntryWeight(scale: Scaling, stats: map<string, int>): (r: real)
    ensures 0.0 <= r <= 1.5
  {
    match ParseTier(scale.tier)
    case None => 0.0
    case Some(t) =>
      var c := Coefficient(t);
      var p := Saturation(StatOf(stats, StatKey(scale.attribute)));
      MulMonotone(c, p, 1.0);
      MulMonotone(c, 0.0, p);
      c * p
  }

  /** The weight of every entry, in order. */
  function Weights(scaling: seq<Scaling>, stats: map<string, int>): seq<real>
  {
    seq(|scaling|, i requires 0 <= i < |scaling| => EntryWeight(scaling[i], stats))
  }

  /** The numbers summed from the first to the last. */
  function Sum(ws: seq<real>): real
  {
    if ws == [] then 0.0 else Sum(ws[..|ws| - 1]) + ws[|ws| - 1]
  }

  /** The part of the base damage a weight stands for. */
  function Share(baseTotal: real, weight: real): real
  {
    baseTotal * weight
  }

  /** The scaling bonus: the base damage times the summed weights. */
  function ScalingBonus(baseTotal: real, scaling: seq<Scaling>, stats: map<string, int>): real
  {
    Share(baseTotal, Sum(Weights(scaling, stats)))
  }

  /** "BaseDamage * LetterBonus * StatPower", the share one entry adds in the loop. */
  function ScalingFormula(baseDamage: real, letterBonus: real, statPower: real): real
  {
    baseDamage * letterBonus * statPower
  }

  // ---- arithmetic steps, stated one at a time ----

  /** Scaling a smaller quantity by the same non-negative factor gives a smaller result. */
  lemma MulMonotone(k: real, x: real, y: real)
    requires k >= 0.0 && x <= y
    ensures k * x <= k * y
  {
  }

  /** Adding `c * p` to the weight adds `b * c * p` to the bonus. */
  lemma ShareStep(b: real, w: real, c: real, p: real)
    ensures Share(b, w + c * p) == Share(b, w) + ScalingFormula(b, c, p)
  {
  }

  lemma {:induction false} SumConcat(xs: seq<real>, ys: seq<real>)
    ensures Sum(xs + ys) == Sum(xs) + Sum(ys)
  {
    if ys == [] {
      assert xs + ys == xs;
    } else {
      var zs := xs + ys;
      assert zs[..|zs| - 1] == xs + ys[..|ys| - 1];
      SumConcat(xs, ys[..|ys| - 1]);
    }
  }

  lemma {:induction false} SumBounds(ws: seq<real>)
    requires forall i :: 0 <= i < |ws| ==> 0.0 <= ws[i] <= 1.5
    ensures 0.0 <= Sum(ws) <= 1.5 * |ws| as real
  {
    if ws != [] {
      SumBounds(ws[..|ws| - 1]);
    }
  }

  lemma {:induction false} SumMonotone(xs: seq<real>, ys: seq<real>)
    requires |xs| == |ys|
    requires forall i :: 0 <= i < |xs| ==> xs[i] <= ys[i]
    ensures Sum(xs) <= Sum(ys)
  {
    if xs != [] {
      SumMonotone(xs[..|xs| - 1], ys[..|ys| - 1]);
    }
  }

  lemma {:induction false} SumOfZeros(ws: seq<real>)
    requires forall i :: 0 <= i < |ws| ==> ws[i] == 0.0
    ensures Sum(ws) == 0.0
  {
    if ws != [] {
      SumOfZeros(ws[..|ws| - 1]);
    }
  }

  lemma WeightsSnoc(prefix: seq<Scaling>, scale: Scaling, stats: map<string, int>)
    ensures Sum(Weights(prefix + [scale], stats)) == Sum(Weights(prefix, stats)) + EntryWeight(scale, stats)
  {
    var ws := Weights(prefix + [scale], stats);
    assert ws[..|prefix|] == Weights(prefix, stats);
  }

  /** Adding entry `i`'s share to the bonus of the entries before it gives the bonus of the entries up to it. */
  lemma AccumulateStep(b: real, scaling: seq<Scaling>, i: nat, stats: map<string, int>)
    requires i < |scaling| && IsKnownTier(scaling[i].tier)
    ensures scaling[i].tier == "-" ==> ScalingBonus(b, scaling[..i + 1], stats) == ScalingBonus(b, scaling[..i], stats)
    ensures scaling[i].tier != "-" ==>
      ScalingBonus(b, scaling[..i + 1], stats) == ScalingBonus(b, scaling[..i], stats)
        + ScalingFormula(b, Coefficient(ParseTier(scaling[i].tier).value), Saturation(StatOf(stats, StatKey(scaling[i].attribute))))
  {
    var scale := scaling[i];
    assert scaling[..i + 1] == scaling[..i] + [scale];
    WeightsSnoc(scaling[..i], scale, stats);
    var w := Sum(Weights(scaling[..i], stats));
    var c := Coefficient(ParseTier(scale.tier).value);
    var p := Saturation(StatOf(stats, StatKey(scale.attribute)));
    assert EntryWeight(scale, stats) == c * p;
    ShareStep(b, w, c, p);
  }

  /** `(stats[key] || 0) < req.value`; a NaN requirement value is never unmet. */
  predicate Unmet(req: Requirement, stats: map<string, int>)
  {
    LessThan(StatOf(stats, StatKey(req.attribute)) as real, req.value)
  }

  predicate MeetsRequirements(reqs: seq<Requirement>, stats: map<string, int>)
  {
    forall i :: 0 <= i < |reqs| ==> !Unmet(reqs[i], stats)
  }

  /** Checking one more requirement clears the flag exactly when that one is unmet. */
  lemma RequirementStep(reqs: seq<Requirement>, i: nat, stats: map<string, int>)
    requires i < |reqs|
    ensures MeetsRequirements(reqs[..i + 1], stats) <==> MeetsRequirements(reqs[..i], stats) && !Unmet(reqs[i], stats)
  {
    assert reqs[..i + 1] == reqs[..i] + [reqs[i]];
  }

  /** The rating for a base damage, whether the requirements hold, and the bonus:
      the floor of their sum, or of 60% of the base damage when a requirement is unmet. */
  function Rating(baseTotal: real, meetsReqs: bool, bonus: real): int
  {
    if meetsReqs then (baseTotal + bonus).Floor else (baseTotal * 0.6).Floor
  }

  /** Non-negative base damage gets a non-negative bonus. */
  lemma BonusNonNegative(b: real, scaling: seq<Scaling>, stats: map<string, int>)
    ensures b >= 0.0 ==> ScalingBonus(b, scaling, stats) >= 0.0
  {
    SumBounds(Weights(scaling, stats));
    if b >= 0.0 {
      MulMonotone(b, 0.0, Sum(Weights(scaling, stats)));
    }
  }

  /** The rating `calculateAR` returns. With non-negative damage it is never negative, and
      once the requirements hold it is at least the floored base damage. */
  function AttackRating(w: Weapon, stats: map<string, int>): (ar: int)
    requires Calculable(w)
    ensures BaseTotal(w.damage) >= 0.0 ==> ar >= 0
    ensures BaseTotal(w.damage) >= 0.0 && MeetsRequirements(w.requirements, stats) ==> ar >= BaseTotal(w.damage).Floor
  {
    var baseTotal := BaseTotal(w.damage);
    BonusNonNegative(baseTotal, w.scaling, stats);
    Rating(baseTotal, MeetsRequirements(w.requirements, stats), ScalingBonus(baseTotal, w.scaling, stats))
  }

  /** `calculateAR`: one pass over the scaling entries accumulating the bonus,
      one pass over the requirements clearing a flag, then the early penalty return. */
  method CalculateAR(w: Weapon, stats: map<string, int>) returns (ar: int)
    requires Calculable(w)
    ensures ar == AttackRating(w, stats)
  {
    var baseTotal := BaseTotal(w.damage);
    var scalingBonus := 0.0;
    for i := 0 to |w.scaling|
      invariant scalingBonus == ScalingBonus(baseTotal, w.scaling[..i], stats)
    {
      var scale := w.scaling[i];
      AccumulateStep(baseTotal, w.scaling, i, stats);
      if scale.tier != "-" {
        var userStat := StatOf(stats, StatKey(scale.attribute));
        var letterBonus := Coefficient(ParseTier(scale.tier).value);
        var statPower := Saturation(userStat);
        scalingBonus := scalingBonus + ScalingFormula(baseTotal, letterBonus, statPower);
      }
    }
    assert w.scaling[..|w.scaling|] == w.scaling;

    var meetsReqs := true;
    for i := 0 to |w.requirements|
      invariant meetsReqs <==> MeetsRequirements(w.requirements[..i], stats)
    {
      var req := w.requirements[i];
      RequirementStep(w.requirements, i, stats);
      if LessThan(StatOf(stats, StatKey(req.attribute)) as real, req.value) {
        meetsReqs := false;
      }
    }
    assert w.requirements[..|w.requirements|] == w.requirements;

    if !meetsReqs {
      return (baseTotal * 0.6).Floor;
    }
    ar := (baseTotal + scalingBonus).Floor;
  }

  // ---- properties of the rating ----

  lemma FloorMonotone(x: real, y: real)
    requires x <= y
    ensures x.Floor <= y.Floor
  {
  }

  /** One unmet requirement is enough for the penalty, and then neither the
      scaling entries nor the number of failures matter. */
  lemma PenaltyRule(w: Weapon, stats: map<string, int>, i: nat, scaling: seq<Scaling>)
    requires Calculable(w) && KnownTiers(scaling)
    requires i < |w.requirements| && Unmet(w.requirements[i], stats)
    ensures AttackRating(w, stats) == (BaseTotal(w.damage) * 0.6).Floor
    ensures AttackRating(w.(scaling := scaling), stats) == AttackRating(w, stats)
  {
  }

  /** Entry lists of equal total weight give equal bonuses. */
  lemma BonusOfEqualWeight(b: real, xs: seq<Scaling>, ys: seq<Scaling>, stats: map<string, int>)
    requires Sum(Weights(xs, stats)) == Sum(Weights(ys, stats))
    ensures ScalingBonus(b, xs, stats) == ScalingBonus(b, ys, stats)
  {
  }

  lemma WeightsConcat(xs: seq<Scaling>, ys: seq<Scaling>, stats: map<string, int>)
    ensures Sum(Weights(xs + ys, stats)) == Sum(Weights(xs, stats)) + Sum(Weights(ys, stats))
  {
    assert Weights(xs + ys, stats) == Weights(xs, stats) + Weights(ys, stats);
    SumConcat(Weights(xs, stats), Weights(ys, stats));
  }

  /** Taking the same entry out of two lists with equal contents leaves lists with equal contents. */
  lemma RemoveOne(init: seq<Scaling>, x: Scaling, before: seq<Scaling>, after: seq<Scaling>)
    requires multiset(init + [x]) == multiset(before + [x] + after)
    ensures multiset(init) == multiset(before + after)
  {
    assert multiset(init + [x]) == multiset(init) + multiset{x};
    assert multiset(before + [x] + after) == multiset(before) + multiset{x} + multiset(after);
    assert multiset(before + after) == multiset(before) + multiset(after);
    var m1, m2 := multiset(init), multiset(before + after);
    assert m1 + multiset{x} == m2 + multiset{x};
    assert m1 == (m1 + multiset{x}) - multiset{x};
    assert m2 == (m2 + multiset{x}) - multiset{x};
  }

  /** Reordering the entries in any way leaves their summed weight unchanged. */
  lemma {:induction false} WeightsPermutation(xs: seq<Scaling>, ys: seq<Scaling>, stats: map<string, int>)
    requires multiset(xs) == multiset(ys)
    ensures Sum(Weights(xs, stats)) == Sum(Weights(ys, stats))
    decreases |xs|
  {
    if xs != [] {
      var x := xs[|xs| - 1];
      var init := xs[..|xs| - 1];
      assert xs == init + [x];
      assert x in multiset(ys);
      var k :| 0 <= k < |ys| && ys[k] == x;
      var before, after := ys[..k], ys[k + 1..];
      assert ys == before + [x] + after;
      RemoveOne(init, x, before, after);
      WeightsPermutation(init, before + after, stats);
      WeightsSnoc(init, x, stats);
      WeightsConcat(before + [x], after, stats);
      WeightsSnoc(before, x, stats);
      WeightsConcat(before, after, stats);
    }
  }

  /** The order of the scaling entries does not change the bonus: any reordering of them gives the same one. */
  lemma ScalingBonusOrderFree(b: real, xs: seq<Scaling>, ys: seq<Scaling>, stats: map<string, int>)
    requires multiset(xs) == multiset(ys)
    ensures ScalingBonus(b, xs, stats) == ScalingBonus(b, ys, stats)
  {
    WeightsPermutation(xs, ys, stats);
    BonusOfEqualWeight(b, xs, ys, stats);
  }

  /** Reordering a weapon's scaling entries changes neither whether it can be rated nor its rating. */
  lemma RatingOrderFree(w: Weapon, stats: map<string, int>, ys: seq<Scaling>)
    requires Calculable(w) && multiset(ys) == multiset(w.scaling)
    ensures Calculable(w.(scaling := ys))
    ensures AttackRating(w.(scaling := ys), stats) == AttackRating(w, stats)
  {
    forall i | 0 <= i < |ys|
      ensures IsKnownTier(ys[i].tier)
    {
      assert ys[i] in multiset(w.scaling);
    }
    ScalingBonusOrderFree(BaseTotal(w.damage), ys, w.scaling, stats);
  }

  /** Entries graded "-" add nothing. */
  lemma NoScalingAddsNothing(b: real, scaling: seq<Scaling>, stats: map<string, int>)
    requires forall i :: 0 <= i < |scaling| ==> scaling[i].tier == "-"
    ensures ScalingBonus(b, scaling, stats) == 0.0
  {
    SumOfZeros(Weights(scaling, stats));
  }

  /** A weapon graded "-" everywhere whose requirements hold rates exactly its floored base damage. */
  lemma AllDashRating(w: Weapon, stats: map<string, int>)
    requires Calculable(w) && MeetsRequirements(w.requirements, stats)
    requires forall i :: 0 <= i < |w.scaling| ==> w.scaling[i].tier == "-"
    ensures AttackRating(w, stats) == BaseTotal(w.damage).Floor
  {
    NoScalingAddsNothing(BaseTotal(w.damage), w.scaling, stats);
  }

  /** Maps that agree on the five stat keys give every entry the same weight. */
  lemma WeightsReadOnlyStatKeys(scaling: seq<Scaling>, s1: map<string, int>, s2: map<string, int>)
    requires forall a: Attribute :: StatOf(s1, StatKey(a)) == StatOf(s2, StatKey(a))
    ensures Weights(scaling, s1) == Weights(scaling, s2)
  {
    forall i | 0 <= i < |scaling|
      ensures EntryWeight(scaling[i], s1) == EntryWeight(scaling[i], s2)
    {
      var a := scaling[i].attribute;
      assert StatOf(s1, StatKey(a)) == StatOf(s2, StatKey(a));
    }
  }

  lemma RatingReadsOnlyStatKeys(w: Weapon, s1: map<string, int>, s2: map<string, int>)
    requires Calculable(w)
    requires forall a: Attribute :: StatOf(s1, StatKey(a)) == StatOf(s2, StatKey(a))
    ensures AttackRating(w, s1) == AttackRating(w, s2)
  {
    WeightsReadOnlyStatKeys(w.scaling, s1, s2);
    assert MeetsRequirements(w.requirements, s1) == MeetsRequirements(w.requirements, s2) by {
      forall i | 0 <= i < |w.requirements|
        ensures Unmet(w.requirements[i], s1) == Unmet(w.requirements[i], s2)
      {
        var a := w.requirements[i].attribute;
        assert StatOf(s1, StatKey(a)) == StatOf(s2, StatKey(a));
      }
    }
  }

  /** A stat missing from the map rates exactly like a stat of 0, and keys that are
      not lower-cased attribute names (such as "strength") are ignored. */
  lemma MissingStatIsZero(w: Weapon, stats: map<string, int>, key: string, v: int)
    requires Calculable(w)
    ensures key !in stats ==> AttackRating(w, stats) == AttackRating(w, stats[key := 0])
    ensures (forall a: Attribute :: key != StatKey(a)) ==> AttackRating(w, stats[key := v]) == AttackRating(w, stats)
  {
    if key !in stats {
      RatingReadsOnlyStatKeys(w, stats, stats[key := 0]);
    }
    if forall a: Attribute :: key != StatKey(a) {
      RatingReadsOnlyStatKeys(w, stats[key := v], stats);
    }
  }

  /** The critical value never enters the rating. */
  lemma CriticalIgnored(w: Weapon, stats: map<string, int>, c: JsNumber)
    requires Calculable(w)
    ensures Calculable(w.(damage := w.damage.(critical := c)))
    ensures AttackRating(w.(damage := w.damage.(critical := c)), stats) == AttackRating(w, stats)
  {
  }

  /** The arithmetic behind `RatingBounds`, on plain numbers. */
  lemma BoundsStep(b: real, weight: real, n: real)
    requires b >= 0.0 && 0.0 <= weight <= 1.5 * n
    ensures 0 <= (b * 0.6).Floor <= (b + Share(b, 1.5 * n)).Floor
    ensures 0 <= (b + Share(b, weight)).Floor <= (b + Share(b, 1.5 * n)).Floor
  {
    MulMonotone(b, 0.0, weight);
    MulMonotone(b, weight, 1.5 * n);
    FloorMonotone(0.0, b * 0.6);
    FloorMonotone(b * 0.6, b + b * (1.5 * n));
    FloorMonotone(0.0, b + b * weight);
    FloorMonotone(b + b * weight, b + b * (1.5 * n));
  }

  /** With non-negative damage the rating lies between 0 and the base damage
      plus 150% of it per scaling entry. */
  lemma RatingBounds(w: Weapon, stats: map<string, int>)
    requires Calculable(w) && BaseTotal(w.damage) >= 0.0
    ensures 0 <= AttackRating(w, stats)
    ensures AttackRating(w, stats) <= (BaseTotal(w.damage) + Share(BaseTotal(w.damage), 1.5 * |w.scaling| as real)).Floor
  {
    var ws := Weights(w.scaling, stats);
    SumBounds(ws);
    BoundsStep(BaseTotal(w.damage), Sum(ws), |ws| as real);
  }

  /** A weapon whose damages sum to 0 rates 0, whatever the stats. */
  lemma ZeroDamageRatesZero(w: Weapon, stats: map<string, int>)
    requires Calculable(w) && BaseTotal(w.damage) == 0.0
    ensures AttackRating(w, stats) == 0
  {
  }

  /** `s1` is nowhere above `s2` on the five stat keys. */
  predicate StatsAtMost(s1: map<string, int>, s2: map<string, int>)
  {
    forall a: Attribute :: StatOf(s1, StatKey(a)) <= StatOf(s2, StatKey(a))
  }

  lemma EntryWeightMonotone(scale: Scaling, s1: map<string, int>, s2: map<string, int>)
    requires StatsAtMost(s1, s2)
    ensures EntryWeight(scale, s1) <= EntryWeight(scale, s2)
  {
    if ParseTier(scale.tier).Some? {
      var k := StatKey(scale.attribute);
      SaturationMonotone(StatOf(s1, k), StatOf(s2, k));
      MulMonotone(Coefficient(ParseTier(scale.tier).value), Saturation(StatOf(s1, k)), Saturation(StatOf(s2, k)));
    }
  }

  lemma WeightMonotone(scaling: seq<Scaling>, s1: map<string, int>, s2: map<string, int>)
    requires StatsAtMost(s1, s2)
    ensures Sum(Weights(scaling, s1)) <= Sum(Weights(scaling, s2))
  {
    var ws1 := Weights(scaling, s1);
    var ws2 := Weights(scaling, s2);
    forall i | 0 <= i < |scaling|
      ensures ws1[i] <= ws2[i]
    {
      EntryWeightMonotone(scaling[i], s1, s2);
    }
    SumMonotone(ws1, ws2);
  }

  lemma RequirementsMonotone(reqs: seq<Requirement>, s1: map<string, int>, s2: map<string, int>)
    requires StatsAtMost(s1, s2) && MeetsRequirements(reqs, s1)
    ensures MeetsRequirements(reqs, s2)
  {
    forall i | 0 <= i < |reqs|
      ensures !Unmet(reqs[i], s2)
    {
      var a := reqs[i].attribute;
      assert StatOf(s1, StatKey(a)) <= StatOf(s2, StatKey(a));
    }
  }

  /** The arithmetic behind `RatingMonotone`, on plain numbers. */
  lemma MonotoneStep(b: real, w1: real, w2: real)
    requires b >= 0.0 && 0.0 <= w1 <= w2
    ensures (b + Share(b, w1)).Floor <= (b + Share(b, w2)).Floor
    ensures (b * 0.6).Floor <= (b + Share(b, w2)).Floor
  {
    MulMonotone(b, w1, w2);
    MulMonotone(b, 0.0, w1);
    FloorMonotone(b + b * w1, b + b * w2);
    FloorMonotone(b * 0.6, b + b * w2);
  }

  /** A larger weight and a requirement check that is no worse never lower the rating. */
  lemma RatingStep(b: real, m1: bool, m2: bool, w1: real, w2: real)
    requires b >= 0.0 && 0.0 <= w1 <= w2 && (m1 ==> m2)
    ensures Rating(b, m1, Share(b, w1)) <= Rating(b, m2, Share(b, w2))
  {
    MonotoneStep(b, w1, w2);
  }

  /** With non-negative damage, raising stats never lowers the rating: not when the
      requirements already held, and not when the raise is what meets them. */
  lemma RatingMonotone(w: Weapon, s1: map<string, int>, s2: map<string, int>)
    requires Calculable(w) && BaseTotal(w.damage) >= 0.0 && StatsAtMost(s1, s2)
    ensures MeetsRequirements(w.requirements, s1) ==> MeetsRequirements(w.requirements, s2)
    ensures AttackRating(w, s1) <= AttackRating(w, s2)
  {
    var m1 := MeetsRequirements(w.requirements, s1);
    var m2 := MeetsRequirements(w.requirements, s2);
    if m1 {
      RequirementsMonotone(w.requirements, s1, s2);
    }
    var ws1 := Weights(w.scaling, s1);
    var ws2 := Weights(w.scaling, s2);
    WeightMonotone(w.scaling, s1, s2);
    SumBounds(ws1);
    RatingStep(BaseTotal(w.damage), m1, m2, Sum(ws1), Sum(ws2));
  }

  /** Raising one stat, for instance "str", never lowers the rating. */
  lemma RaisingOneStat(w: Weapon, stats: map<string, int>, key: string, v: int)
    requires Calculable(w) && BaseTotal(w.damage) >= 0.0
    requires v >= StatOf(stats, key)
    ensures AttackRating(w, stats) <= AttackRating(w, stats[key := v])
  {
    RatingMonotone(w, stats, stats[key := v]);
  }

  /** Stats of at least 0 always meet requirements of 0; a negative stat does not,
      because every requirement entry is compared, including those of 0. */
  lemma ZeroRequirements(w: Weapon, stats: map<string, int>)
    requires forall i :: 0 <= i < |w.requirements| ==> w.requirements[i].value == Num(0.0)
    ensures (forall a: Attribute :: StatOf(stats, StatKey(a)) >= 0) ==> MeetsRequirements(w.requirements, stats)
    ensures forall i :: 0 <= i < |w.requirements| && StatOf(stats, StatKey(w.requirements[i].attribute)) < 0
              ==> !MeetsRequirements(w.requirements, stats)
  {
  }

  // ---- worked examples ----

  /** 100 physical damage, grade B in Str, 12 Str required. */
  function ExampleWeapon(): (w: Weapon)
    ensures Calculable(w) && BaseTotal(w.damage) == 100.0
  {
    Weapon(Some("example"), Some("Example"), Some("Sword"), Num(3.0), Some(""), Some(""),
      Damage(Num(100.0), Num(0.0), Num(0.0), Num(0.0), Num(0.0), Num(100.0)),
      [Scaling(Str, "B"), Scaling(Dex, "-"), Scaling(Int, "-"), Scaling(Fai, "-"), Scaling(Arc, "-")],
      [Requirement(Str, Num(12.0)), Requirement(Dex, Num(0.0)), Requirement(Int, Num(0.0)),
       Requirement(Fai, Num(0.0)), Requirement(Arc, Num(0.0))],
      false)
  }

  /** 40 Str meets the requirement: 100 + 100 * 1.0 * (0.25 + 20/30 * 0.5) = 158.33..., shown as 158;
      5 Str does not: 100 * 0.6 = 60. */
  lemma ExampleRatings()
    ensures AttackRating(ExampleWeapon(), map["str" := 40]) == 158
    ensures AttackRating(ExampleWeapon(), map["str" := 5]) == 60
  {
    var w := ExampleWeapon();
    var strong := map["str" := 40];
    assert MeetsRequirements(w.requirements, strong);
    assert Saturation(40) == 7.0 / 12.0;
    var ws := Weights(w.scaling, strong);
    assert ws == [7.0 / 12.0] + ws[1..];
    SumOfZeros(ws[1..]);
    SumConcat([7.0 / 12.0], ws[1..]);
    assert Sum([7.0 / 12.0]) == 7.0 / 12.0;
    var weak := map["str" := 5];
    assert Unmet(w.requirements[0], weak);
  }
}
