/** The level guide (src/app/guide/page.tsx): each zone of the walkthrough is
    classified against the player's rune level, and zones far behind the
    player are folded away unless "show all" is ticked. Rendering is not part
    of this module; only the classification, the hide rule and the level
    input are. */
module LevelGuide {
  import opened JsText
  import opened JsValues

  /** A zone of the walkthrough, reduced to its recommended level range. */
  datatype Zone = Zone(minLevel: int, maxLevel: int)

  /** More than 5 levels below the zone's minimum: an under-leveled player is below the zone's range. */
  predicate IsUnderLeveled(level: int, z: Zone)
    ensures IsUnderLeveled(level, z) ==> level < z.minLevel
  {
    level < z.minLevel - 5
  }

  /** More than 10 levels above the zone's maximum: an over-leveled player is above the zone's range. */
  predicate IsOverLeveled(level: int, z: Zone)
    ensures IsOverLeveled(level, z) ==> level > z.maxLevel
  {
    level > z.maxLevel + 10
  }

  /** Neither under- nor over-leveled: exactly the levels from 5 below the zone's minimum to 10
      above its maximum. */
  predicate IsPerfect(level: int, z: Zone)
    ensures IsPerfect(level, z) <==> z.minLevel - 5 <= level <= z.maxLevel + 10
  {
    !IsUnderLeveled(level, z) && !IsOverLeveled(level, z)
  }

  /** `zones.findIndex(z => z.minLevel > userLevel)`: the first zone still ahead of the player, or -1. */
  function FirstZoneAbove(zones: seq<Zone>, level: int): (k: int)
    ensures -1 <= k < |zones|
    ensures k == -1 <==> forall j :: 0 <= j < |zones| ==> zones[j].minLevel <= level
    ensures k != -1 ==> zones[k].minLevel > level && forall j :: 0 <= j < k ==> zones[j].minLevel <= level
  {
    FindIndex(zones, (z: Zone) => z.minLevel > level)
  }

  /** The hide rule: not showing all, over-leveled, and before the zone just behind the first zone
      ahead. A hidden zone and the zone after it have both been reached already. */
  predicate IsHidden(zones: seq<Zone>, i: nat, level: int, showAll: bool)
    requires i < |zones|
    ensures IsHidden(zones, i, level, showAll) ==> i + 1 < |zones| && zones[i].minLevel <= level && zones[i + 1].minLevel <= level
  {
    !showAll && IsOverLeveled(level, zones[i]) && i < FirstZoneAbove(zones, level) - 1
  }

  /** The zones the page renders, in order: the first `n` zones without the hidden ones. Every
      zone among them that is not hidden is rendered, and nothing else is. */
  function Shown(zones: seq<Zone>, level: int, showAll: bool, n: nat): (r: seq<Zone>)
    requires n <= |zones|
    ensures |r| <= n
    ensures forall z :: z in r ==> z in zones[..n]
    ensures forall i {:trigger IsHidden(zones, i, level, showAll)} :: 0 <= i < n && !IsHidden(zones, i, level, showAll) ==> zones[i] in r
  {
    if n == 0 then []
    else Shown(zones, level, showAll, n - 1) + (if IsHidden(zones, n - 1, level, showAll) then [] else [zones[n - 1]])
  }

  /** `parseInt(value) || 1`: an unreadable input or 0 becomes 1. */
  function LevelInput(s: string): (level: int)
    ensures level != 0
  {
    match ParseInt(s)
    case None => 1
    case Some(n) => if n == 0 then 1 else n
  }

  /** The walkthrough's zones, in order: Limgrave (West), Limgrave (East), Weeping Peninsula,
      Stormveil Castle, Liurnia (South), Raya Lucaria, Caelid (South), Altus Plateau, Leyndell,
      Mountaintops, Farum Azula. */
  const Zones: seq<Zone> := [
    Zone(1, 15), Zone(10, 20), Zone(20, 30), Zone(30, 40), Zone(40, 50), Zone(50, 60),
    Zone(60, 70), Zone(60, 80), Zone(80, 100), Zone(100, 120), Zone(120, 150)
  ]

  // ---- classification ----

  /** No level is both under- and over-leveled for a zone exactly when its minimum is at most
      16 above its maximum; every zone of the table qualifies. */
  lemma NeverBoth(z: Zone)
    ensures (forall level :: !(IsUnderLeveled(level, z) && IsOverLeveled(level, z))) <==> z.minLevel <= z.maxLevel + 16
  {
    if z.minLevel > z.maxLevel + 16 {
      var level := z.maxLevel + 11;
      assert IsUnderLeveled(level, z) && IsOverLeveled(level, z);
    }
  }

  // ---- the hide rule ----

  /** The first zone ahead is the one above the level with none above it earlier. */
  lemma FirstZoneAboveIs(zones: seq<Zone>, level: int, k: nat)
    requires k < |zones| && zones[k].minLevel > level
    requires forall j :: 0 <= j < k ==> zones[j].minLevel <= level
    ensures FirstZoneAbove(zones, level) == k
  {
  }

  /** A hidden zone is over-leveled and lies before the zone just behind the first zone ahead. */
  lemma HiddenOnlyIf(zones: seq<Zone>, i: nat, level: int, showAll: bool)
    requires i < |zones| && IsHidden(zones, i, level, showAll)
    ensures !showAll && IsOverLeveled(level, zones[i])
    ensures exists k :: i + 1 < k < |zones| && zones[k].minLevel > level
  {
    var k := FirstZoneAbove(zones, level);
    assert i + 1 < k < |zones| && zones[k].minLevel > level;
  }

  /** With "show all" ticked nothing is hidden. */
  lemma ShowAllHidesNothing(zones: seq<Zone>, i: nat, level: int)
    requires i < |zones|
    ensures !IsHidden(zones, i, level, true)
  {
  }

  /** When no zone lies ahead, `findIndex` is -1 and nothing is hidden, however far behind the zones are. */
  lemma NothingAheadHidesNothing(zones: seq<Zone>, i: nat, level: int, showAll: bool)
    requires i < |zones| && forall j :: 0 <= j < |zones| ==> zones[j].minLevel <= level
    ensures !IsHidden(zones, i, level, showAll)
  {
  }

  /** The zone just before the first zone ahead, and every zone from there on, stays visible. */
  lemma LastPassedZoneShown(zones: seq<Zone>, i: nat, level: int, showAll: bool)
    requires i < |zones| && FirstZoneAbove(zones, level) != -1 && i >= FirstZoneAbove(zones, level) - 1
    ensures !IsHidden(zones, i, level, showAll)
  {
  }

  /** Only hidden zones are dropped: when none of the first `n` is hidden they are all shown. */
  lemma {:induction false} ShownKeepsUnhidden(zones: seq<Zone>, level: int, showAll: bool, n: nat)
    requires n <= |zones|
    ensures (forall i :: 0 <= i < n ==> !IsHidden(zones, i, level, showAll)) ==> Shown(zones, level, showAll, n) == zones[..n]
  {
    if n > 0 {
      ShownKeepsUnhidden(zones, level, showAll, n - 1);
      assert zones[..n] == zones[..n - 1] + [zones[n - 1]];
    }
  }

  /** When the first `k` zones are all hidden, none of them is rendered. */
  lemma {:induction false} ShownNoneOfHidden(zones: seq<Zone>, level: int, showAll: bool, k: nat)
    requires k <= |zones|
    requires forall i :: 0 <= i < k ==> IsHidden(zones, i, level, showAll)
    ensures Shown(zones, level, showAll, k) == []
  {
    if k > 0 {
      ShownNoneOfHidden(zones, level, showAll, k - 1);
      assert IsHidden(zones, k - 1, level, showAll);
    }
  }

  /** When the first `k` zones are hidden and the rest of the first `n` are not, the page renders
      exactly zones `k` to `n`, in order. */
  lemma {:induction false} ShownAfterHiddenPrefix(zones: seq<Zone>, level: int, showAll: bool, k: nat, n: nat)
    requires k <= n <= |zones|
    requires forall i :: 0 <= i < k ==> IsHidden(zones, i, level, showAll)
    requires forall i :: k <= i < n ==> !IsHidden(zones, i, level, showAll)
    ensures Shown(zones, level, showAll, n) == zones[k..n]
  {
    if n == k {
      ShownNoneOfHidden(zones, level, showAll, k);
    } else {
      ShownAfterHiddenPrefix(zones, level, showAll, k, n - 1);
      assert !IsHidden(zones, n - 1, level, showAll);
      assert zones[k..n] == zones[k..n - 1] + [zones[n - 1]];
    }
  }

  /** Zones ordered so that their maximum levels never decrease, as the walkthrough's are. */
  predicate MaxNonDecreasing(zones: seq<Zone>)
  {
    forall a, b :: 0 <= a <= b < |zones| ==> zones[a].maxLevel <= zones[b].maxLevel
  }

  /** In such a table every zone before a hidden zone is hidden too. */
  lemma HiddenDownwardClosed(zones: seq<Zone>, level: int, showAll: bool, i: nat, j: nat)
    requires MaxNonDecreasing(zones) && j <= i < |zones|
    ensures IsHidden(zones, i, level, showAll) ==> IsHidden(zones, j, level, showAll)
  {
  }

  /** The first zone from `from` on that is not hidden, or `|zones|` when there is none. */
  function FirstUnhidden(zones: seq<Zone>, level: int, showAll: bool, from: nat): (k: nat)
    requires from <= |zones|
    ensures from <= k <= |zones|
    ensures forall j :: from <= j < k ==> IsHidden(zones, j, level, showAll)
    ensures k < |zones| ==> !IsHidden(zones, k, level, showAll)
    decreases |zones| - from
  {
    if from == |zones| || !IsHidden(zones, from, level, showAll) then from
    else FirstUnhidden(zones, level, showAll, from + 1)
  }

  /** In a table whose maximum levels never decrease, the hidden zones are exactly those before
      the first unhidden one, and the page renders every other zone, in order. */
  lemma ShownIsUnhiddenSuffix(zones: seq<Zone>, level: int, showAll: bool)
    requires MaxNonDecreasing(zones)
    ensures var k := FirstUnhidden(zones, level, showAll, 0);
      && (forall i :: 0 <= i < |zones| ==> (IsHidden(zones, i, level, showAll) <==> i < k))
      && Shown(zones, level, showAll, |zones|) == zones[k..|zones|]
  {
    var k := FirstUnhidden(zones, level, showAll, 0);
    forall i | k <= i < |zones|
      ensures !IsHidden(zones, i, level, showAll)
    {
      HiddenDownwardClosed(zones, level, showAll, i, k);
    }
    ShownAfterHiddenPrefix(zones, level, showAll, k, |zones|);
  }

  /** With "show all", or when no zone lies ahead, the page lists every zone. */
  lemma ShownAll(zones: seq<Zone>, level: int, showAll: bool)
    requires showAll || FirstZoneAbove(zones, level) == -1
    ensures Shown(zones, level, showAll, |zones|) == zones
  {
    ShownKeepsUnhidden(zones, level, showAll, |zones|);
    assert zones[..|zones|] == zones;
  }

  // ---- the level input ----

  /** A typed level is read back as itself, negative ones included; an empty or unreadable entry,
      and 0, become 1. */
  lemma LevelInputValues(n: int)
    ensures n != 0 ==> LevelInput(if n < 0 then "-" + NatToDecimal(-n) else NatToDecimal(n)) == n
  {
    ParseIntRoundTrip(n);
  }

  /** An empty entry, one that starts with a letter, and 0 all become 1. */
  lemma LevelInputFallback(s: string)
    requires s == [] || 'a' <= s[0] <= 'z' || IsUpper(s[0]) || s == "0"
    ensures LevelInput(s) == 1
  {
    if s == "0" {
      ParseIntOfZero();
    } else if s != [] {
      ParseIntOfLetter(s);
    }
  }

  // ---- the zone table ----

  /** Every zone of the table has its minimum at or below its maximum, so by `NeverBoth` no level
      is both under- and over-leveled for it. */
  lemma ZonesConsistent()
    ensures forall i :: 0 <= i < |Zones| ==> Zones[i].minLevel <= Zones[i].maxLevel
  {
  }

  /** The walkthrough's maximum levels never decrease. */
  lemma ZonesSorted()
    ensures MaxNonDecreasing(Zones)
  {
  }

  /** At every level the page renders the walkthrough's zones from the first unhidden one on,
      in order, and exactly the zones before it are hidden. */
  lemma ZonesShown(level: int, showAll: bool)
    ensures var k := FirstUnhidden(Zones, level, showAll, 0);
      && (forall i :: 0 <= i < |Zones| ==> (IsHidden(Zones, i, level, showAll) <==> i < k))
      && Shown(Zones, level, showAll, |Zones|) == Zones[k..|Zones|]
  {
    ZonesSorted();
    ShownIsUnhiddenSuffix(Zones, level, showAll);
  }

  /** At level 60 the first zone ahead is Leyndell (index 8). */
  lemma LevelSixtyAhead()
    ensures FirstZoneAbove(Zones, 60) == 8
  {
    assert forall j :: 0 <= j < 8 ==> Zones[j].minLevel <= 60;
    FirstZoneAboveIs(Zones, 60, 8);
  }

  /** At level 60 the four zones up to Stormveil Castle are hidden. */
  lemma LevelSixtyHides()
    ensures IsHidden(Zones, 0, 60, false) && IsHidden(Zones, 1, 60, false)
    ensures IsHidden(Zones, 2, 60, false) && IsHidden(Zones, 3, 60, false)
  {
    LevelSixtyAhead();
  }

  /** At level 60 the zones from Liurnia (South) on are shown. */
  lemma LevelSixtyShows()
    ensures forall i :: 4 <= i < |Zones| ==> !IsHidden(Zones, i, 60, false)
  {
    LevelSixtyAhead();
    forall i | 4 <= i < |Zones|
      ensures !IsHidden(Zones, i, 60, false)
    {
      if i >= 7 {
        LastPassedZoneShown(Zones, i, 60, false);
      } else {
        assert i == 4 || i == 5 || i == 6;
        assert !IsOverLeveled(60, Zones[i]);
      }
    }
  }

  /** At level 60 the page renders the zones from Liurnia (South) to Farum Azula, in order. */
  lemma LevelSixtyShown()
    ensures Shown(Zones, 60, false, |Zones|) == Zones[4..|Zones|]
  {
    LevelSixtyHides();
    LevelSixtyShows();
    forall i | 0 <= i < 4
      ensures IsHidden(Zones, i, 60, false)
    {
      assert i == 0 || i == 1 || i == 2 || i == 3;
    }
    ShownAfterHiddenPrefix(Zones, 60, false, 4, |Zones|);
  }

  /** At level 60, Liurnia (South) through the Altus Plateau are the perfect zones. */
  lemma LevelSixtyPerfect()
    ensures forall i :: 0 <= i < |Zones| ==> (IsPerfect(60, Zones[i]) <==> 4 <= i < 8)
  {
    assert forall i :: 0 <= i < 4 ==> Zones[i].maxLevel < 50;
    assert forall i :: 4 <= i < 8 ==> Zones[i].minLevel <= 60 && Zones[i].maxLevel >= 50;
    assert forall i :: 8 <= i < |Zones| ==> Zones[i].minLevel >= 80;
  }

  /** At level 200 every zone is over-leveled, yet none is hidden, because no zone lies ahead. */
  lemma LevelTwoHundred()
    ensures FirstZoneAbove(Zones, 200) == -1
    ensures forall i :: 0 <= i < |Zones| ==> IsOverLeveled(200, Zones[i]) && !IsHidden(Zones, i, 200, false)
  {
    assert forall i :: 0 <= i < |Zones| ==> Zones[i].minLevel <= 120 && Zones[i].maxLevel <= 150;
  }
}
