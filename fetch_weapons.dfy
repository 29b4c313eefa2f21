/** `transformWeapon` (scripts/fetch-weapons.mjs): the pure mapping from one
    weapon record of the public Elden Ring API to the catalog's `Weapon`
    shape. The paging loop that downloads the records and the file write are
    not part of this module. */
module FetchWeapons {
  import opened JsText
  import opened JsValues
  import opened WeaponTypes
  import opened Calculator

  /** A JSON value where the API puts an `amount`: a number, a string, `null`,
      or nothing at all. */
  datatype ApiValue = Number(value: real) | Text(text: string) | Null | Undefined

  /** An entry of `attack` or `requiredAttributes`. */
  datatype ApiStat = ApiStat(name: string, amount: ApiValue)

  /** An entry of `scalesWith`; its grade is free text. */
  datatype ApiScaling = ApiScaling(name: string, scaling: string)

  /** A weapon as the API sends it. Each array may be missing. */
  datatype ApiWeapon = ApiWeapon(
    id: Option<string>,
    name: Option<string>,
    category: Option<string>,
    weight: JsNumber,
    image: Option<string>,
    description: Option<string>,
    attack: Option<seq<ApiStat>>,
    scalesWith: Option<seq<ApiScaling>>,
    requiredAttributes: Option<seq<ApiStat>>)

  /** `Number(v)` for the values an `amount` can hold. */
  function NumberOf(v: ApiValue): JsNumber
  {
    match v
    case Number(x) => Num(x)
    case Text(s) => ToNumber(s)
    case Null => Num(0.0)
    case Undefined => NaN
  }

  /** `arr?.find(item => item.name === name)`: the first entry with that name,
      or `undefined` when there is none or the array itself is missing. */
  function Find<T>(arr: Option<seq<T>>, nameOf: T -> string, name: string): (r: Option<T>)
    ensures r.Some? ==> arr.Some? && nameOf(r.value) == name
    ensures r.None? <==> arr.None? || forall i :: 0 <= i < |arr.value| ==> nameOf(arr.value[i]) != name
  {
    match arr
    case None => None
    case Some(items) =>
      var k := FindIndex(items, (item: T) => nameOf(item) == name);
      if k == -1 then None else Some(items[k])
  }

  function StatName(s: ApiStat): string { s.name }

  function ScalingName(s: ApiScaling): string { s.name }

  /** `findStat`: the amount of the first entry with that name, else 0. */
  function FindStat(arr: Option<seq<ApiStat>>, name: string): (v: ApiValue)
    ensures Absent(arr, StatName, name) ==> v == Number(0.0)
    ensures !Absent(arr, StatName, name) ==> exists i :: 0 <= i < |arr.value| && arr.value[i].name == name && v == arr.value[i].amount
  {
    match Find(arr, StatName, name)
    case None => Number(0.0)
    case Some(found) => found.amount
  }

  /** `findScaling`: the grade of the first entry with that name, else `"-"`. */
  function FindScaling(arr: Option<seq<ApiScaling>>, name: string): (tier: string)
    ensures Absent(arr, ScalingName, name) ==> tier == "-"
    ensures !Absent(arr, ScalingName, name) ==> exists i :: 0 <= i < |arr.value| && arr.value[i].name == name && tier == arr.value[i].scaling
  {
    match Find(arr, ScalingName, name)
    case None => "-"
    case Some(found) => found.scaling
  }

  /** `Number(findStat(arr, name)) || d`. */
  function StatOr(arr: Option<seq<ApiStat>>, name: string, d: real): JsNumber
  {
    OrDefault(NumberOf(FindStat(arr, name)), d)
  }

  /** The scaling entry for one attribute: `{ attribute, tier: findScaling(scalesWith, attribute) }`. */
  function ScalingFor(arr: Option<seq<ApiScaling>>, a: Attribute): Scaling
  {
    Scaling(a, FindScaling(arr, AttributeName(a)))
  }

  /** The requirement entry for one attribute: `{ attribute, value: Number(findStat(...)) || 0 }`. */
  function RequirementFor(arr: Option<seq<ApiStat>>, a: Attribute): Requirement
  {
    Requirement(a, StatOr(arr, AttributeName(a), 0.0))
  }

  /** The `damage` object: each field `Number(findStat(attack, name)) || 0`, critical `|| 100`. */
  function DamageOf(attack: Option<seq<ApiStat>>): Damage
  {
    Damage(
      StatOr(attack, "Phy", 0.0),
      StatOr(attack, "Mag", 0.0),
      StatOr(attack, "Fire", 0.0),
      StatOr(attack, "Ligt", 0.0),
      StatOr(attack, "Holy", 0.0),
      StatOr(attack, "Crit", 100.0))
  }

  /** The `scaling` array: one entry per attribute, Str first and Arc last. */
  function ScalingList(scalesWith: Option<seq<ApiScaling>>): seq<Scaling>
  {
    seq(5, i requires 0 <= i < 5 => ScalingFor(scalesWith, Attributes[i]))
  }

  /** The `requirements` array, in the same order. */
  function RequirementList(required: Option<seq<ApiStat>>): seq<Requirement>
  {
    seq(5, i requires 0 <= i < 5 => RequirementFor(required, Attributes[i]))
  }

  /** `transformWeapon`: whatever the API sends, the record has five numeric damages, and five
      scaling and five numeric requirement entries, Str to Arc. */
  function TransformWeapon(api: ApiWeapon): (w: Weapon)
    ensures w.damage.physical.Num? && w.damage.magic.Num? && w.damage.fire.Num?
    ensures w.damage.lightning.Num? && w.damage.holy.Num? && w.damage.critical.Num?
    ensures |w.scaling| == 5 && |w.requirements| == 5
    ensures forall i :: 0 <= i < 5 ==> w.scaling[i].attribute == Attributes[i] == w.requirements[i].attribute
    ensures forall i :: 0 <= i < 5 ==> w.requirements[i].value.Num?
  {
    Weapon(
      api.id, api.name, api.category, api.weight, api.image, api.description,
      DamageOf(api.attack), ScalingList(api.scalesWith), RequirementList(api.requiredAttributes),
      false)
  }

  // ---- lookups ----

  /** `find` returns the first entry carrying the name. */
  lemma FindFirstMatch<T>(arr: Option<seq<T>>, nameOf: T -> string, name: string, k: nat)
    requires arr.Some? && k < |arr.value| && nameOf(arr.value[k]) == name
    requires forall j :: 0 <= j < k ==> nameOf(arr.value[j]) != name
    ensures Find(arr, nameOf, name) == Some(arr.value[k])
  {
  }

  /** A missing array, or one without an entry of that name, finds nothing. */
  predicate Absent<T>(arr: Option<seq<T>>, nameOf: T -> string, name: string)
  {
    arr.None? || forall i :: 0 <= i < |arr.value| ==> nameOf(arr.value[i]) != name
  }

  /** `findStat` gives the amount of the first entry with the name, and 0 when there is none. */
  lemma FindStatLookup(arr: Option<seq<ApiStat>>, name: string, k: nat)
    ensures Absent(arr, StatName, name) ==> FindStat(arr, name) == Number(0.0)
    ensures arr.Some? && k < |arr.value| && arr.value[k].name == name
            && (forall j :: 0 <= j < k ==> arr.value[j].name != name)
            ==> FindStat(arr, name) == arr.value[k].amount
  {
    if arr.Some? && k < |arr.value| && arr.value[k].name == name
       && (forall j :: 0 <= j < k ==> arr.value[j].name != name) {
      FindFirstMatch(arr, StatName, name, k);
    }
  }

  /** `findScaling` copies the grade of the first entry with the name, unchecked, and gives "-" when there is none. */
  lemma FindScalingLookup(arr: Option<seq<ApiScaling>>, name: string, k: nat)
    ensures Absent(arr, ScalingName, name) ==> FindScaling(arr, name) == "-"
    ensures arr.Some? && k < |arr.value| && arr.value[k].name == name
            && (forall j :: 0 <= j < k ==> arr.value[j].name != name)
            ==> FindScaling(arr, name) == arr.value[k].scaling
  {
    if arr.Some? && k < |arr.value| && arr.value[k].name == name
       && (forall j :: 0 <= j < k ==> arr.value[j].name != name) {
      FindFirstMatch(arr, ScalingName, name, k);
    }
  }

  /** `Number(findStat(arr, name)) || d`: always a number; the default `d` when the entry is
      absent, or its amount converts to 0 or NaN; the converted amount otherwise. */
  lemma StatOrDefault(arr: Option<seq<ApiStat>>, name: string, d: real)
    ensures StatOr(arr, name, d).Num?
    ensures Absent(arr, StatName, name) ==> StatOr(arr, name, d) == Num(d)
    ensures !IsTruthy(NumberOf(FindStat(arr, name))) ==> StatOr(arr, name, d) == Num(d)
    ensures IsTruthy(NumberOf(FindStat(arr, name))) ==> StatOr(arr, name, d) == NumberOf(FindStat(arr, name))
  {
    FindStatLookup(arr, name, 0);
  }

  // ---- the transformed record ----

  /** Each scaling and requirement entry of the transformed record is looked up under its own attribute's name. */
  lemma TransformShape(api: ApiWeapon)
    ensures |TransformWeapon(api).scaling| == 5 && |TransformWeapon(api).requirements| == 5
    ensures forall i :: 0 <= i < 5 ==>
              && TransformWeapon(api).scaling[i] == ScalingFor(api.scalesWith, Attributes[i])
              && TransformWeapon(api).requirements[i] == RequirementFor(api.requiredAttributes, Attributes[i])
  {
  }

  /** An attribute the API does not list under `scalesWith` is graded "-". */
  lemma UnlistedScalingIsDash(api: ApiWeapon, i: nat)
    requires i < 5 && Absent(api.scalesWith, ScalingName, AttributeName(Attributes[i]))
    ensures TransformWeapon(api).scaling[i] == Scaling(Attributes[i], "-")
  {
    TransformShape(api);
    FindScalingLookup(api.scalesWith, AttributeName(Attributes[i]), 0);
  }

  /** Every requirement value is a number; it is 0 when the attribute is not listed or its
      amount is not a non-zero number. */
  lemma RequirementValues(api: ApiWeapon, i: nat)
    requires i < 5
    ensures TransformWeapon(api).requirements[i].value.Num?
    ensures Absent(api.requiredAttributes, StatName, AttributeName(Attributes[i]))
            ==> TransformWeapon(api).requirements[i].value == Num(0.0)
    ensures !IsTruthy(NumberOf(FindStat(api.requiredAttributes, AttributeName(Attributes[i]))))
            ==> TransformWeapon(api).requirements[i].value == Num(0.0)
  {
    TransformShape(api);
    StatOrDefault(api.requiredAttributes, AttributeName(Attributes[i]), 0.0);
  }

  /** The five damages come from Phy, Mag, Fire, Ligt and Holy, defaulting to 0; critical comes
      from Crit and is 100 when that entry is absent, zero or not a number. */
  lemma DamageFields(api: ApiWeapon)
    ensures var d := TransformWeapon(api).damage;
            && d.physical == StatOr(api.attack, "Phy", 0.0)
            && d.magic == StatOr(api.attack, "Mag", 0.0)
            && d.fire == StatOr(api.attack, "Fire", 0.0)
            && d.lightning == StatOr(api.attack, "Ligt", 0.0)
            && d.holy == StatOr(api.attack, "Holy", 0.0)
            && d.critical == StatOr(api.attack, "Crit", 100.0)
    ensures var d := TransformWeapon(api).damage;
            d.physical.Num? && d.magic.Num? && d.fire.Num? && d.lightning.Num? && d.holy.Num? && d.critical.Num?
    ensures Absent(api.attack, StatName, "Phy") ==> TransformWeapon(api).damage.physical == Num(0.0)
    ensures !IsTruthy(NumberOf(FindStat(api.attack, "Crit"))) ==> TransformWeapon(api).damage.critical == Num(100.0)
    ensures Absent(api.attack, StatName, "Crit") ==> TransformWeapon(api).damage.critical == Num(100.0)
  {
    StatOrDefault(api.attack, "Phy", 0.0);
    StatOrDefault(api.attack, "Crit", 100.0);
  }

  /** The descriptive fields are copied unchanged and `isSomber` is always false. */
  lemma CopiedFields(api: ApiWeapon)
    ensures var w := TransformWeapon(api);
            && w.id == api.id && w.name == api.name && w.category == api.category
            && w.weight == api.weight && w.image == api.image && w.description == api.description
            && !w.isSomber
  {
  }

  // ---- what the calculator can rely on ----

  /** A transformed record can be rated exactly when every looked-up grade is a known one:
      the damage is always numeric, but grades are not checked. */
  lemma TransformCalculable(api: ApiWeapon)
    ensures Calculable(TransformWeapon(api)) <==>
              forall i :: 0 <= i < 5 ==> IsKnownTier(FindScaling(api.scalesWith, AttributeName(Attributes[i])))
  {
    TransformShape(api);
    DamageFields(api);
  }

  /** A grade the calculator does not know is passed through: a record scaling "Z" in Str cannot be rated. */
  lemma UnknownGradePassesThrough(api: ApiWeapon)
    requires api.scalesWith == Some([ApiScaling("Str", "Z")])
    ensures TransformWeapon(api).scaling[0].tier == "Z"
    ensures !Calculable(TransformWeapon(api))
  {
    FindScalingLookup(api.scalesWith, "Str", 0);
    assert !IsKnownTier("Z");
  }

  /** "-" is a known grade, so entries graded "-" everywhere can be rated. */
  lemma DashGradesKnown(scaling: seq<Scaling>)
    requires forall i :: 0 <= i < |scaling| ==> scaling[i].tier == "-"
    ensures KnownTiers(scaling)
  {
    assert IsKnownTier("-");
  }

  /** Without `scalesWith` every grade is "-"; without `requiredAttributes` every requirement is 0. */
  lemma BareRecordEntries(api: ApiWeapon)
    requires api.scalesWith.None? && api.requiredAttributes.None?
    ensures var w := TransformWeapon(api);
            && (forall i :: 0 <= i < |w.scaling| ==> w.scaling[i].tier == "-")
            && (forall i :: 0 <= i < |w.requirements| ==> w.requirements[i].value == Num(0.0))
  {
    TransformShape(api);
    forall i | 0 <= i < 5
      ensures TransformWeapon(api).scaling[i].tier == "-"
      ensures TransformWeapon(api).requirements[i].value == Num(0.0)
    {
      UnlistedScalingIsDash(api, i);
      RequirementValues(api, i);
    }
  }

  /** A record without `scalesWith` and without `requiredAttributes` rates its floored base
      damage for any stats of at least 0. */
  lemma BareRecordRating(api: ApiWeapon, stats: map<string, int>)
    requires api.scalesWith.None? && api.requiredAttributes.None?
    requires forall a: Attribute :: StatOf(stats, StatKey(a)) >= 0
    ensures Calculable(TransformWeapon(api))
    ensures AttackRating(TransformWeapon(api), stats) == BaseTotal(TransformWeapon(api).damage).Floor
  {
    var w := TransformWeapon(api);
    BareRecordEntries(api);
    DashGradesKnown(w.scaling);
    ZeroRequirements(w, stats);
    AllDashRating(w, stats);
  }
}
