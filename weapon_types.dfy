/** The weapon record shared by the catalog scripts and the calculator
    (src/types/weapon.ts). Attributes are a closed set. A scaling tier is kept
    as the string the catalog holds, because both scripts copy it through
    unchecked; `ParseTier` says which strings are known grades. */
module WeaponTypes {
  import opened JsText
  import opened JsValues

  datatype Attribute = Str | Dex | Int | Fai | Arc

  /** The five attributes in the order every catalog script writes them. */
  const Attributes: seq<Attribute> := [Str, Dex, Int, Fai, Arc]

  datatype ScalingTier = S | A | B | C | D | E | NoScaling

  const Tiers: seq<ScalingTier> := [S, A, B, C, D, E, NoScaling]

  function AttributeName(a: Attribute): string
  {
    match a
    case Str => "Str"
    case Dex => "Dex"
    case Int => "Int"
    case Fai => "Fai"
    case Arc => "Arc"
  }

  /** The key under which the calculator looks a stat up: the attribute name
      lower-cased (`StatKeyIsLowerCased`). */
  function StatKey(a: Attribute): string
  {
    match a
    case Str => "str"
    case Dex => "dex"
    case Int => "int"
    case Fai => "fai"
    case Arc => "arc"
  }

  function TierLabel(t: ScalingTier): string
  {
    match t
    case S => "S"
    case A => "A"
    case B => "B"
    case C => "C"
    case D => "D"
    case E => "E"
    case NoScaling => "-"
  }

  /** The grade a tier string names, if it names one. */
  function ParseTier(s: string): (r: Option<ScalingTier>)
    ensures r.Some? ==> TierLabel(r.value) == s
  {
    if |s| != 1 then None
    else
      match s[0]
      case 'S' => Some(S)
      case 'A' => Some(A)
      case 'B' => Some(B)
      case 'C' => Some(C)
      case 'D' => Some(D)
      case 'E' => Some(E)
      case '-' => Some(NoScaling)
      case _ => None
  }

  predicate IsKnownTier(s: string) { ParseTier(s).Some? }

  datatype Scaling = Scaling(attribute: Attribute, tier: string)

  datatype Requirement = Requirement(attribute: Attribute, value: JsNumber)

  datatype Damage = Damage(
    physical: JsNumber, magic: JsNumber, fire: JsNumber,
    lightning: JsNumber, holy: JsNumber, critical: JsNumber)

  /** A catalog entry. Text fields may be absent (`undefined`) in the JSON. */
  datatype Weapon = Weapon(
    id: Option<string>,
    name: Option<string>,
    category: Option<string>,
    weight: JsNumber,
    image: Option<string>,
    description: Option<string>,
    damage: Damage,
    scaling: seq<Scaling>,
    requirements: seq<Requirement>,
    isSomber: bool)

  /** Every label parses back to its grade, and a known string is the label of its grade. */
  lemma ParseTierRoundTrip(t: ScalingTier, s: string)
    ensures ParseTier(TierLabel(t)) == Some(t)
    ensures ParseTier(s) == Some(t) <==> s == TierLabel(t)
  {
  }

  /** `scale.attribute.toLowerCase()`: the stat key is the lower-cased attribute name. */
  lemma StatKeyIsLowerCased(a: Attribute)
    ensures StatKey(a) == LowerAscii(AttributeName(a))
  {
    match a
    case Str => assert LowerAscii("Str") == "str";
    case Dex => assert LowerAscii("Dex") == "dex";
    case Int => assert LowerAscii("Int") == "int";
    case Fai => assert LowerAscii("Fai") == "fai";
    case Arc => assert LowerAscii("Arc") == "arc";
  }

  /** Distinct attributes read distinct stats. */
  lemma StatKeyInjective(a: Attribute, b: Attribute)
    ensures StatKey(a) == StatKey(b) <==> a == b
  {
  }
}
