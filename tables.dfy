/** The three selectors of the earthpit calculator and the constant tables
    keyed by them: the plate's material factor, the soil's electrical factor
    and cost complexity, the pit's depth factor and the base installation
    cost of each pit type and plate material. */
module EarthpitTables {

  /** "Regular Pit", "Chemical Earthing Pit", "Maintenance-Free Pit". */
  datatype PitType = Regular | Chemical | MaintenanceFree

  /** "GI (Galvanized Iron)", "Copper". */
  datatype PlateMaterial = GalvanizedIron | Copper

  /** "Loamy Soil", "Clay Soil", "Sandy Soil", "Rocky Soil", "Black Cotton Soil". */
  datatype SoilType = Loamy | Clay | Sandy | Rocky | BlackCotton

  /** Multiplier of the depth formula for the plate material; copper
      conducts better, so it needs half the depth of galvanized iron. */
  function MaterialFactor(m: PlateMaterial): (f: real)
    ensures 0.0 < f <= 1.0
    ensures f == 1.0 <==> m == GalvanizedIron
    ensures m == Copper ==> f == 0.5
  {
    match m
    case GalvanizedIron => 1.0
    case Copper => 0.5
  }

  /** Label of the connecting strip, which is made of the plate's material. */
  function StripType(m: PlateMaterial): (s: string)
    ensures s != []
  {
    match m
    case GalvanizedIron => "GI"
    case Copper => "Copper"
  }

  /** Multiplier of the depth formula for the soil type. */
  function SoilFactor(s: SoilType): (f: real)
    ensures 0.8 <= f <= 2.0
  {
    match s
    case Loamy => 1.0
    case Clay => 1.2
    case Sandy => 1.5
    case Rocky => 2.0
    case BlackCotton => 0.8
  }

  /** Pit-type scaling of the depth: treated fillings need a shallower pit. */
  function DepthFactor(p: PitType): (f: real)
    ensures 0.0 < f <= 1.0
    ensures f == 1.0 <==> p == Regular
  {
    match p
    case Regular => 1.0
    case Chemical => 0.7
    case MaintenanceFree => 0.8
  }

  /** Base installation cost, in rupees, by pit type and plate material. */
  function BaseCost(p: PitType, m: PlateMaterial): (c: int)
    ensures 15000 <= c <= 35000
  {
    match (p, m)
    case (Regular, GalvanizedIron) => 15000
    case (Regular, Copper) => 25000
    case (Chemical, GalvanizedIron) => 20000
    case (Chemical, Copper) => 30000
    case (MaintenanceFree, GalvanizedIron) => 25000
    case (MaintenanceFree, Copper) => 35000
  }

  /** Cost multiplier of the depth-dependent part of the cost, by soil type;
      independent of the soil's electrical factor. */
  function SoilComplexity(s: SoilType): (k: real)
    ensures 1.0 <= k <= 1.8
    ensures k == 1.0 <==> s == Loamy
  {
    match s
    case Loamy => 1.0
    case Clay => 1.2
    case Sandy => 1.3
    case Rocky => 1.8
    case BlackCotton => 1.4
  }

  /** Rank of a pit type in the order Regular < Chemical < Maintenance-Free. */
  function PitRank(p: PitType): nat
  {
    match p
    case Regular => 0
    case Chemical => 1
    case MaintenanceFree => 2
  }

  /** For every pit type a copper plate costs exactly 10000 more than a
      galvanized-iron one. */
  lemma CopperPremium(p: PitType)
    ensures BaseCost(p, Copper) == BaseCost(p, GalvanizedIron) + 10000
  {
  }

  /** For either material the base cost strictly increases from Regular to
      Chemical to Maintenance-Free, in steps of 5000. */
  lemma BaseCostIncreasing(p: PitType, q: PitType, m: PlateMaterial)
    requires PitRank(p) < PitRank(q)
    ensures BaseCost(p, m) < BaseCost(q, m)
    ensures BaseCost(q, m) - BaseCost(p, m) == 5000 * (PitRank(q) - PitRank(p))
  {
  }
}
