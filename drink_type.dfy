/**
 * The closed set of beverage categories (the `DrinkType` enum) and its static
 * metadata: raw value / identifier, SF Symbol name and nominal container capacity.
 * Colours are presentation only and are not modelled.
 */
module DrinkTypes {

  datatype DrinkType = Drink | Coffee | Water | Soup

  /** `DrinkType.allCases`: every category exactly once, in declaration order. */
  function AllCases(): (r: seq<DrinkType>)
    ensures |r| == 4
    ensures forall i, j :: 0 <= i < j < |r| ==> r[i] != r[j]
  {
    [Drink, Coffee, Water, Soup]
  }

  /** The enum's `String` raw value, which is also the label shown in the picker. */
  function RawValue(t: DrinkType): string
  {
    match t
    case Drink => "飲料杯"
    case Coffee => "咖啡杯"
    case Water => "水杯"
    case Soup => "湯碗"
  }

  /** `Identifiable.id` is the raw value. */
  function Id(t: DrinkType): string
  {
    RawValue(t)
  }

  /** Nominal container capacity in millilitres; every container holds something. */
  function MaxCapacity(t: DrinkType): (r: real)
    ensures r > 0.0
    ensures r <= 1500.0
  {
    match t
    case Drink => 1000.0
    case Coffee => 500.0
    case Water => 1500.0
    case Soup => 800.0
  }

  /** SF Symbol used as the cup outline. */
  function SystemImageName(t: DrinkType): string
  {
    match t
    case Drink => "wineglass.fill"
    case Coffee => "cup.and.saucer.fill"
    case Water => "mug.fill"
    case Soup => "takeoutbag.and.cup.and.straw.fill"
  }

  /** `allCases` lists every category, in the order drink, coffee, water, soup. */
  lemma AllCasesInOrder(t: DrinkType)
    ensures t in AllCases()
    ensures AllCases() == [Drink, Coffee, Water, Soup]
  {
    match t
    case Drink => assert AllCases()[0] == t;
    case Coffee => assert AllCases()[1] == t;
    case Water => assert AllCases()[2] == t;
    case Soup => assert AllCases()[3] == t;
  }

  /** Distinct categories have distinct identifiers, so `id` can key a `ForEach`. */
  lemma IdInjective(t: DrinkType, u: DrinkType)
    ensures Id(t) == Id(u) ==> t == u
    ensures Id(t) == RawValue(t)
  {
  }

  /** Distinct categories are drawn with distinct symbols. */
  lemma ImageNamesDistinct(t: DrinkType, u: DrinkType)
    ensures SystemImageName(t) == SystemImageName(u) ==> t == u
  {
  }

  /** The capacities of the four containers, listed in declaration order. */
  lemma CapacityTable()
    ensures seq(4, i requires 0 <= i < 4 => MaxCapacity(AllCases()[i])) == [1000.0, 500.0, 1500.0, 800.0]
  {
  }
}
