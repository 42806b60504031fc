/**
 * Decorator.ts: a basic `Car` and wrappers around any car. `CarDecorator`
 * forwards price and description to the car it wraps; `ElectricCarDecorator`
 * adds 5000 to the price and ", electric car" to the description.
 */
module Decorator {

  datatype Car =
    | BasicCar
    | CarDecorator(decoratedCar: Car)
    | ElectricCarDecorator(decoratedCar: Car)

  const BasicPrice := 10000
  const ElectricSurcharge := 5000
  const BasicDescription := "Basic car"
  const ElectricSuffix := ", electric car"

  /** `getPrice`. */
  function GetPrice(c: Car): int {
    match c
    case BasicCar => BasicPrice
    case CarDecorator(inner) => GetPrice(inner)
    case ElectricCarDecorator(inner) => GetPrice(inner) + ElectricSurcharge
  }

  /** `getDescription`. */
  function GetDescription(c: Car): string {
    match c
    case BasicCar => BasicDescription
    case CarDecorator(inner) => GetDescription(inner)
    case ElectricCarDecorator(inner) => GetDescription(inner) + ElectricSuffix
  }

  /** How many electric layers wrap the basic car (plain decorators do not count). */
  function ElectricLayers(c: Car): nat {
    match c
    case BasicCar => 0
    case CarDecorator(inner) => ElectricLayers(inner)
    case ElectricCarDecorator(inner) => ElectricLayers(inner) + 1
  }

  /** `k` copies of `s`, one after another. */
  function Repeat(s: string, k: nat): string {
    if k == 0 then "" else Repeat(s, k - 1) + s
  }

  /** A car with `k` electric layers costs 10000 + 5000 * k, however the layers are nested. */
  lemma {:induction false} PriceCountsElectricLayers(c: Car)
    ensures GetPrice(c) == BasicPrice + ElectricSurcharge * ElectricLayers(c)
  {
    match c
    case BasicCar =>
    case CarDecorator(inner) => PriceCountsElectricLayers(inner);
    case ElectricCarDecorator(inner) => PriceCountsElectricLayers(inner);
  }

  /** The description is "Basic car" followed by one ", electric car" per electric layer. */
  lemma {:induction false} DescriptionListsElectricLayers(c: Car)
    ensures GetDescription(c) == BasicDescription + Repeat(ElectricSuffix, ElectricLayers(c))
  {
    match c
    case BasicCar =>
      assert BasicDescription + "" == BasicDescription;
    case CarDecorator(inner) => DescriptionListsElectricLayers(inner);
    case ElectricCarDecorator(inner) =>
      DescriptionListsElectricLayers(inner);
      var k := ElectricLayers(inner);
      assert BasicDescription + Repeat(ElectricSuffix, k) + ElectricSuffix
          == BasicDescription + (Repeat(ElectricSuffix, k) + ElectricSuffix);
  }

  /** A plain `CarDecorator` changes neither price nor description. */
  lemma ForwardingDecorator(c: Car)
    ensures GetPrice(CarDecorator(c)) == GetPrice(c)
    ensures GetDescription(CarDecorator(c)) == GetDescription(c)
  {
  }

  /** The driver: the basic car is 10000 / "Basic car"; electric-wrapped it is 15000 / "Basic car, electric car". */
  lemma Example()
    ensures GetPrice(BasicCar) == 10000 && GetDescription(BasicCar) == "Basic car"
    ensures GetPrice(ElectricCarDecorator(BasicCar)) == 15000
    ensures GetDescription(ElectricCarDecorator(BasicCar)) == "Basic car, electric car"
  {
  }
}
