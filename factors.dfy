/** The two constant tables of the calculator: energy per gigabyte by server
    region, and carbon intensity per kilowatt-hour by hosting class and region.
    The decimal constants are exact `real` values. */
module Factors {

  /** The six server regions the tables are keyed by. */
  datatype Region = NorthAmerica | Europe | Asia | Oceania | SouthAmerica | Africa

  /** The two hosting classes of the carbon-intensity table. */
  datatype Hosting = Standard | Green

  datatype Option<T> = None | Some(value: T)

  /** The form key under which a region appears in both tables. */
  function RegionKey(r: Region): (key: string)
  {
    match r
    case NorthAmerica => "north-america"
    case Europe => "europe"
    case Asia => "asia"
    case Oceania => "oceania"
    case SouthAmerica => "south-america"
    case Africa => "africa"
  }

  /** The form key of a hosting class in the carbon-intensity table. */
  function HostingKey(h: Hosting): (key: string)
  {
    match h
    case Standard => "standard"
    case Green => "green"
  }

  /** Looking a key up in the region tables: a key that is not one of the six
      finds nothing. */
  function LookupRegion(key: string): (r: Option<Region>)
    ensures r.Some? ==> RegionKey(r.value) == key
    ensures r.None? ==> forall g: Region :: RegionKey(g) != key
  {
    if key == "north-america" then Some(NorthAmerica)
    else if key == "europe" then Some(Europe)
    else if key == "asia" then Some(Asia)
    else if key == "oceania" then Some(Oceania)
    else if key == "south-america" then Some(SouthAmerica)
    else if key == "africa" then Some(Africa)
    else None
  }

  /** Looking a key up at the top level of the carbon-intensity table. */
  function LookupHosting(key: string): (h: Option<Hosting>)
    ensures h.Some? ==> HostingKey(h.value) == key
    ensures h.None? ==> forall g: Hosting :: HostingKey(g) != key
  {
    if key == "standard" then Some(Standard)
    else if key == "green" then Some(Green)
    else None
  }

  /** The members every plain object inherits from `Object.prototype`.
      Indexing a table with one of these names yields that member, a function
      or an object, rather than `undefined`. */
  const InheritedMembers: set<string> := {
    "constructor", "hasOwnProperty", "isPrototypeOf", "propertyIsEnumerable",
    "toLocaleString", "toString", "valueOf", "__proto__",
    "__defineGetter__", "__defineSetter__", "__lookupGetter__", "__lookupSetter__"
  }

  /** Every region is found under its own key. */
  lemma LookupRegionKey(r: Region)
    ensures LookupRegion(RegionKey(r)) == Some(r)
  {
  }

  /** Every hosting class is found under its own key. */
  lemma LookupHostingKey(h: Hosting)
    ensures LookupHosting(HostingKey(h)) == Some(h)
  {
  }

  /** No two regions share a key. */
  lemma RegionKeysDistinct(r: Region, g: Region)
    ensures RegionKey(r) == RegionKey(g) <==> r == g
  {
  }

  /** The two hosting classes have different keys. */
  lemma HostingKeysDistinct(h: Hosting, g: Hosting)
    ensures HostingKey(h) == HostingKey(g) <==> h == g
  {
  }

  /** Energy consumed per gigabyte transferred, in kWh/GB. */
  function EnergyFactor(r: Region): (f: real)
    ensures 0.6 < f < 1.0
  {
    match r
    case NorthAmerica => 0.81
    case Europe => 0.65
    case Asia => 0.79
    case Oceania => 0.94
    case SouthAmerica => 0.74
    case Africa => 0.68
  }

  /** Carbon emitted per kilowatt-hour, in kg CO2/kWh. */
  function CarbonIntensity(h: Hosting, r: Region): (c: real)
    ensures 0.0 < c < 1.0
    ensures h == Green ==> c <= 0.06
    ensures h == Standard ==> c >= 0.21
  {
    match h
    case Standard =>
      (match r
       case NorthAmerica => 0.42
       case Europe => 0.28
       case Asia => 0.62
       case Oceania => 0.60
       case SouthAmerica => 0.21
       case Africa => 0.47)
    case Green =>
      (match r
       case NorthAmerica => 0.05
       case Europe => 0.04
       case Asia => 0.06
       case Oceania => 0.05
       case SouthAmerica => 0.03
       case Africa => 0.05)
  }

  /** In every region, green hosting has a strictly lower intensity than
      standard hosting. */
  lemma GreenIntensityBelowStandard(r: Region)
    ensures CarbonIntensity(Green, r) < CarbonIntensity(Standard, r)
  {
  }
}
