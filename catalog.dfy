/** The product record, the fixed catalog the storefront sells from, and
    the category filter over it. */
module Catalog {
  import Seqs

  /** The vehicle a part is for (the product's `type` tag). */
  datatype VehicleType = Car | Bike

  /** The category buttons: everything, or the parts for one vehicle type. */
  datatype Category = All | OfType(vehicle: VehicleType)

  /** A catalog entry. Prices are whole currency units. */
  datatype Product = Product(
    id: int,
    name: string,
    category: string,
    price: nat,
    image: string,
    description: string,
    vehicle: VehicleType)

  const BrakePads := Product(1, "Brake Pads", "Braking System", 500,
    "https://images.pexels.com/photos/13861/IMG_3496bfree.jpg?auto=compress&cs=tinysrgb&w=800",
    "High-performance ceramic brake pads", Car)
  const OilFilter := Product(2, "Oil Filter", "Engine Parts", 1299,
    "https://images.pexels.com/photos/4489702/pexels-photo-4489702.jpeg?auto=compress&cs=tinysrgb&w=800",
    "Premium quality oil filter for engine protection", Car)
  const AirFilter := Product(3, "Air Filter", "Engine Parts", 1850,
    "https://images.pexels.com/photos/7541975/pexels-photo-7541975.jpeg",
    "High-flow air filter for optimal performance", Car)
  const SparkPlugsSet := Product(4, "Spark Plugs Set", "Ignition System", 3299,
    "https://images.pexels.com/photos/190574/pexels-photo-190574.jpeg?auto=compress&cs=tinysrgb&w=800",
    "Iridium spark plugs - set of 4", Car)
  const CarBattery := Product(5, "Battery", "Electrical", 12999,
    "https://images.pexels.com/photos/257700/pexels-photo-257700.jpeg?auto=compress&cs=tinysrgb&w=800",
    "12V maintenance-free car battery", Car)
  const BikeChainSet := Product(6, "Bike Chain Set", "Transmission", 4299,
    "https://images.pexels.com/photos/267394/pexels-photo-267394.jpeg?auto=compress&cs=tinysrgb&w=800",
    "Durable bike chain and sprocket kit", Bike)
  const Helmet := Product(7, "Helmet", "Safety Gear", 5999,
    "https://images.pexels.com/photos/276517/pexels-photo-276517.jpeg?auto=compress&cs=tinysrgb&w=800",
    "ISI-certified aerodynamic helmet", Bike)
  const BikeBattery := Product(8, "Bike Battery", "Electrical", 4999,
    "https://images.pexels.com/photos/3807386/pexels-photo-3807386.jpeg?auto=compress&cs=tinysrgb&w=800",
    "12V maintenance-free bike battery", Bike)
  const LedHeadlight := Product(9, "LED Headlight", "Lighting", 1999,
    "https://images.pexels.com/photos/1149831/pexels-photo-1149831.jpeg?auto=compress&cs=tinysrgb&w=800",
    "High-intensity LED headlight for motorcycles", Bike)

  /** The catalog, in display order: five car parts, then four bike parts. */
  const Products: seq<Product> := [BrakePads, OilFilter, AirFilter, SparkPlugsSet, CarBattery,
                                   BikeChainSet, Helmet, BikeBattery, LedHeadlight]

  /** The test `p.type === selectedCategory` for one vehicle type. */
  function IsOfType(t: VehicleType): Product -> bool {
    (p: Product) => p.vehicle == t
  }

  /** The products shown for the selected category: never more than the
      catalog holds, and under a vehicle type only parts for that type. */
  function FilteredProducts(catalog: seq<Product>, category: Category): (shown: seq<Product>)
    ensures |shown| <= |catalog|
    ensures category.OfType? ==> forall i :: 0 <= i < |shown| ==> shown[i].vehicle == category.vehicle
  {
    match category
    case All => catalog
    case OfType(t) => Seqs.Filter(catalog, IsOfType(t))
  }

  /** "All" shows the whole catalog; a vehicle type shows exactly the
      catalog entries of that type, in catalog order. */
  lemma FilteredProductsMeaning(catalog: seq<Product>, category: Category)
    ensures category == All ==> FilteredProducts(catalog, category) == catalog
    ensures category.OfType? ==>
      var r := FilteredProducts(catalog, category);
      (forall i :: 0 <= i < |r| ==> r[i].vehicle == category.vehicle && r[i] in catalog) &&
      (forall i :: 0 <= i < |catalog| && catalog[i].vehicle == category.vehicle ==> catalog[i] in r) &&
      Seqs.IsSubsequence(r, catalog)
  {
    if category.OfType? {
      Seqs.FilterIsSubsequence(catalog, IsOfType(category.vehicle));
      Seqs.FilterMembers(catalog, IsOfType(category.vehicle));
    }
  }

  /** Every catalog entry is shown under exactly one of the two vehicle types. */
  lemma VehicleFiltersPartition(catalog: seq<Product>)
    ensures |FilteredProducts(catalog, OfType(Car))| + |FilteredProducts(catalog, OfType(Bike))| == |catalog|
  {
    Seqs.FilterPartition(catalog, IsOfType(Car), IsOfType(Bike));
  }

  /** An id names at most one entry of `catalog`. */
  predicate IdsDistinct(catalog: seq<Product>) {
    forall p, q :: p in catalog && q in catalog && p.id == q.id ==> p == q
  }

  /** Every entry of `catalog` costs something. */
  predicate PricesPositive(catalog: seq<Product>) {
    forall p :: p in catalog ==> p.price > 0
  }

  /** The catalog's ids are 1 to 9 in order, so no two entries share an id. */
  lemma CatalogIdsUnique()
    ensures forall i :: 0 <= i < |Products| ==> Products[i].id == i + 1
    ensures IdsDistinct(Products)
  {
  }

  /** Every catalog price is positive. */
  lemma CatalogPricesPositive()
    ensures PricesPositive(Products)
  {
  }

  /** On the shipped catalog, "Car" shows the first five entries. */
  lemma CarFilter()
    ensures FilteredProducts(Products, OfType(Car)) == Products[..5]
  {
    assert Products == Products[..5] + Products[5..];
    assert forall i :: 0 <= i < 5 ==> IsOfType(Car)(Products[i]);
    assert forall i :: 5 <= i < |Products| ==> !IsOfType(Car)(Products[i]);
    Seqs.FilterAppend(Products[..5], Products[5..], IsOfType(Car));
    Seqs.FilterKeepsAll(Products[..5], IsOfType(Car));
    Seqs.FilterKeepsNone(Products[5..], IsOfType(Car));
  }

  /** On the shipped catalog, "Bike" shows the last four entries. */
  lemma BikeFilter()
    ensures FilteredProducts(Products, OfType(Bike)) == Products[5..]
  {
    var cars, bikes := Products[..5], Products[5..];
    assert cars == [BrakePads, OilFilter, AirFilter, SparkPlugsSet, CarBattery];
    assert bikes == [BikeChainSet, Helmet, BikeBattery, LedHeadlight];
    assert Products == cars + bikes;
    assert forall i :: 0 <= i < |cars| ==> !IsOfType(Bike)(cars[i]);
    assert forall i :: 0 <= i < |bikes| ==> IsOfType(Bike)(bikes[i]);
    Seqs.FilterAppend(cars, bikes, IsOfType(Bike));
    Seqs.FilterKeepsNone(cars, IsOfType(Bike));
    Seqs.FilterKeepsAll(bikes, IsOfType(Bike));
    assert Seqs.Filter(Products, IsOfType(Bike)) == [] + bikes;
  }
}
