/**
 * The shop (`Shop.java`): a fixed-size inventory of animals and habitats for
 * sale, rebuilt wholesale by `Refill` from weighted random draws and shrunk one
 * product at a time by purchases. The draws are injected, one `ProductDraw`
 * per product, so that a refill is a deterministic function of them.
 */
module Shops {
  import opened Environment
  import opened Animals
  import opened Habitats
  import Lists
  import Rng

  /** `shopSize`: the number of products a refill puts on sale. */
  const ShopSize: nat := 10

  /** A `Purchesable`: either an animal or a habitat. */
  datatype Product = AnimalProduct(animal: Animal) | HabitatProduct(habitat: Habitat)

  /** `product.cost()`. */
  function Price(p: Product): int
  {
    match p
    case AnimalProduct(a) => a.Cost()
    case HabitatProduct(h) => h.Cost()
  }

  /** The object a product stands for. */
  function Ref(p: Product): object
  {
    match p
    case AnimalProduct(a) => a
    case HabitatProduct(h) => h
  }

  /**
   * The raw draws one product consumes: the kind draw over [0, 9], the pick
   * draw over [0, 99], and, for an animal, the age draw and the two Gaussian
   * samples for weight and size.
   */
  datatype ProductDraw = ProductDraw(kind: int, pick: int, age: int, weight: int, size: real)

  /** What a draw puts on sale, before any object is created. */
  datatype Offer = HabitatOffer(climate: Climate) | AnimalOffer(species: Species)

  /** `randomProduct`: a kind draw of 0 or 1 means a habitat, anything else an animal. */
  function IsHabitatDraw(r: int): bool
  {
    r <= 1
  }

  /** The threshold chain of `randomHabitatProduct`. */
  function HabitatClimate(r: int): Climate
  {
    if r < 10 then Tropical
    else if r < 30 then Dry
    else if r < 50 then Temperate
    else if r < 95 then Continental
    else Polar
  }

  /** The name `randomHabitatProduct` gives the habitat of each climate. */
  function HabitatName(c: Climate): string
  {
    match c
    case Tropical => "Tropical Climate Habitat"
    case Dry => "Dry Climate Habitat"
    case Temperate => "Temperate Climate Habitat"
    case Continental => "Continental Climate Habitat"
    case Polar => "Polar Climate Habitat"
  }

  /** The threshold chain of `randomAnimalProduct`. */
  function AnimalSpecies(r: int): Species
  {
    if r < 5 then Leopard
    else if r < 15 then RedPanda
    else WildBoar
  }

  function OfferOf(d: ProductDraw): Offer
  {
    if IsHabitatDraw(Rng.RandomNumber(0, 9, d.kind))
    then HabitatOffer(HabitatClimate(Rng.RandomNumber(0, 99, d.pick)))
    else AnimalOffer(AnimalSpecies(Rng.RandomNumber(0, 99, d.pick)))
  }

  /** Two of the ten kind draws give a habitat, eight an animal. */
  lemma ProductKindWeights()
    ensures Rng.Tally(IsHabitatDraw, true, 10) == 2
    ensures Rng.Tally(IsHabitatDraw, false, 10) == 8
  {
    Rng.TallyRun(IsHabitatDraw, true, 0, 2);
    Rng.TallyRun(IsHabitatDraw, true, 2, 10);
    Rng.TallyRun(IsHabitatDraw, false, 0, 2);
    Rng.TallyRun(IsHabitatDraw, false, 2, 10);
  }

  lemma HabitatClimateTallyBelow30(c: Climate)
    ensures Rng.Tally(HabitatClimate, c, 30) == (if c == Tropical then 10 else 0) + (if c == Dry then 20 else 0)
  {
    Rng.TallyRun(HabitatClimate, c, 0, 10);
    Rng.TallyRun(HabitatClimate, c, 10, 30);
  }

  lemma HabitatClimateTallyBelow95(c: Climate)
    ensures Rng.Tally(HabitatClimate, c, 95) ==
      (if c == Tropical then 10 else 0) + (if c == Dry then 20 else 0)
      + (if c == Temperate then 20 else 0) + (if c == Continental then 45 else 0)
  {
    HabitatClimateTallyBelow30(c);
    Rng.TallyRun(HabitatClimate, c, 30, 50);
    Rng.TallyRun(HabitatClimate, c, 50, 95);
  }

  lemma HabitatClimateTally(c: Climate)
    ensures Rng.Tally(HabitatClimate, c, 100) ==
      (if c == Tropical then 10 else 0) + (if c == Dry then 20 else 0) + (if c == Temperate then 20 else 0)
      + (if c == Continental then 45 else 0) + (if c == Polar then 5 else 0)
  {
    HabitatClimateTallyBelow95(c);
    Rng.TallyRun(HabitatClimate, c, 95, 100);
  }

  /** Out of the 100 pick draws: 10 tropical, 20 dry, 20 temperate, 45 continental, 5 polar. */
  lemma HabitatClimateWeights()
    ensures Rng.Tally(HabitatClimate, Tropical, 100) == 10
    ensures Rng.Tally(HabitatClimate, Dry, 100) == 20
    ensures Rng.Tally(HabitatClimate, Temperate, 100) == 20
    ensures Rng.Tally(HabitatClimate, Continental, 100) == 45
    ensures Rng.Tally(HabitatClimate, Polar, 100) == 5
  {
    HabitatClimateTally(Tropical);
    HabitatClimateTally(Dry);
    HabitatClimateTally(Temperate);
    HabitatClimateTally(Continental);
    HabitatClimateTally(Polar);
  }

  lemma AnimalSpeciesTallyBelow15(s: Species)
    ensures Rng.Tally(AnimalSpecies, s, 15) == (if s == Leopard then 5 else 0) + (if s == RedPanda then 10 else 0)
  {
    Rng.TallyRun(AnimalSpecies, s, 0, 5);
    Rng.TallyRun(AnimalSpecies, s, 5, 15);
  }

  lemma AnimalSpeciesTally(s: Species)
    ensures Rng.Tally(AnimalSpecies, s, 100) ==
      (if s == Leopard then 5 else 0) + (if s == RedPanda then 10 else 0) + (if s == WildBoar then 85 else 0)
  {
    AnimalSpeciesTallyBelow15(s);
    Rng.TallyRun(AnimalSpecies, s, 15, 100);
  }

  /** Out of the 100 pick draws: 5 leopards, 10 red pandas, 85 wild boars, and no other species. */
  lemma AnimalSpeciesWeights()
    ensures Rng.Tally(AnimalSpecies, Leopard, 100) == 5
    ensures Rng.Tally(AnimalSpecies, RedPanda, 100) == 10
    ensures Rng.Tally(AnimalSpecies, WildBoar, 100) == 85
    ensures Rng.Tally(AnimalSpecies, ChineseAlligator, 100) == 0
    ensures Rng.Tally(AnimalSpecies, AfricanPygmyGoose, 100) == 0
  {
    AnimalSpeciesTally(Leopard);
    AnimalSpeciesTally(RedPanda);
    AnimalSpeciesTally(WildBoar);
    AnimalSpeciesTally(ChineseAlligator);
    AnimalSpeciesTally(AfricanPygmyGoose);
  }

  /** The product `p` is what the draw `d` asks for, freshly made: a new empty habitat or a new unplaced animal. */
  predicate Delivers(p: Product, d: ProductDraw)
    reads Ref(p)
  {
    match OfferOf(d)
    case HabitatOffer(c) =>
      && p.HabitatProduct?
      && p.habitat.climate == c && p.habitat.name == HabitatName(c)
      && p.habitat.animals == [] && !p.habitat.used
    case AnimalOffer(s) =>
      && p.AnimalProduct?
      && p.animal.species == s && p.animal.age == RandomAge(s, d.age)
      && p.animal.weight == d.weight && p.animal.size == d.size
      && p.animal.attractionScore == ScoreOf(s) && !p.animal.used
  }

  /** `randomHabitatProduct`. */
  method RandomHabitatProduct(pick: int) returns (p: Product)
    ensures p.HabitatProduct? && fresh(p.habitat)
    ensures p.habitat.climate == HabitatClimate(Rng.RandomNumber(0, 99, pick))
    ensures p.habitat.name == HabitatName(p.habitat.climate)
    ensures p.habitat.animals == [] && !p.habitat.used
  {
    var c := HabitatClimate(Rng.RandomNumber(0, 99, pick));
    var h := new Habitat(HabitatName(c), c);
    p := HabitatProduct(h);
  }

  /** `randomAnimalProduct`. */
  method RandomAnimalProduct(pick: int, age: int, weight: int, size: real) returns (p: Product)
    ensures p.AnimalProduct? && fresh(p.animal)
    ensures p.animal.species == AnimalSpecies(Rng.RandomNumber(0, 99, pick))
    ensures p.animal.age == RandomAge(p.animal.species, age)
    ensures p.animal.weight == weight && p.animal.size == size
    ensures p.animal.attractionScore == ScoreOf(p.animal.species) && !p.animal.used
  {
    var a := RandomAnimal(AnimalSpecies(Rng.RandomNumber(0, 99, pick)), age, weight, size);
    p := AnimalProduct(a);
  }

  /** `randomProduct`. */
  method RandomProduct(d: ProductDraw) returns (p: Product)
    ensures fresh(Ref(p)) && Delivers(p, d)
  {
    if IsHabitatDraw(Rng.RandomNumber(0, 9, d.kind)) {
      p := RandomHabitatProduct(d.pick);
    } else {
      p := RandomAnimalProduct(d.pick, d.age, d.weight, d.size);
    }
  }

  class Shop {
    var products: seq<Product>

    constructor ()
      ensures products == []
    {
      products := [];
    }

    ghost function Objects(): set<object>
      reads this
    {
      set p | p in products :: Ref(p)
    }

    /** The inventory is exactly what the draws ask for, product i from draw i, no object twice. */
    ghost predicate Stocked(draws: nat -> ProductDraw)
      reads this, Objects()
    {
      && |products| == ShopSize
      && (forall i :: 0 <= i < |products| ==> Delivers(products[i], draws(i)))
      && (forall i, j :: 0 <= i < j < |products| ==> Ref(products[i]) != Ref(products[j]))
    }

    /** `refill`: clear the inventory, then draw `shopSize` new products. */
    method Refill(draws: nat -> ProductDraw)
      modifies this`products
      ensures Stocked(draws)
      ensures forall p :: p in products ==> fresh(Ref(p)) && p !in old(products)
    {
      products := [];
      var i: nat := 0;
      while i < ShopSize
        invariant i <= ShopSize && |products| == i
        invariant forall k :: 0 <= k < i ==> Delivers(products[k], draws(k))
        invariant forall k :: 0 <= k < i ==> fresh(Ref(products[k]))
        invariant forall k, j :: 0 <= k < j < i ==> Ref(products[k]) != Ref(products[j])
      {
        var p := RandomProduct(draws(i));
        products := products + [p];
        i := i + 1;
      }
    }

    /** `removeProduct`: drops the first occurrence of this very product; absent, nothing changes. */
    method RemoveProduct(product: Product)
      modifies this`products
      ensures products == Lists.RemoveFirst(old(products), product)
      ensures product !in old(products) ==> products == old(products)
    {
      products := Lists.RemoveFirst(products, product);
    }
  }

  /** The static `shop` field behind `Shop.getInstance()`. */
  class ShopHolder {
    var shop: Shop?

    constructor ()
      ensures shop == null
    {
      shop := null;
    }

    /** The first call creates the shop and refills it once; later calls hand back the same shop, untouched. */
    method GetInstance(draws: nat -> ProductDraw) returns (s: Shop)
      modifies this`shop
      ensures shop == s
      ensures old(shop) == null ==> fresh(s) && s.Stocked(draws)
      ensures old(shop) != null ==> s == old(shop) && s.products == old(shop.products)
    {
      if shop == null {
        var created := new Shop();
        created.Refill(draws);
        shop := created;
      }
      s := shop;
    }
  }
}
