/**
 * The earlier revision's animal catalog (package `Zoo.Animal`): four species
 * whose rules differ from the later ones (a wild boar or a leopard also hunts
 * its own kind), and the `Animal` object, which draws its id from a counter
 * shared by every construction.
 */
module EarlyAnimals {
  import opened Environment
  import Rng

  datatype Species = AfricanPygmyGoose | RedPanda | WildBoar | Leopard

  /** The `type` each species passes to the base constructor. */
  function TypeOf(s: Species): AnimalType
  {
    match s
    case AfricanPygmyGoose => Bird
    case RedPanda => Mammal
    case WildBoar => Mammal
    case Leopard => Mammal
  }

  /** The `name` each species passes to the base constructor, spelling included. */
  function NameOf(s: Species): string
  {
    match s
    case AfricanPygmyGoose => "African Pygmy Goose"
    case RedPanda => "Red Panda"
    case WildBoar => "Wild Board"
    case Leopard => "Leopard"
  }

  /** The goose's static constants; it is the only species of this revision that has them. */
  const GooseLifeSpan: int := 2000
  const GooseCost: int := 10
  const GooseAttractionScore: int := 15

  /** What the hunting rules look at: the species, the weight in grams and the size in centimetres. */
  datatype Body = Body(species: Species, weight: int, size: real)

  /** `predator.hunts(prey)`; no rule looks at the prey's species except through its type. */
  predicate Hunts(predator: Species, prey: Body)
  {
    match predator
    case AfricanPygmyGoose => false
    case RedPanda => TypeOf(prey.species) == Bird && prey.size <= 15.0
    case WildBoar => prey.size <= 50.0
    case Leopard => prey.weight <= 40000
  }

  /** `canLiveIn(climate)`. */
  predicate CanLiveIn(s: Species, c: Climate)
  {
    match s
    case AfricanPygmyGoose => c == Tropical
    case RedPanda => c == Temperate
    case WildBoar => c == Temperate || c == Tropical || c == Continental
    case Leopard => c != Polar
  }

  /** `a.canCoexist(b)`: neither animal hunts the other. */
  predicate CanCoexist(a: Body, b: Body)
  {
    !Hunts(a.species, b) && !Hunts(b.species, a)
  }

  lemma CoexistSymmetric(a: Body, b: Body)
    ensures CanCoexist(a, b) == CanCoexist(b, a)
  {
  }

  lemma HuntingForbidsCoexistence(a: Body, b: Body)
    ensures Hunts(a.species, b) || Hunts(b.species, a) ==> !CanCoexist(a, b) && !CanCoexist(b, a)
  {
  }

  lemma AfricanPygmyGooseRules()
    ensures forall prey :: !Hunts(AfricanPygmyGoose, prey)
    ensures forall c :: CanLiveIn(AfricanPygmyGoose, c) <==> c == Tropical
    ensures TypeOf(AfricanPygmyGoose) == Bird && NameOf(AfricanPygmyGoose) == "African Pygmy Goose"
    ensures GooseCost == 10 && GooseAttractionScore == 15 && GooseLifeSpan == 2000
  {
  }

  lemma RedPandaRules()
    ensures forall prey :: Hunts(RedPanda, prey) <==> prey.species == AfricanPygmyGoose && prey.size <= 15.0
    ensures forall prey: Body :: TypeOf(prey.species) != Bird ==> !Hunts(RedPanda, prey)
    ensures forall c :: CanLiveIn(RedPanda, c) <==> c == Temperate
    ensures TypeOf(RedPanda) == Mammal && NameOf(RedPanda) == "Red Panda"
  {
  }

  /** Unlike the later revision, the boar's rule looks at the size alone, so boars hunt boars. */
  lemma WildBoarRules()
    ensures forall prey :: Hunts(WildBoar, prey) <==> prey.size <= 50.0
    ensures forall p: Body, q: Body :: p.size == q.size ==> Hunts(WildBoar, p) == Hunts(WildBoar, q)
    ensures forall a: Body, b: Body :: a.species == WildBoar && b.species == WildBoar && b.size <= 50.0 ==>
      !CanCoexist(a, b)
    ensures forall c :: CanLiveIn(WildBoar, c) <==> c in {Temperate, Tropical, Continental}
    ensures TypeOf(WildBoar) == Mammal && NameOf(WildBoar) == "Wild Board"
  {
  }

  /** Unlike the later revision, the leopard's rule looks at the weight alone, so leopards hunt leopards. */
  lemma LeopardRules()
    ensures forall prey :: Hunts(Leopard, prey) <==> prey.weight <= 40000
    ensures forall a: Body, b: Body ::
      a.species == Leopard && b.species == Leopard && a.weight <= 40000 && b.weight <= 40000 ==> !CanCoexist(a, b)
    ensures forall c :: CanLiveIn(Leopard, c) <==> c != Polar
    ensures TypeOf(Leopard) == Mammal && NameOf(Leopard) == "Leopard"
  {
  }

  /** The age `randomAfricanPygmyGoose()` draws: uniform over [1, 2000]. */
  function RandomGooseAge(raw: int): (age: int)
    ensures 1 <= age <= GooseLifeSpan
  {
    Rng.RandomNumber(1, GooseLifeSpan, raw)
  }

  /**
   * The static `nextId` counter. `issued` records, for the proofs only, every
   * id handed out so far.
   */
  class IdCounter {
    var nextId: int
    ghost var issued: seq<int>

    /** Ids handed out so far are strictly increasing and all below `nextId`. */
    ghost predicate Valid()
      reads this
    {
      && (forall i, j :: 0 <= i < j < |issued| ==> issued[i] < issued[j])
      && (forall i :: 0 <= i < |issued| ==> issued[i] < nextId)
    }

    /** The counter as the class is loaded: the first id is 1. */
    constructor ()
      ensures nextId == 1 && issued == [] && Valid()
    {
      nextId := 1;
      issued := [];
    }

    /** `nextId++`: hands out the current value and advances the counter. */
    method Take() returns (id: int)
      requires Valid()
      modifies this`nextId, this`issued
      ensures id == old(nextId) && nextId == old(nextId) + 1
      ensures issued == old(issued) + [id]
      ensures forall i :: 0 <= i < |old(issued)| ==> old(issued)[i] < id
      ensures Valid()
    {
      id := nextId;
      nextId := nextId + 1;
      issued := issued + [id];
    }
  }

  /** Ids from a valid counter are pairwise distinct. */
  lemma IssuedDistinct(c: IdCounter)
    requires c.Valid()
    ensures forall i, j :: 0 <= i < |c.issued| && 0 <= j < |c.issued| && i != j ==> c.issued[i] != c.issued[j]
  {
    forall i, j | 0 <= i < |c.issued| && 0 <= j < |c.issued| && i != j
      ensures c.issued[i] != c.issued[j]
    {
      if i < j {
        assert c.issued[i] < c.issued[j];
      } else {
        assert c.issued[j] < c.issued[i];
      }
    }
  }

  class Animal {
    const id: int
    const species: Species
    const name: string
    var age: int
    var weight: int
    var size: real

    /** The base constructor: takes the next id from `ids`. */
    constructor (ids: IdCounter, species: Species, age: int, weight: int, size: real)
      requires ids.Valid()
      modifies ids`nextId, ids`issued
      ensures id == old(ids.nextId) && ids.nextId == old(ids.nextId) + 1
      ensures ids.issued == old(ids.issued) + [id] && ids.Valid()
      ensures this.species == species && name == NameOf(species)
      ensures this.age == age && this.weight == weight && this.size == size
    {
      var newId := ids.Take();
      this.id := newId;
      this.species := species;
      this.name := NameOf(species);
      this.age := age;
      this.weight := weight;
      this.size := size;
    }

    /** What the hunting rules see of this animal. */
    function AsBody(): Body
      reads this`weight, this`size
    {
      Body(species, weight, size)
    }

    method SetAge(age: int)
      modifies this`age
      ensures this.age == age
    {
      this.age := age;
    }

    method SetWeight(weight: int)
      modifies this`weight
      ensures this.weight == weight
    {
      this.weight := weight;
    }

    method SetSize(size: real)
      modifies this`size
      ensures this.size == size
    {
      this.size := size;
    }
  }

  /** `randomAfricanPygmyGoose()`; the Gaussian weight and size are injected samples. */
  method RandomGoose(ids: IdCounter, ageDraw: int, weightSample: int, sizeSample: real) returns (a: Animal)
    requires ids.Valid()
    modifies ids`nextId, ids`issued
    ensures fresh(a) && a.species == AfricanPygmyGoose && a.id == old(ids.nextId)
    ensures a.age == RandomGooseAge(ageDraw) && 1 <= a.age <= GooseLifeSpan
    ensures a.weight == weightSample && a.size == sizeSample
    ensures ids.nextId == old(ids.nextId) + 1 && ids.Valid()
  {
    a := new Animal(ids, AfricanPygmyGoose, RandomGooseAge(ageDraw), weightSample, sizeSample);
  }
}
