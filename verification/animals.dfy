/**
 * The later revision's animal catalog (package `zoo.animal`): five species, the
 * rules each one applies when it meets another animal or a climate, and the
 * `Animal` object whose fields the game updates.
 */
module Animals {
  import opened Environment
  import opened Results
  import Rng

  datatype Species = ChineseAlligator | AfricanPygmyGoose | RedPanda | WildBoar | Leopard

  /** The `type` each species passes to the base constructor. */
  function TypeOf(s: Species): AnimalType
  {
    match s
    case ChineseAlligator => Reptile
    case AfricanPygmyGoose => Bird
    case RedPanda => Mammal
    case WildBoar => Mammal
    case Leopard => Mammal
  }

  /** The `name` each species passes to the base constructor. */
  function NameOf(s: Species): string
  {
    match s
    case ChineseAlligator => "Chinese Alligator"
    case AfricanPygmyGoose => "African Pygmy Goose"
    case RedPanda => "Red Panda"
    case WildBoar => "Wild Boar"
    case Leopard => "Leopard"
  }

  /** `COST`, the purchase price. */
  function CostOf(s: Species): int
  {
    match s
    case ChineseAlligator => 270
    case AfricanPygmyGoose => 10
    case RedPanda => 90
    case WildBoar => 30
    case Leopard => 100
  }

  /** `ATTRACTION_SCORE`, the score a new animal starts with. */
  function ScoreOf(s: Species): int
  {
    match s
    case ChineseAlligator => 120
    case AfricanPygmyGoose => 15
    case RedPanda => 80
    case WildBoar => 20
    case Leopard => 30
  }

  /** `LIFE_SPAN` (`LIFESPAN` for the wild boar), in days. */
  function LifeSpanOf(s: Species): int
  {
    match s
    case ChineseAlligator => 14610
    case AfricanPygmyGoose => 2000
    case RedPanda => 4749
    case WildBoar => 2922
    case Leopard => 6210
  }

  /** What the hunting rules look at: the species, the weight in grams and the size in centimetres. */
  datatype Body = Body(species: Species, weight: int, size: real)

  /** `predator.hunts(prey)`. */
  predicate Hunts(predator: Species, prey: Body)
  {
    match predator
    case ChineseAlligator => prey.species != ChineseAlligator
    case AfricanPygmyGoose => false
    case RedPanda => TypeOf(prey.species) == Bird && prey.size <= 15.0
    case WildBoar => prey.size <= 50.0 && prey.species != WildBoar
    case Leopard => prey.weight <= 40000 && prey.species != Leopard
  }

  /** `canLiveIn(climate)`. */
  predicate CanLiveIn(s: Species, c: Climate)
  {
    match s
    case ChineseAlligator => c == Temperate
    case AfricanPygmyGoose => c == Tropical
    case RedPanda => c == Temperate
    case WildBoar => c == Temperate || c == Tropical || c == Continental
    case Leopard => c != Polar
  }

  /** `a.canCoexist(b)`: neither animal hunts the other. */
  predicate CanCoexist(a: Body, b: Body)
  {
    !Hunts(a.species, b) && !Hunts(b.species, a)
  }

  lemma CoexistSymmetric(a: Body, b: Body)
    ensures CanCoexist(a, b) == CanCoexist(b, a)
  {
  }

  lemma HuntingForbidsCoexistence(a: Body, b: Body)
    ensures Hunts(a.species, b) || Hunts(b.species, a) ==> !CanCoexist(a, b) && !CanCoexist(b, a)
  {
  }

  lemma ChineseAlligatorRules()
    ensures forall prey :: Hunts(ChineseAlligator, prey) <==> prey.species != ChineseAlligator
    ensures forall a: Body, b: Body :: a.species == ChineseAlligator ==>
      (CanCoexist(a, b) <==> b.species == ChineseAlligator)
    ensures forall c :: CanLiveIn(ChineseAlligator, c) <==> c == Temperate
    ensures CostOf(ChineseAlligator) == 270 && ScoreOf(ChineseAlligator) == 120
    ensures TypeOf(ChineseAlligator) == Reptile && NameOf(ChineseAlligator) == "Chinese Alligator"
  {
  }

  lemma AfricanPygmyGooseRules()
    ensures forall prey :: !Hunts(AfricanPygmyGoose, prey)
    ensures forall c :: CanLiveIn(AfricanPygmyGoose, c) <==> c == Tropical
    ensures CostOf(AfricanPygmyGoose) == 10 && ScoreOf(AfricanPygmyGoose) == 15
    ensures TypeOf(AfricanPygmyGoose) == Bird && NameOf(AfricanPygmyGoose) == "African Pygmy Goose"
  {
  }

  lemma RedPandaRules()
    ensures forall prey :: Hunts(RedPanda, prey) <==> TypeOf(prey.species) == Bird && prey.size <= 15.0
    ensures forall prey: Body :: TypeOf(prey.species) != Bird ==> !Hunts(RedPanda, prey)
    ensures forall a: Body, b: Body :: a.species == RedPanda && b.species == RedPanda ==> CanCoexist(a, b)
    ensures forall c :: CanLiveIn(RedPanda, c) <==> c == Temperate
    ensures CostOf(RedPanda) == 90 && ScoreOf(RedPanda) == 80 && TypeOf(RedPanda) == Mammal
  {
  }

  lemma WildBoarRules()
    ensures forall prey :: Hunts(WildBoar, prey) <==> prey.size <= 50.0 && prey.species != WildBoar
    ensures forall c :: CanLiveIn(WildBoar, c) <==> c in {Temperate, Tropical, Continental}
    ensures !CanLiveIn(WildBoar, Dry) && !CanLiveIn(WildBoar, Polar)
    ensures CostOf(WildBoar) == 30 && ScoreOf(WildBoar) == 20
    ensures TypeOf(WildBoar) == Mammal && NameOf(WildBoar) == "Wild Boar"
  {
  }

  lemma LeopardRules()
    ensures forall prey :: Hunts(Leopard, prey) <==> prey.weight <= 40000 && prey.species != Leopard
    ensures forall c :: CanLiveIn(Leopard, c) <==> c != Polar
    ensures CostOf(Leopard) == 100 && ScoreOf(Leopard) == 30 && TypeOf(Leopard) == Mammal
  {
  }

  /** The `switch` in `loadAnimalFromDb`: the species a stored name stands for. */
  function SpeciesNamed(name: string): (r: Option<Species>)
    ensures r.Some? ==> NameOf(r.value) == name
    ensures r.None? ==> forall s :: NameOf(s) != name
  {
    if name == "African Pygmy Goose" then Some(AfricanPygmyGoose)
    else if name == "Chinese Alligator" then Some(ChineseAlligator)
    else if name == "Leopard" then Some(Leopard)
    else if name == "Red Panda" then Some(RedPanda)
    else if name == "Wild Boar" then Some(WildBoar)
    else None
  }

  /** Every species saves under a name that loads back as that same species. */
  lemma NameRoundTrip(s: Species)
    ensures SpeciesNamed(NameOf(s)) == Some(s)
  {
  }

  /** The age `random<Species>()` draws: uniform over [1, lifespan]. */
  function RandomAge(s: Species, raw: int): (age: int)
    ensures 1 <= age <= LifeSpanOf(s)
  {
    Rng.RandomNumber(1, LifeSpanOf(s), raw)
  }

  class Animal {
    const species: Species
    const name: string
    var age: int
    var weight: int
    var size: real
    var attractionScore: int
    var used: bool

    /** The public constructor every species offers: a new animal, not yet placed. */
    constructor (species: Species, age: int, weight: int, size: real)
      ensures this.species == species && name == NameOf(species)
      ensures this.age == age && this.weight == weight && this.size == size
      ensures attractionScore == ScoreOf(species) && !used
    {
      this.species := species;
      this.name := NameOf(species);
      this.age := age;
      this.weight := weight;
      this.size := size;
      this.attractionScore := ScoreOf(species);
      this.used := false;
    }

    /** The constructor `loadAnimalFromDb` uses, which keeps the stored `used` flag. */
    constructor Loaded(species: Species, age: int, weight: int, size: real, used: bool)
      ensures this.species == species && name == NameOf(species)
      ensures this.age == age && this.weight == weight && this.size == size
      ensures attractionScore == ScoreOf(species) && this.used == used
    {
      this.species := species;
      this.name := NameOf(species);
      this.age := age;
      this.weight := weight;
      this.size := size;
      this.attractionScore := ScoreOf(species);
      this.used := used;
    }

    /** What the hunting rules see of this animal. */
    function AsBody(): Body
      reads this`weight, this`size
    {
      Body(species, weight, size)
    }

    /** `cost()`. */
    function Cost(): int
    {
      CostOf(species)
    }

    method SetAge(age: int)
      modifies this`age
      ensures this.age == age
    {
      this.age := age;
    }

    method SetWeight(weight: int)
      modifies this`weight
      ensures this.weight == weight
    {
      this.weight := weight;
    }

    method SetSize(size: real)
      modifies this`size
      ensures this.size == size
    {
      this.size := size;
    }

    method SetAttractionScore(attractionScore: int)
      modifies this`attractionScore
      ensures this.attractionScore == attractionScore
    {
      this.attractionScore := attractionScore;
    }

    /** `setUsed`: the database write may fail, the flag is set regardless. */
    method SetUsed(used: bool)
      modifies this`used
      ensures this.used == used
    {
      this.used := used;
    }
  }

  /** The species dispatch of `loadAnimalFromDb`, given the stored row. */
  method LoadAnimal(name: string, age: int, weight: int, size: real, used: bool) returns (r: Result<Animal, string>)
    ensures r.Ok? <==> SpeciesNamed(name).Some?
    ensures r.Ok? ==> fresh(r.value) && r.value.species == SpeciesNamed(name).value && r.value.name == name
    ensures r.Ok? ==> r.value.age == age && r.value.weight == weight && r.value.size == size && r.value.used == used
    ensures r.Err? ==> r.error == "Unknown animal: " + name
  {
    var species := SpeciesNamed(name);
    if species.Some? {
      var a := new Animal.Loaded(species.value, age, weight, size, used);
      r := Ok(a);
    } else {
      r := Err("Unknown animal: " + name);
    }
  }

  /** `randomChineseAlligator()`, `randomLeopard()` and the others; the Gaussian weight and size are injected samples. */
  method RandomAnimal(s: Species, ageDraw: int, weightSample: int, sizeSample: real) returns (a: Animal)
    ensures fresh(a) && a.species == s && !a.used
    ensures a.age == RandomAge(s, ageDraw) && 1 <= a.age <= LifeSpanOf(s)
    ensures a.weight == weightSample && a.size == sizeSample && a.attractionScore == ScoreOf(s)
  {
    a := new Animal(s, RandomAge(s, ageDraw), weightSample, sizeSample);
  }
}
