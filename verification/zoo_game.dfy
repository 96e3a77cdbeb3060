/**
 * The later revision's zoo (`zoo.Zoo`): the balance, the day counter, the list
 * of owned habitats and the list of owned animals, with the guarded operations
 * the menus call. The shop it buys from and refills is passed in at
 * construction instead of being fetched from a static field.
 */
module ZooGame {
  import opened Environment
  import opened Animals
  import opened Habitats
  import opened Shops
  import opened Results
  import Lists
  import Placement

  /** `BalanceTooLowException`. */
  datatype PurchaseError = BalanceTooLow

  /** The attributes, habitats and animals a successful database load yields. */
  datatype SavedState = SavedState(balance: int, currentDay: int, habitats: seq<Habitat>, animals: seq<Animal>)

  /**
   * How the database load ended: with the whole saved state, or with an
   * exception after the habitats and animals listed had already been added.
   */
  datatype LoadOutcome =
    | Loaded(state: SavedState)
    | Failed(habitats: seq<Habitat>, animals: seq<Animal>)

  /** Every animal living in one of the given habitats. */
  function Residents(hs: seq<Habitat>): set<Animal>
    reads hs
  {
    set h, a | h in hs && a in h.animals :: a
  }

  /** The total attraction score of the used habitats among `hs`. */
  function UsedScore(hs: seq<Habitat>): int
    reads hs, Residents(hs)
  {
    if hs == [] then 0
    else
      var last := hs[|hs| - 1];
      assert forall a :: a in last.animals ==> a in Residents(hs);
      UsedScore(hs[..|hs| - 1]) + (if last.used then ScoreSum(last.animals) else 0)
  }

  /** `numVisitors`: none below a total score of 1, otherwise the (injected) truncated Gaussian sample. */
  function Visitors(totalScore: int, sample: int): int
  {
    if totalScore < 1 then 0 else sample
  }

  /** The `used` habitats, in list order. */
  function UsedOf(hs: seq<Habitat>): (r: seq<Habitat>)
    reads hs
    ensures forall i :: 0 <= i < |r| ==> r[i] in hs && r[i].used
    ensures forall i :: 0 <= i < |hs| && hs[i].used ==> hs[i] in r
    ensures |r| <= |hs|
  {
    if hs == [] then [] else (if hs[0].used then [hs[0]] else []) + UsedOf(hs[1..])
  }

  /** The habitats not in use, in list order. */
  function UnusedOf(hs: seq<Habitat>): (r: seq<Habitat>)
    reads hs
    ensures forall i :: 0 <= i < |r| ==> r[i] in hs && !r[i].used
    ensures forall i :: 0 <= i < |hs| && !hs[i].used ==> hs[i] in r
    ensures |r| <= |hs|
  {
    if hs == [] then [] else (if hs[0].used then [] else [hs[0]]) + UnusedOf(hs[1..])
  }

  /** The animals not placed in any habitat, in list order. */
  function UnusedAnimalsOf(s: seq<Animal>): (r: seq<Animal>)
    reads s
    ensures forall i :: 0 <= i < |r| ==> r[i] in s && !r[i].used
    ensures forall i :: 0 <= i < |s| && !s[i].used ==> s[i] in r
    ensures |r| <= |s|
  {
    if s == [] then [] else (if s[0].used then [] else [s[0]]) + UnusedAnimalsOf(s[1..])
  }

  /** Putting one more element in front of either half keeps two halves adding up to the whole. */
  lemma SplitStep<T>(x: T, left: seq<T>, right: seq<T>, whole: seq<T>)
    requires multiset(left) + multiset(right) == multiset(whole)
    ensures multiset([x] + left) + multiset(right) == multiset([x] + whole)
    ensures multiset(left) + multiset([x] + right) == multiset([x] + whole)
  {
  }

  /** The used and unused habitats split the list: nothing lost, nothing counted twice. */
  lemma {:induction false} UsedUnusedPartition(hs: seq<Habitat>)
    ensures multiset(UsedOf(hs)) + multiset(UnusedOf(hs)) == multiset(hs)
  {
    if hs != [] {
      UsedUnusedPartition(hs[1..]);
      SplitStep(hs[0], UsedOf(hs[1..]), UnusedOf(hs[1..]), hs[1..]);
      assert hs == [hs[0]] + hs[1..];
      if hs[0].used {
        assert UsedOf(hs) == [hs[0]] + UsedOf(hs[1..]) && UnusedOf(hs) == UnusedOf(hs[1..]);
      } else {
        assert UnusedOf(hs) == [hs[0]] + UnusedOf(hs[1..]) && UsedOf(hs) == UsedOf(hs[1..]);
      }
    }
  }

  /** No habitat is both used and unused. */
  lemma UsedUnusedDisjoint(hs: seq<Habitat>)
    ensures forall i :: 0 <= i < |UsedOf(hs)| ==> UsedOf(hs)[i] !in UnusedOf(hs)
  {
  }

  /** Both filters keep the habitats in list order. */
  lemma {:induction false} UsedUnusedInOrder(hs: seq<Habitat>)
    ensures Lists.Sublist(UsedOf(hs), hs) && Lists.Sublist(UnusedOf(hs), hs)
  {
    if hs != [] {
      UsedUnusedInOrder(hs[1..]);
      var u, n := UsedOf(hs[1..]), UnusedOf(hs[1..]);
      if hs[0].used {
        assert UsedOf(hs) == [hs[0]] + u;
        assert ([hs[0]] + u)[1..] == u;
        assert UnusedOf(hs) == n;
      } else {
        assert UnusedOf(hs) == [hs[0]] + n;
        assert ([hs[0]] + n)[1..] == n;
        assert UsedOf(hs) == u;
      }
    }
  }

  /** The unused animals keep their relative order. */
  lemma {:induction false} UnusedAnimalsInOrder(s: seq<Animal>)
    ensures Lists.Sublist(UnusedAnimalsOf(s), s)
  {
    if s != [] {
      UnusedAnimalsInOrder(s[1..]);
      var u := UnusedAnimalsOf(s[1..]);
      if s[0].used {
        assert UnusedAnimalsOf(s) == u;
      } else {
        assert UnusedAnimalsOf(s) == [s[0]] + u;
        assert ([s[0]] + u)[1..] == u;
      }
    }
  }

  class Zoo {
    var balance: int
    var currentDay: int
    var habitats: seq<Habitat>
    var animals: seq<Animal>
    const shop: Shop

    /**
     * The private constructor. When the load succeeds, the zoo holds what it
     * read. When it throws, the balance and the day fall back to 100 and 1, the
     * habitats and animals read before the exception stay, and one new empty
     * temperate habitat is added after them.
     */
    constructor (load: LoadOutcome, shop: Shop)
      ensures this.shop == shop
      ensures load.Loaded? ==>
        && balance == load.state.balance && currentDay == load.state.currentDay
        && habitats == load.state.habitats && animals == load.state.animals
      ensures load.Failed? ==>
        && balance == 100 && currentDay == 1 && animals == load.animals
        && |habitats| == |load.habitats| + 1 && habitats[..|load.habitats|] == load.habitats
        && var fallback := habitats[|load.habitats|];
        && fresh(fallback)
        && fallback.name == "Temperate Climate Habitat" && fallback.climate == Temperate
        && fallback.animals == [] && !fallback.used
    {
      this.shop := shop;
      if load.Loaded? {
        balance := load.state.balance;
        currentDay := load.state.currentDay;
        habitats := load.state.habitats;
        animals := load.state.animals;
      } else {
        balance := 100;
        currentDay := 1;
        var fallback := new Habitat("Temperate Climate Habitat", Temperate);
        assert (load.habitats + [fallback])[..|load.habitats|] == load.habitats;
        habitats := load.habitats + [fallback];
        animals := load.animals;
      }
    }

    /** `setBalance`: the database write may fail, the field is set regardless. */
    method SetBalance(newBalance: int)
      modifies this`balance
      ensures balance == newBalance
    {
      balance := newBalance;
    }

    /** `setCurrentDay`: the database write may fail, the field is set regardless. */
    method SetCurrentDay(newCurrentDay: int)
      modifies this`currentDay
      ensures currentDay == newCurrentDay
    {
      currentDay := newCurrentDay;
    }

    /** `getUsedHabitats`. */
    function UsedHabitats(): seq<Habitat>
      reads this, habitats
    {
      UsedOf(habitats)
    }

    /** `getUnusedHabitats`. */
    function UnusedHabitats(): seq<Habitat>
      reads this, habitats
    {
      UnusedOf(habitats)
    }

    /** `getUnusedAnimals`. */
    function UnusedAnimals(): seq<Animal>
      reads this, animals
    {
      UnusedAnimalsOf(animals)
    }

    /** The four guards of `addAnimalToHabitat`; the animal's own `used` flag is not among them. */
    predicate MayPlace(animal: Animal, habitat: Habitat)
      reads this, habitat
    {
      habitat in habitats && habitat.used && animal in animals && animal !in habitat.animals
    }

    /** The four guards of `removeAnimalFromHabitat`. */
    predicate MayEvict(animal: Animal, habitat: Habitat)
      reads this, habitat
    {
      habitat in habitats && habitat.used && animal in animals && animal in habitat.animals
    }

    /**
     * `removeAnimalFromHabitat`: when the habitat is registered and used and the
     * animal is registered and lives there, it leaves the habitat and becomes
     * unused; otherwise nothing happens.
     */
    method RemoveAnimalFromHabitat(animal: Animal, habitat: Habitat)
      modifies habitat`animals, animal`used
      ensures old(MayEvict(animal, habitat)) ==>
        habitat.animals == Lists.RemoveFirst(old(habitat.animals), animal) && !animal.used
      ensures !old(MayEvict(animal, habitat)) ==>
        habitat.animals == old(habitat.animals) && animal.used == old(animal.used)
    {
      if !(habitat in habitats) {
        return;
      }
      if !habitat.used {
        return;
      }
      if !(animal in animals) {
        return;
      }
      if !(animal in habitat.animals) {
        return;
      }
      habitat.RemoveAnimal(animal);
      animal.SetUsed(false);
    }

    /**
     * `addAnimalToHabitat`: when the guards hold, the habitat's checked
     * `AddAnimal` decides; on success the animal is appended and marked used, on
     * failure its error is passed on and nothing changes. When a guard fails,
     * nothing happens and no error is raised.
     */
    method AddAnimalToHabitat(animal: Animal, habitat: Habitat) returns (r: Outcome<HabitatError>)
      modifies habitat`animals, animal`used
      ensures !old(MayPlace(animal, habitat)) ==>
        r == Pass && habitat.animals == old(habitat.animals) && animal.used == old(animal.used)
      ensures old(MayPlace(animal, habitat)) ==>
        (r.Pass? <==> Verdict(habitat.climate, old(habitat.animals), animal) == Placement.Admit)
      ensures old(MayPlace(animal, habitat)) && r.Pass? ==>
        habitat.animals == old(habitat.animals) + [animal] && animal.used
      ensures r.Fail? ==>
        habitat.animals == old(habitat.animals) && animal.used == old(animal.used)
      ensures old(habitat.Valid()) ==> habitat.Valid()
    {
      if !(habitat in habitats) {
        return Pass;
      }
      if !habitat.used {
        return Pass;
      }
      if !(animal in animals) {
        return Pass;
      }
      if animal in habitat.animals {
        return Pass;
      }
      r := habitat.AddAnimal(animal);
      if r.Pass? {
        animal.SetUsed(true);
      }
    }

    /**
     * `removeHabitat`: for a registered habitat, every resident (taken from a
     * copy of the list) leaves it and becomes unused, then the habitat becomes
     * unused; an unregistered habitat is left alone. Only these flags and the
     * resident list may change.
     */
    method RemoveHabitat(habitat: Habitat)
      modifies habitat`animals, habitat`used, habitat.animals`used
      ensures habitat !in habitats ==>
        && habitat.animals == old(habitat.animals) && habitat.used == old(habitat.used)
        && forall a :: a in old(habitat.animals) ==> a.used == old(a.used)
      ensures habitat in habitats ==>
        && habitat.animals == [] && !habitat.used
        && forall a :: a in old(habitat.animals) ==> !a.used
    {
      if !(habitat in habitats) {
        return;
      }
      var snapshot := habitat.animals;
      var i := 0;
      while i < |snapshot|
        invariant 0 <= i <= |snapshot|
        invariant habitat.animals == snapshot[i..]
        invariant forall k :: 0 <= k < i ==> !snapshot[k].used
      {
        assert snapshot[i..] == [snapshot[i]] + snapshot[i + 1..];
        ReleaseFirst(habitat, snapshot[i]);
        i := i + 1;
      }
      habitat.SetUsed(false);
    }

    /** One pass of the loop in `removeHabitat`, for the habitat's first resident. */
    method ReleaseFirst(habitat: Habitat, animal: Animal)
      requires habitat.animals != [] && habitat.animals[0] == animal
      modifies habitat`animals, animal`used
      ensures habitat.animals == old(habitat.animals)[1..] && !animal.used
    {
      habitat.RemoveAnimal(animal);
      animal.SetUsed(false);
    }

    /** `addHabitat`: a registered habitat becomes used; any other is ignored. */
    method AddHabitat(habitat: Habitat)
      modifies habitat`used
      ensures habitat in habitats ==> habitat.used
      ensures habitat !in habitats ==> habitat.used == old(habitat.used)
    {
      if habitat in habitats {
        habitat.SetUsed(true);
      }
    }

    /** `addNewHabitat`: the habitat joins the list; a failed database save does not undo it. */
    method AddNewHabitat(habitat: Habitat)
      modifies this`habitats
      ensures habitats == old(habitats) + [habitat]
    {
      habitats := habitats + [habitat];
    }

    /** `addNewAnimal`: the animal joins the list; a failed database save does not undo it. */
    method AddNewAnimal(animal: Animal)
      modifies this`animals
      ensures animals == old(animals) + [animal]
    {
      animals := animals + [animal];
    }

    /** `numVisitors`: adds up the scores of the used habitats, then draws the visitor count. */
    method NumVisitors(sample: int) returns (n: int)
      ensures n == Visitors(UsedScore(habitats), sample)
      ensures UsedScore(habitats) < 1 ==> n == 0
    {
      var totalScore := 0;
      var i := 0;
      while i < |habitats|
        invariant 0 <= i <= |habitats|
        invariant totalScore == UsedScore(habitats[..i])
      {
        var h := habitats[i];
        assert habitats[..i + 1][..i] == habitats[..i];
        assert UsedScore(habitats[..i + 1])
          == UsedScore(habitats[..i]) + (if h.used then ScoreSum(h.animals) else 0);
        ghost var residents := Residents(habitats[..i + 1]);
        if h.used {
          var score := h.GetAttractionScore();
          totalScore := totalScore + score;
        }
        assert Residents(habitats[..i + 1]) == residents;
        i := i + 1;
      }
      assert habitats[..i] == habitats;
      if totalScore < 1 {
        return 0;
      }
      n := sample;
    }

    /**
     * `nextDay`: one more day, three credits per visitor, and a shop refill on
     * every seventh day. Of the two visitor draws the source makes, only the one
     * that reaches the balance is modelled.
     */
    method NextDay(visitorSample: int, draws: nat -> ProductDraw)
      modifies this`currentDay, this`balance, shop`products
      ensures currentDay == old(currentDay) + 1
      ensures balance == old(balance) + 3 * Visitors(old(UsedScore(habitats)), visitorSample)
      ensures old(UsedScore(habitats)) < 1 ==> balance == old(balance)
      ensures currentDay % 7 == 0 ==>
        shop.Stocked(draws) && forall p :: p in shop.products ==> fresh(Ref(p))
      ensures currentDay % 7 != 0 ==> shop.products == old(shop.products)
    {
      ghost var residents := Residents(habitats);
      SetCurrentDay(currentDay + 1);
      assert Residents(habitats) == residents;
      var visitors := NumVisitors(visitorSample);
      SetBalance(balance + visitors * 3);
      if currentDay % 7 == 0 {
        shop.Refill(draws);
      }
    }

    /**
     * `purchaseProduct`: refused when the price exceeds the balance, with
     * nothing changed; otherwise the price is debited, the product leaves the
     * shop and joins the animals or the habitats according to its kind.
     */
    method PurchaseProduct(product: Product) returns (r: Outcome<PurchaseError>)
      modifies this`balance, this`animals, this`habitats, shop`products
      ensures r.Fail? <==> Price(product) > old(balance)
      ensures r.Fail? ==>
        && r.error == BalanceTooLow && balance == old(balance)
        && animals == old(animals) && habitats == old(habitats) && shop.products == old(shop.products)
      ensures r.Pass? ==>
        && balance == old(balance) - Price(product)
        && shop.products == Lists.RemoveFirst(old(shop.products), product)
      ensures r.Pass? && product.AnimalProduct? ==>
        animals == old(animals) + [product.animal] && habitats == old(habitats)
      ensures r.Pass? && product.HabitatProduct? ==>
        habitats == old(habitats) + [product.habitat] && animals == old(animals)
    {
      if Price(product) > balance {
        return Fail(BalanceTooLow);
      }
      SetBalance(balance - Price(product));
      shop.RemoveProduct(product);
      match product {
        case AnimalProduct(a) =>
          AddNewAnimal(a);
        case HabitatProduct(h) =>
          AddNewHabitat(h);
      }
      r := Pass;
    }
  }
}
