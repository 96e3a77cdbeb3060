/**
 * The earlier revision's zoo (`Zoo.Zoo`): a balance and a day counter that no
 * operation of this revision touches, the habitats split into a used and an
 * unused list, and the animals not yet placed. Every lookup walks a list and
 * compares references.
 */
module EarlyZoo {
  import opened EarlyAnimals
  import opened EarlyHabitats
  import opened Results
  import Lists

  /** `ConcurrentModificationException`, thrown by a fail-fast list iterator. */
  datatype IterationError = ConcurrentModification

  /** What a for-each over a resident list that removes each visited resident leaves behind. */
  datatype EvictionRun = EvictionRun(evicted: seq<Animal>, remaining: seq<Animal>, failed: bool)

  /**
   * Java's `ArrayList` iterator, driven by a for-each loop whose body removes the
   * element just returned from the list being iterated: `hasNext` compares the
   * cursor with the current length, and `next` throws once the list has been
   * modified since the iterator was created.
   */
  function ForEachRemoving(list: seq<Animal>, cursor: nat, modified: bool, evicted: seq<Animal>): EvictionRun
    requires modified || cursor <= |list|
    decreases if modified then 0 else 1
  {
    if cursor == |list| then EvictionRun(evicted, list, false)
    else if modified then EvictionRun(evicted, list, true)
    else
      var x := list[cursor];
      ForEachRemoving(Lists.RemoveFirst(list, x), cursor + 1, true, evicted + [x])
  }

  /**
   * The eviction loop of `removeHabitat` as written: only the first resident
   * ever leaves; with exactly two residents the loop then ends quietly and the
   * second one stays behind; with one or with three or more the next step throws.
   */
  function EvictAsWritten(residents: seq<Animal>): (r: EvictionRun)
    ensures |residents| == 0 ==> r == EvictionRun([], [], false)
    ensures |residents| == 2 ==> r == EvictionRun([residents[0]], [residents[1]], false)
    ensures |residents| == 1 || |residents| >= 3 ==> r == EvictionRun([residents[0]], residents[1..], true)
  {
    ForEachRemoving(residents, 0, false, [])
  }

  /** Counterexample: a habitat with two residents is released while still holding the second. */
  lemma TwoResidentsOneLeftBehind(a: Animal, b: Animal)
    ensures EvictAsWritten([a, b]).remaining == [b] && !EvictAsWritten([a, b]).failed
  {
  }

  /** Moving one habitat from one list to the end of the other loses and gains nothing. */
  lemma MoveKeepsHabitats(source: seq<Habitat>, target: seq<Habitat>, h: Habitat)
    requires h in source
    ensures multiset(Lists.RemoveFirst(source, h)) + multiset(target + [h]) == multiset(source) + multiset(target)
    ensures multiset(target + [h]) + multiset(Lists.RemoveFirst(source, h)) == multiset(target) + multiset(source)
  {
    Lists.RemoveFirstMultiset(source, h);
  }

  class Zoo {
    var balance: int
    var currentDay: int
    var usedHabitats: seq<Habitat>
    var unusedHabitats: seq<Habitat>
    var unusedAnimals: seq<Animal>

    /** The private constructor: 100 credits, day 0, nothing owned. */
    constructor ()
      ensures balance == 100 && currentDay == 0
      ensures usedHabitats == [] && unusedHabitats == [] && unusedAnimals == []
    {
      balance := 100;
      currentDay := 0;
      usedHabitats := [];
      unusedHabitats := [];
      unusedAnimals := [];
    }

    /**
     * `removeAnimalFromHabitat`: when the habitat is among the used ones, the
     * animal leaves it (if it lives there) and is appended to the unused animals
     * whether or not it lived there; otherwise nothing happens.
     */
    method RemoveAnimalFromHabitat(animal: Animal, habitat: Habitat)
      modifies this`unusedAnimals, habitat`animals
      ensures habitat in old(usedHabitats) ==>
        && habitat.animals == Lists.RemoveFirst(old(habitat.animals), animal)
        && unusedAnimals == old(unusedAnimals) + [animal]
      ensures habitat !in old(usedHabitats) ==>
        habitat.animals == old(habitat.animals) && unusedAnimals == old(unusedAnimals)
    {
      var i := 0;
      while i < |usedHabitats|
        invariant 0 <= i <= |usedHabitats|
        invariant forall j :: 0 <= j < i ==> usedHabitats[j] != habitat
      {
        if usedHabitats[i] == habitat {
          habitat.RemoveAnimal(animal);
          unusedAnimals := unusedAnimals + [animal];
          break;
        }
        i := i + 1;
      }
    }

    /** The position of `habitat` among the used habitats, found by walking the list. */
    method FindUsed(habitat: Habitat) returns (found: bool)
      ensures found <==> habitat in usedHabitats
    {
      found := false;
      var i := 0;
      while i < |usedHabitats|
        invariant 0 <= i <= |usedHabitats|
        invariant forall j :: 0 <= j < i ==> usedHabitats[j] != habitat
      {
        if usedHabitats[i] == habitat {
          return true;
        }
        i := i + 1;
      }
    }

    /**
     * The resident loop of `removeHabitat` as written: a for-each over the
     * habitat's own list whose body evicts the resident it was handed. The
     * result says whether the iterator threw.
     */
    method EvictIterating(habitat: Habitat) returns (failed: bool)
      modifies this`unusedAnimals, habitat`animals
      ensures var run := EvictAsWritten(old(habitat.animals));
        && habitat.animals == run.remaining
        && unusedAnimals == old(unusedAnimals) + run.evicted
        && failed == run.failed
    {
      ghost var evicted: seq<Animal> := [];
      var cursor := 0;
      var modified := false;
      while cursor != |habitat.animals|
        invariant modified || cursor == 0
        invariant ForEachRemoving(habitat.animals, cursor, modified, evicted) == EvictAsWritten(old(habitat.animals))
        invariant unusedAnimals == old(unusedAnimals) + evicted
        decreases if modified then 0 else 1
      {
        if modified {
          return true;
        }
        var animal := habitat.animals[cursor];
        assert Lists.RemoveFirst(habitat.animals, animal) == habitat.animals[1..];
        cursor := cursor + 1;
        EvictFirst(habitat, animal);
        evicted := evicted + [animal];
        modified := true;
      }
      failed := false;
    }

    /**
     * `removeHabitat` as written: the residents' loop removes from the list it
     * iterates, so it stops or throws after the first resident. When it throws,
     * the habitat stays among the used ones; otherwise it moves to the end of the
     * unused ones, whatever residents it still holds.
     */
    method RemoveHabitatAsWritten(habitat: Habitat) returns (r: Outcome<IterationError>)
      modifies this`usedHabitats, this`unusedHabitats, this`unusedAnimals, habitat`animals
      ensures habitat !in old(usedHabitats) ==>
        && r == Pass && habitat.animals == old(habitat.animals) && unusedAnimals == old(unusedAnimals)
        && usedHabitats == old(usedHabitats) && unusedHabitats == old(unusedHabitats)
      ensures habitat in old(usedHabitats) ==>
        var run := EvictAsWritten(old(habitat.animals));
        && habitat.animals == run.remaining
        && unusedAnimals == old(unusedAnimals) + run.evicted
        && (run.failed ==>
              r == Fail(ConcurrentModification)
              && usedHabitats == old(usedHabitats) && unusedHabitats == old(unusedHabitats))
        && (!run.failed ==>
              r == Pass
              && usedHabitats == Lists.RemoveFirst(old(usedHabitats), habitat)
              && unusedHabitats == old(unusedHabitats) + [habitat])
    {
      var found := FindUsed(habitat);
      if !found {
        return Pass;
      }
      var failed := EvictIterating(habitat);
      if failed {
        return Fail(ConcurrentModification);
      }
      usedHabitats := Lists.RemoveFirst(usedHabitats, habitat);
      unusedHabitats := unusedHabitats + [habitat];
      r := Pass;
    }

    /** One pass of the eviction loop's body, for the habitat's first resident. */
    method EvictFirst(habitat: Habitat, animal: Animal)
      requires habitat.animals != [] && habitat.animals[0] == animal
      modifies this`unusedAnimals, habitat`animals
      ensures habitat.animals == old(habitat.animals)[1..]
      ensures unusedAnimals == old(unusedAnimals) + [animal]
    {
      habitat.RemoveAnimal(animal);
      unusedAnimals := unusedAnimals + [animal];
    }

    /** The eviction loop of `removeHabitat` run over a copy of the resident list. */
    method EvictAll(habitat: Habitat)
      modifies this`unusedAnimals, habitat`animals
      ensures habitat.animals == []
      ensures unusedAnimals == old(unusedAnimals) + old(habitat.animals)
    {
      var snapshot := habitat.animals;
      var i := 0;
      while i < |snapshot|
        invariant 0 <= i <= |snapshot|
        invariant habitat.animals == snapshot[i..]
        invariant unusedAnimals == old(unusedAnimals) + snapshot[..i]
      {
        assert snapshot[i..] == [snapshot[i]] + snapshot[i + 1..];
        EvictFirst(habitat, snapshot[i]);
        assert snapshot[..i + 1] == snapshot[..i] + [snapshot[i]];
        i := i + 1;
      }
      assert snapshot[..i] == snapshot;
    }

    /**
     * `removeHabitat` as evidently intended: every resident, taken from a copy of
     * the list, leaves the habitat and is appended to the unused animals in order,
     * then the habitat moves from the used list to the end of the unused list.
     */
    method RemoveHabitat(habitat: Habitat)
      modifies this`usedHabitats, this`unusedHabitats, this`unusedAnimals, habitat`animals
      ensures habitat !in old(usedHabitats) ==>
        && habitat.animals == old(habitat.animals) && unusedAnimals == old(unusedAnimals)
        && usedHabitats == old(usedHabitats) && unusedHabitats == old(unusedHabitats)
      ensures habitat in old(usedHabitats) ==>
        && habitat.animals == []
        && unusedAnimals == old(unusedAnimals) + old(habitat.animals)
        && usedHabitats == Lists.RemoveFirst(old(usedHabitats), habitat)
        && unusedHabitats == old(unusedHabitats) + [habitat]
      ensures multiset(usedHabitats) + multiset(unusedHabitats)
        == old(multiset(usedHabitats) + multiset(unusedHabitats))
    {
      var found := FindUsed(habitat);
      if !found {
        return;
      }
      EvictAll(habitat);
      MoveKeepsHabitats(usedHabitats, unusedHabitats, habitat);
      usedHabitats := Lists.RemoveFirst(usedHabitats, habitat);
      unusedHabitats := unusedHabitats + [habitat];
    }

    /**
     * `addHabitat`: a habitat among the unused ones moves to the end of the used
     * ones; any other habitat is ignored. No habitat is gained or lost.
     */
    method AddHabitat(habitat: Habitat)
      modifies this`usedHabitats, this`unusedHabitats
      ensures habitat in old(unusedHabitats) ==>
        && usedHabitats == old(usedHabitats) + [habitat]
        && unusedHabitats == Lists.RemoveFirst(old(unusedHabitats), habitat)
      ensures habitat !in old(unusedHabitats) ==>
        usedHabitats == old(usedHabitats) && unusedHabitats == old(unusedHabitats)
      ensures multiset(usedHabitats) + multiset(unusedHabitats)
        == old(multiset(usedHabitats) + multiset(unusedHabitats))
      ensures |usedHabitats| + |unusedHabitats| == old(|usedHabitats| + |unusedHabitats|)
    {
      var i := 0;
      while i < |unusedHabitats|
        invariant 0 <= i <= |unusedHabitats|
        invariant forall j :: 0 <= j < i ==> unusedHabitats[j] != habitat
      {
        if unusedHabitats[i] == habitat {
          MoveKeepsHabitats(unusedHabitats, usedHabitats, habitat);
          usedHabitats := usedHabitats + [habitat];
          unusedHabitats := Lists.RemoveFirst(unusedHabitats, habitat);
          break;
        }
        i := i + 1;
      }
    }

    /** `createHabitat`: a new habitat joins the unused ones. */
    method CreateHabitat(habitat: Habitat)
      modifies this`unusedHabitats
      ensures unusedHabitats == old(unusedHabitats) + [habitat]
    {
      unusedHabitats := unusedHabitats + [habitat];
    }

    /** `addAnimal`: a new animal joins the unused ones. */
    method AddAnimal(animal: Animal)
      modifies this`unusedAnimals
      ensures unusedAnimals == old(unusedAnimals) + [animal]
    {
      unusedAnimals := unusedAnimals + [animal];
    }
  }
}
