/**
 * The earlier revision's habitat (package `Zoo.Habitat`): the same checked
 * container as the later one, applying the earlier species rules, with no
 * `used` flag, score or price.
 */
module EarlyHabitats {
  import opened Environment
  import opened EarlyAnimals
  import opened Results
  import Lists
  import Placement

  /** The two ways `addAnimal` can throw `InvalidHabitatException`. */
  datatype HabitatError =
    | IncompatibleClimate(animal: Animal, climate: Climate)
    | IncompatibleResident(animal: Animal, resident: Animal)

  /** What the hunting rules see of each resident, in list order. */
  function Bodies(s: seq<Animal>): (r: seq<Body>)
    reads s
    ensures |r| == |s|
    ensures forall i :: 0 <= i < |s| ==> r[i] == s[i].AsBody()
  {
    if s == [] then [] else [s[0].AsBody()] + Bodies(s[1..])
  }

  /** The climate test of a habitat, as a predicate on what an animal is. */
  function LivesIn(c: Climate): Body -> bool
  {
    (b: Body) => CanLiveIn(b.species, c)
  }

  /** What `addAnimal` decides for `newcomer` against a habitat of climate `c` holding `residents`. */
  function Verdict(c: Climate, residents: seq<Animal>, newcomer: Animal): Placement.Verdict
    reads residents, newcomer
  {
    Placement.Admission(LivesIn(c), CanCoexist, Bodies(residents), newcomer.AsBody())
  }

  lemma BodiesRemoveAt(s: seq<Animal>, k: nat)
    requires k < |s|
    ensures Bodies(s[..k] + s[k + 1..]) == Bodies(s)[..k] + Bodies(s)[k + 1..]
  {
    var l, r := Bodies(s[..k] + s[k + 1..]), Bodies(s)[..k] + Bodies(s)[k + 1..];
    assert |l| == |r|;
    forall i | 0 <= i < |l| ensures l[i] == r[i] {
      if i < k {
        assert (s[..k] + s[k + 1..])[i] == s[i];
      } else {
        assert (s[..k] + s[k + 1..])[i] == s[i + 1];
      }
    }
  }

  lemma CoexistenceIsSymmetric()
    ensures Placement.Symmetric(CanCoexist)
  {
    forall a: Body, b: Body ensures CanCoexist(a, b) == CanCoexist(b, a) {
      CoexistSymmetric(a, b);
    }
  }

  /** Appending an admitted animal keeps every resident fitting the climate and the others. */
  lemma AppendKeepsFit(c: Climate, s: seq<Animal>, x: Animal)
    requires Placement.Fits(LivesIn(c), CanCoexist, Bodies(s))
    requires Verdict(c, s, x) == Placement.Admit
    ensures Placement.Fits(LivesIn(c), CanCoexist, Bodies(s + [x]))
  {
    assert Bodies(s + [x]) == Bodies(s) + [x.AsBody()];
    CoexistenceIsSymmetric();
    Placement.AdmitPreservesFit(LivesIn(c), CanCoexist, Bodies(s), x.AsBody());
  }

  /** Removing an animal keeps every remaining resident fitting the climate and the others. */
  lemma RemoveKeepsFit(c: Climate, s: seq<Animal>, x: Animal)
    requires Placement.Fits(LivesIn(c), CanCoexist, Bodies(s))
    ensures Placement.Fits(LivesIn(c), CanCoexist, Bodies(Lists.RemoveFirst(s, x)))
  {
    if x in s {
      var k := Lists.IndexOf(s, x);
      BodiesRemoveAt(s, k);
      assert Bodies(Lists.RemoveFirst(s, x)) == Bodies(s)[..k] + Bodies(s)[k + 1..];
      Placement.RemoveAtPreservesFit(LivesIn(c), CanCoexist, Bodies(s), k);
    }
  }

  class Habitat {
    var name: string
    const climate: Climate
    var animals: seq<Animal>

    constructor (name: string, climate: Climate)
      ensures this.name == name && this.climate == climate && animals == []
    {
      this.name := name;
      this.climate := climate;
      this.animals := [];
    }

    /** Every resident can live in the climate and every two residents coexist. */
    ghost predicate Valid()
      reads this, animals
    {
      Placement.Fits(LivesIn(climate), CanCoexist, Bodies(animals))
    }

    method SetName(name: string)
      modifies this`name
      ensures this.name == name
    {
      this.name := name;
    }

    /**
     * `addAnimal`: the climate test first, then each resident in list order; the
     * first failure is reported and nothing changes; otherwise the newcomer is appended.
     */
    method AddAnimal(animal: Animal) returns (r: Outcome<HabitatError>)
      modifies this`animals
      ensures var v := old(Verdict(climate, animals, animal));
        && (v == Placement.Admit ==> r == Pass && animals == old(animals) + [animal])
        && (v == Placement.WrongClimate ==>
              r == Fail(IncompatibleClimate(animal, climate)) && animals == old(animals))
        && (v.ConflictAt? ==>
              && v.index < |old(animals)|
              && r == Fail(IncompatibleResident(animal, old(animals)[v.index]))
              && animals == old(animals))
      ensures r.Pass? <==> old(Verdict(climate, animals, animal)) == Placement.Admit
      ensures old(Valid()) ==> Valid()
    {
      var v := Screen(animal);
      if v == Placement.WrongClimate {
        return Fail(IncompatibleClimate(animal, climate));
      } else if v.ConflictAt? {
        return Fail(IncompatibleResident(animal, animals[v.index]));
      }
      ghost var before := animals;
      animals := animals + [animal];
      assert Bodies(before) == old(Bodies(before));
      if old(Valid()) {
        AppendKeepsFit(climate, before, animal);
      }
      r := Pass;
    }

    /** The checks of `addAnimal`: the climate test, then each resident in list order. */
    method Screen(animal: Animal) returns (v: Placement.Verdict)
      ensures v == Verdict(climate, animals, animal)
    {
      if !CanLiveIn(animal.species, climate) {
        return Placement.WrongClimate;
      }
      var i := 0;
      while i < |animals|
        invariant 0 <= i <= |animals|
        invariant forall j :: 0 <= j < i ==> CanCoexist(animal.AsBody(), animals[j].AsBody())
      {
        if !CanCoexist(animal.AsBody(), animals[i].AsBody()) {
          return Placement.ConflictAt(i);
        }
        i := i + 1;
      }
      v := Placement.Admit;
    }

    /** `removeAnimal`: drops the first occurrence of this very animal; absent, nothing changes. */
    method RemoveAnimal(animal: Animal)
      modifies this`animals
      ensures animals == Lists.RemoveFirst(old(animals), animal)
      ensures animal !in old(animals) ==> animals == old(animals)
      ensures old(Valid()) ==> Valid()
    {
      ghost var before := animals;
      animals := Lists.RemoveFirst(animals, animal);
      assert Bodies(before) == old(Bodies(before));
      if old(Valid()) {
        RemoveKeepsFit(climate, before, animal);
      }
    }
  }
}
