/**
 * The checked insertion both revisions of `Habitat.addAnimal` perform, stated
 * once over an abstract animal description `B`. Each revision instantiates it
 * with its own climate and coexistence rules, so the two rule sets never meet.
 */
module Placement {

  /** Why a newcomer was turned away, or that it was let in. */
  datatype Verdict = Admit | WrongClimate | ConflictAt(index: nat)

  ghost predicate Symmetric<B(!new)>(coexist: (B, B) -> bool)
  {
    forall a, b :: coexist(a, b) == coexist(b, a)
  }

  /** The habitat invariant: every resident fits the climate and every two residents coexist. */
  predicate Fits<B>(livesHere: B -> bool, coexist: (B, B) -> bool, residents: seq<B>)
  {
    && (forall i :: 0 <= i < |residents| ==> livesHere(residents[i]))
    && (forall i, j :: 0 <= i < |residents| && 0 <= j < |residents| && i != j ==>
          coexist(residents[i], residents[j]))
  }

  /** The position of the first resident, in list order, that the newcomer cannot coexist with. */
  function FirstConflict<B>(coexist: (B, B) -> bool, residents: seq<B>, newcomer: B): (k: nat)
    ensures k <= |residents|
    ensures k < |residents| ==> !coexist(newcomer, residents[k])
    ensures forall j :: 0 <= j < k ==> coexist(newcomer, residents[j])
  {
    if residents == [] then 0
    else if !coexist(newcomer, residents[0]) then 0
    else 1 + FirstConflict(coexist, residents[1..], newcomer)
  }

  /** The climate test first, then the residents in list order; the first failure wins. */
  function Admission<B>(livesHere: B -> bool, coexist: (B, B) -> bool, residents: seq<B>, newcomer: B): (v: Verdict)
    ensures v == WrongClimate <==> !livesHere(newcomer)
    ensures v == Admit <==>
      livesHere(newcomer) && forall j :: 0 <= j < |residents| ==> coexist(newcomer, residents[j])
    ensures v.ConflictAt? ==>
      && livesHere(newcomer)
      && v.index < |residents|
      && !coexist(newcomer, residents[v.index])
      && forall j :: 0 <= j < v.index ==> coexist(newcomer, residents[j])
  {
    if !livesHere(newcomer) then WrongClimate
    else
      var k := FirstConflict(coexist, residents, newcomer);
      if k == |residents| then Admit else ConflictAt(k)
  }

  /** Appending an admitted newcomer keeps the habitat invariant. */
  lemma AdmitPreservesFit<B(!new)>(livesHere: B -> bool, coexist: (B, B) -> bool, residents: seq<B>, newcomer: B)
    requires Symmetric(coexist)
    requires Fits(livesHere, coexist, residents)
    requires Admission(livesHere, coexist, residents, newcomer) == Admit
    ensures Fits(livesHere, coexist, residents + [newcomer])
  {
    var after := residents + [newcomer];
    forall i, j | 0 <= i < |after| && 0 <= j < |after| && i != j
      ensures coexist(after[i], after[j])
    {
      if j == |residents| {
        assert coexist(newcomer, residents[i]);
      } else if i == |residents| {
        assert coexist(newcomer, residents[j]);
      }
    }
  }

  /** Taking any one resident out keeps the habitat invariant. */
  lemma RemoveAtPreservesFit<B>(livesHere: B -> bool, coexist: (B, B) -> bool, residents: seq<B>, k: nat)
    requires Fits(livesHere, coexist, residents)
    requires k < |residents|
    ensures Fits(livesHere, coexist, residents[..k] + residents[k + 1..])
  {
    var after := residents[..k] + residents[k + 1..];
    forall i | 0 <= i < |after|
      ensures after[i] == residents[if i < k then i else i + 1]
    {
    }
  }
}
