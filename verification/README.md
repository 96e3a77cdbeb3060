# Zoo management game — a Dafny model

The game keeps a zoo: a balance of credits, a day counter, habitats with a fixed
climate and an ordered list of residents, and animals of a handful of species.
Each species decides whom it hunts and where it can live. A habitat admits a
newcomer only if the newcomer can live in its climate and coexists with every
resident. Each day visitors pay according to the attraction scores of the
habitats in use, and a shop sells animals and habitats drawn at random.

The repository holds two revisions that disagree on the rules. This model keeps
them apart:

- the later revision (`src/zoo/...`) is modelled by the modules `Animals`,
  `Habitats`, `Shops` and `ZooGame`;
- the earlier revision (`src/Zoo/...`) is modelled by `EarlyAnimals`,
  `EarlyHabitats` and `EarlyZoo`. In it a wild boar or a leopard also hunts its
  own kind.

Shared modules:

- `Environment` holds the climates and animal types.
- `Results` holds the `Option`/`Result`/`Outcome` wrappers that stand for Java's
  exceptions and nulls.
- `Lists` models `ArrayList.remove(Object)`, which drops the first occurrence by
  identity. No class of the game overrides `equals`, so identity is Dafny's
  reference equality.
- `Rng` stands for the random-number generator.
- `Placement` states the checked insertion of `Habitat.addAnimal` once, over
  the rules of either revision.

Pure logic is written as functions over datatypes:

- the species rules;
- the climate cost table;
- the shop's threshold tables;
- the used/unused filters.

Objects the game updates in place are classes:

- `Animal`, `Habitat` and `Zoo` in both revisions;
- `Shop`;
- the earlier revision's id counter.

Their methods carry `modifies` frames that name the exact fields they touch.
Loops in the source are `while` loops here, with their invariants:

- the resident checks of `addAnimal`;
- the score sum;
- `numVisitors`;
- the snapshot loop of `removeHabitat`;
- `refill`;
- the list walks of the earlier zoo.

Randomness is injected. Every `randomNumber(a, b)` is replaced by a raw draw
that the model folds into `[a, b]`. Every Gaussian sample is a plain parameter.
Each product the shop creates takes one `ProductDraw`.

The later `Zoo` uses a shop whose class is not among these files. The earlier
`Shop.java` stands in for it, working on the later revision's animals and
habitats.

## Model

| member | source | states |
|---|---|---|
| Animals.CoexistSymmetric | src/zoo/animal/Animal.java:267-270 | `canCoexist(a, b)` equals `canCoexist(b, a)` for every pair of animals |
| Animals.HuntingForbidsCoexistence | src/zoo/animal/Animal.java:269 | if either animal hunts the other, they cannot coexist, in either order |
| Animals.ChineseAlligatorRules | src/zoo/animal/ChineseAlligator.java:72-89 | hunts exactly the non-alligators; so coexists exactly with alligators; lives only in Temperate; cost 270, score 120, Reptile, "Chinese Alligator" |
| Animals.AfricanPygmyGooseRules | src/zoo/animal/AfricanPygmyGoose.java:26-87 | hunts nothing; lives only in Tropical; cost 10, score 15, Bird, "African Pygmy Goose" |
| Animals.RedPandaRules | src/zoo/animal/RedPanda.java:25-85 | hunts exactly the birds of size at most 15; never a non-bird; so two red pandas always coexist; lives only in Temperate; cost 90, score 80, Mammal |
| Animals.WildBoarRules | src/zoo/animal/WildBoar.java:27-83 | hunts exactly the non-boars of size at most 50 (inclusive); lives in Temperate, Tropical and Continental and not in Dry or Polar; cost 30, score 20, Mammal, "Wild Boar" |
| Animals.LeopardRules | src/zoo/animal/Leopard.java:26-83 | hunts exactly the non-leopards weighing at most 40000 g; lives anywhere but Polar; cost 100, score 30, Mammal |
| Animals.Hunts | src/zoo/animal/ChineseAlligator.java:72-74 | definition of `hunts` for the five species (also RedPanda.java:67-69, WildBoar.java:65-67, Leopard.java:65-67, AfricanPygmyGoose.java:72-74); each species' rule is stated by its `*Rules` lemma |
| Animals.CanLiveIn | src/zoo/animal/ChineseAlligator.java:79-81 | definition of `canLiveIn` for the five species; the climates each accepts are stated by the `*Rules` lemmas |
| Animals.CanCoexist | src/zoo/animal/Animal.java:267-270 | definition of `canCoexist`; symmetry and the hunting rule are stated by `CoexistSymmetric` and `HuntingForbidsCoexistence` |
| Animals.Animal.Cost | src/zoo/animal/ChineseAlligator.java:87-89 | `cost()` of each species: `CostOf`, whose values the `*Rules` lemmas state |
| Animals.RandomAge | src/zoo/animal/ChineseAlligator.java:15-43 | a random animal's age lies in [1, lifespan] for its species (14610, 2000, 4749, 2922, 6210 days), given that a draw for [a, b] lies in [a, b] |
| Animals.RandomAnimal | src/zoo/animal/Leopard.java:36-41 | `randomLeopard()` and its siblings: a new unplaced animal of the species, age in [1, lifespan], the sampled weight and size, the species' attraction score |
| Animals.SpeciesNamed | src/zoo/animal/Animal.java:82-102 | the name dispatch: a species is returned only for a name that species carries, and none for a name no species carries |
| Animals.NameRoundTrip | src/zoo/animal/Animal.java:82-102 | every species' constructor name is dispatched back to that same species |
| Animals.LoadAnimal | src/zoo/animal/Animal.java:82-102 | succeeds iff the name is one of the five; the new animal keeps the stored age, weight, size and used flag; otherwise the error is "Unknown animal: " followed by the name |
| Animals.Animal.constructor | src/zoo/animal/Animal.java:136-145 | a new animal has its species' name and attraction score and is not used |
| Animals.Animal.Loaded | src/zoo/animal/Animal.java:125-134 | a loaded animal keeps the stored `used` flag |
| Animals.Animal.SetAge | src/zoo/animal/Animal.java:185-187 | only `age` changes, to the given value |
| Animals.Animal.SetWeight | src/zoo/animal/Animal.java:192-194 | only `weight` changes |
| Animals.Animal.SetSize | src/zoo/animal/Animal.java:199-201 | only `size` changes |
| Animals.Animal.SetAttractionScore | src/zoo/animal/Animal.java:226-228 | only the attraction score changes |
| Animals.Animal.SetUsed | src/zoo/animal/Animal.java:243-255 | the flag equals the argument whether or not the database write succeeds; nothing else changes |
| Rng.RandomNumber | src/zoo/Rng.java:38-40 | a draw for the closed interval [a, b] lies in it |
| Lists.IndexOf | src/zoo/habitat/Habitat.java:78-80 | the position of the first occurrence, or the length when there is none |
| Lists.RemoveFirst | src/zoo/habitat/Habitat.java:78-80 | `remove(Object)`: an absent element leaves the list as it was; a present one shortens it by one |
| Lists.RemoveFirstMultiset | src/Zoo/Shop/Shop.java:127-129 | exactly one copy of a present element is dropped and nothing else |
| Placement.FirstConflict | src/zoo/habitat/Habitat.java:68-71 | the first resident, in list order, that the newcomer cannot coexist with; every earlier one coexists |
| Placement.Admission | src/zoo/habitat/Habitat.java:65-72 | the climate test comes first; admitted iff the climate fits and every resident coexists; otherwise the first conflicting resident is named |
| Placement.AdmitPreservesFit | src/zoo/habitat/Habitat.java:65-72 | appending an admitted newcomer keeps "every resident fits the climate and every two residents coexist" |
| Placement.RemoveAtPreservesFit | src/zoo/habitat/Habitat.java:78-80 | taking out any one resident keeps that invariant |
| Habitats.ClimateCostTable | src/zoo/habitat/Habitat.java:101-114 | cost by climate: Tropical 300, Dry 200, Temperate 150, Continental 300, Polar 600 |
| Habitats.ClimateCost | src/zoo/habitat/Habitat.java:101-114 | definition of the cost table; its values are stated by `ClimateCostTable` |
| Habitats.Habitat.Cost | src/zoo/habitat/Habitat.java:101-114 | `cost()` of a habitat depends on its climate alone, through `ClimateCost` |
| Habitats.ScoreSum | src/zoo/habitat/Habitat.java:87-93 | the residents' scores added in list order; `Habitat.GetAttractionScore` is proved equal to it |
| Habitats.Bodies | src/zoo/habitat/Habitat.java:68-71 | the rules see each resident, in order, by its species, weight and size |
| Habitats.CoexistenceIsSymmetric | src/zoo/animal/Animal.java:267-270 | the later coexistence rule is symmetric, as the placement invariant needs |
| Habitats.BodiesRemoveAt | src/zoo/habitat/Habitat.java:78-80 | dropping a resident drops its description and nothing else |
| Habitats.AppendKeepsFit | src/zoo/habitat/Habitat.java:65-72 | a habitat that satisfies the invariant still satisfies it after an admitted animal is appended |
| Habitats.RemoveKeepsFit | src/zoo/habitat/Habitat.java:78-80 | removing any animal keeps the invariant |
| Habitats.Habitat.constructor | src/zoo/habitat/Habitat.java:27-31 | a new habitat has the given name and climate, no residents, and is not used |
| Habitats.Habitat.SetName | src/zoo/habitat/Habitat.java:43-45 | only the name changes; the climate is a constant |
| Habitats.Habitat.SetUsed | src/zoo/Zoo.java:338 | only the `used` flag changes |
| Habitats.Habitat.AddAnimal | src/zoo/habitat/Habitat.java:65-73 | a wrong climate gives `IncompatibleClimate` with no change; otherwise the first conflicting resident in list order gives `IncompatibleResident` with no change; otherwise the animal is appended; succeeds iff admitted; keeps the invariant |
| Habitats.Habitat.Screen | src/zoo/habitat/Habitat.java:65-71 | the checking loop computes exactly the admission verdict |
| Habitats.Habitat.RemoveAnimal | src/zoo/habitat/Habitat.java:78-80 | the first occurrence by identity goes; an absent animal changes nothing; keeps the invariant |
| Habitats.Habitat.GetAttractionScore | src/zoo/habitat/Habitat.java:87-93 | the sum of the residents' scores; 0 for no residents |
| Shops.RandomHabitatProduct | src/Zoo/Shop/Shop.java:30-44 | a new empty, unused habitat whose climate follows the pick draw's thresholds and whose name is its climate's ("Polar Climate Habitat", ...) |
| Shops.RandomAnimalProduct | src/Zoo/Shop/Shop.java:49-59 | a new unplaced animal whose species follows the pick draw's thresholds, with the drawn age and the sampled weight and size |
| Shops.RandomProduct | src/Zoo/Shop/Shop.java:65-73 | a kind draw of 0 or 1 gives the habitat product, any other an animal product, made afresh |
| Shops.Price | src/zoo/Zoo.java:416-421 | `product.cost()`: the animal's or the habitat's own cost |
| Shops.HabitatClimate | src/Zoo/Shop/Shop.java:30-44 | the climate threshold chain; its counts are stated by `HabitatClimateWeights` |
| Shops.AnimalSpecies | src/Zoo/Shop/Shop.java:49-59 | the species threshold chain; its counts are stated by `AnimalSpeciesWeights` |
| Shops.ProductKindWeights | src/Zoo/Shop/Shop.java:65-72 | of the ten kind draws, two give a habitat and eight an animal |
| Shops.HabitatClimateTallyBelow30 | src/Zoo/Shop/Shop.java:32-35 | of the pick draws 0-29, 10 give Tropical, 20 Dry and none another climate |
| Shops.HabitatClimateTallyBelow95 | src/Zoo/Shop/Shop.java:32-39 | of the pick draws 0-94, 10 give Tropical, 20 Dry, 20 Temperate, 45 Continental and none Polar |
| Shops.HabitatClimateTally | src/Zoo/Shop/Shop.java:30-44 | the count of pick draws giving each climate, over all 100 |
| Shops.HabitatClimateWeights | src/Zoo/Shop/Shop.java:30-44 | of the 100 pick draws, 10 give Tropical, 20 Dry, 20 Temperate, 45 Continental and 5 Polar; the table is total |
| Shops.AnimalSpeciesTallyBelow15 | src/Zoo/Shop/Shop.java:51-54 | of the pick draws 0-14, 5 give a leopard, 10 a red panda and none another species |
| Shops.AnimalSpeciesTally | src/Zoo/Shop/Shop.java:49-59 | the count of pick draws giving each species, over all 100 |
| Shops.AnimalSpeciesWeights | src/Zoo/Shop/Shop.java:49-59 | of the 100 pick draws, 5 give a leopard, 10 a red panda and 85 a wild boar; none another species |
| Shops.Shop.constructor | src/Zoo/Shop/Shop.java:96-98 | a new shop has no products |
| Shops.Shop.Refill | src/Zoo/Shop/Shop.java:104-109 | afterwards exactly `shopSize` (10) products, product i made afresh from draw i, no object twice and none from before |
| Shops.Shop.RemoveProduct | src/Zoo/Shop/Shop.java:127-129 | the first occurrence by identity goes, the others stay in order; an absent product changes nothing |
| Shops.ShopHolder.GetInstance | src/Zoo/Shop/Shop.java:88-94 | the first call creates the shop and refills it once; later calls return the same shop with its products untouched |
| ZooGame.UsedOf | src/zoo/Zoo.java:236-238 | exactly the used habitats of the list |
| ZooGame.UnusedOf | src/zoo/Zoo.java:243-245 | exactly the habitats not in use |
| ZooGame.UnusedAnimalsOf | src/zoo/Zoo.java:250-252 | exactly the animals whose `used` flag is false |
| ZooGame.UsedUnusedPartition | src/zoo/Zoo.java:236-245 | the used and unused habitats together are the list, each habitat counted once |
| ZooGame.UsedUnusedDisjoint | src/zoo/Zoo.java:236-245 | no habitat is both used and unused |
| ZooGame.UsedUnusedInOrder | src/zoo/Zoo.java:236-245 | both filters keep the habitats in list order |
| ZooGame.UnusedAnimalsInOrder | src/zoo/Zoo.java:250-252 | the unused animals keep their list order |
| ZooGame.Zoo.constructor | src/zoo/Zoo.java:143-168 | a complete load gives the zoo exactly the saved balance, day, habitats and animals; a load that throws part way leaves 100 credits and day 1, keeps the habitats and animals already read (with any placements already made in them), and appends one new, empty, unused "Temperate Climate Habitat" after them |
| ZooGame.Zoo.SetBalance | src/zoo/Zoo.java:193-205 | the balance takes the value whether or not the database write succeeds |
| ZooGame.Zoo.SetCurrentDay | src/zoo/Zoo.java:219-231 | the day takes the value whether or not the database write succeeds |
| ZooGame.Zoo.RemoveAnimalFromHabitat | src/zoo/Zoo.java:260-285 | when the habitat is registered and used and the animal is registered and resident, the animal leaves the habitat and is no longer used; otherwise nothing changes |
| ZooGame.Zoo.AddAnimalToHabitat | src/zoo/Zoo.java:293-316 | a no-op without error unless the four guards hold (the animal's own flag is not one); then succeeds iff the habitat admits it, appending it and flagging it used; on failure nothing changes; the habitat invariant is kept |
| ZooGame.Zoo.RemoveHabitat | src/zoo/Zoo.java:325-339 | a registered habitat ends with no residents and not used, and every former resident is not used; an unregistered one is left alone; no other animal field changes |
| ZooGame.Zoo.ReleaseFirst | src/zoo/Zoo.java:334-337 | one pass of that loop: the first resident leaves and is no longer used |
| ZooGame.Zoo.AddHabitat | src/zoo/Zoo.java:346-352 | only a registered habitat becomes used; any other is untouched |
| ZooGame.Zoo.AddNewHabitat | src/zoo/Zoo.java:359-367 | the habitat is appended to the owned ones, with no rollback on a failed save |
| ZooGame.Zoo.AddNewAnimal | src/zoo/Zoo.java:374-382 | the animal is appended to the owned ones, with no rollback on a failed save |
| ZooGame.Zoo.NumVisitors | src/zoo/Zoo.java:390-398 | the loop adds up exactly the attraction scores of the used habitats; no visitors below a total of 1, the sample otherwise |
| ZooGame.UsedScore | src/zoo/Zoo.java:391-394 | the attraction scores of the used habitats added in list order; `NumVisitors` is proved to compute it |
| ZooGame.Visitors | src/zoo/Zoo.java:395-397 | no visitors below a total score of 1, the sample otherwise; `NumVisitors` and `NextDay` are stated through it |
| ZooGame.Zoo.NextDay | src/zoo/Zoo.java:405-413 | the day goes up by exactly 1; the balance grows by 3 times the visitors the used habitats draw (unchanged when their score is below 1); the shop is refilled iff the new day is a multiple of 7 |
| ZooGame.Zoo.PurchaseProduct | src/zoo/Zoo.java:415-428 | fails with no change iff the price exceeds the balance (a price equal to the balance succeeds); otherwise the balance drops by exactly the price, the product leaves the shop and is appended to the animals or the habitats according to its kind |
| EarlyAnimals.CoexistSymmetric | src/Zoo/Animal/Animal.java:133-136 | `canCoexist` is symmetric |
| EarlyAnimals.HuntingForbidsCoexistence | src/Zoo/Animal/Animal.java:135 | if either animal hunts the other, they cannot coexist |
| EarlyAnimals.AfricanPygmyGooseRules | src/Zoo/Animal/AfricanPygmyGoose.java:16-83 | hunts nothing; lives only in Tropical; Bird, "African Pygmy Goose"; lifespan 2000, attraction score 15, cost 10 |
| EarlyAnimals.RedPandaRules | src/Zoo/Animal/RedPanda.java:10-36 | hunts exactly the birds (the goose) of size at most 15 and never a non-bird; lives only in Temperate; Mammal, "Red Panda" |
| EarlyAnimals.WildBoarRules | src/Zoo/Animal/WildBoar.java:9-32 | hunts exactly the animals of size at most 50, whatever their type or weight, so also another boar; lives in Temperate, Tropical and Continental only; Mammal, "Wild Board" |
| EarlyAnimals.LeopardRules | src/Zoo/Animal/Leopard.java:11-34 | hunts exactly the animals weighing at most 40000 g, so two such leopards cannot coexist; lives anywhere but Polar; Mammal, "Leopard" |
| EarlyAnimals.Hunts | src/Zoo/Animal/WildBoar.java:22-24 | definition of `hunts` for the four earlier species (also RedPanda.java:26-28, Leopard.java:24-26, AfricanPygmyGoose.java:68-70); each rule is stated by its `*Rules` lemma |
| EarlyAnimals.CanLiveIn | src/Zoo/Animal/WildBoar.java:30-32 | definition of `canLiveIn` for the four earlier species; stated by the `*Rules` lemmas |
| EarlyAnimals.CanCoexist | src/Zoo/Animal/Animal.java:133-136 | definition of `canCoexist`; stated by `CoexistSymmetric` and `HuntingForbidsCoexistence` |
| EarlyAnimals.RandomGooseAge | src/Zoo/Animal/AfricanPygmyGoose.java:16-39 | a random goose's age lies in [1, 2000] |
| EarlyAnimals.RandomGoose | src/Zoo/Animal/AfricanPygmyGoose.java:37-42 | a new goose with the next id, an age in [1, 2000] and the sampled weight and size |
| EarlyAnimals.IdCounter.constructor | src/Zoo/Animal/Animal.java:12 | the counter starts at 1 |
| EarlyAnimals.IdCounter.Take | src/Zoo/Animal/Animal.java:46 | hands out the current value and advances it by one; the value exceeds every id handed out before |
| EarlyAnimals.IssuedDistinct | src/Zoo/Animal/Animal.java:12-46 | the ids handed out are pairwise distinct |
| EarlyAnimals.Animal.constructor | src/Zoo/Animal/Animal.java:45-52 | a new animal takes the next id and advances the counter; name and species as given |
| EarlyAnimals.Animal.SetAge | src/Zoo/Animal/Animal.java:92-94 | only `age` changes; id and name are constants |
| EarlyAnimals.Animal.SetWeight | src/Zoo/Animal/Animal.java:99-101 | only `weight` changes |
| EarlyAnimals.Animal.SetSize | src/Zoo/Animal/Animal.java:106-108 | only `size` changes |
| EarlyHabitats.Bodies | src/Zoo/Habitat/Habitat.java:67-70 | the rules see each resident, in order, by its species, weight and size |
| EarlyHabitats.CoexistenceIsSymmetric | src/Zoo/Animal/Animal.java:133-136 | the earlier coexistence rule is symmetric |
| EarlyHabitats.BodiesRemoveAt | src/Zoo/Habitat/Habitat.java:77-79 | dropping a resident drops its description and nothing else |
| EarlyHabitats.AppendKeepsFit | src/Zoo/Habitat/Habitat.java:64-72 | an admitted append keeps the habitat invariant |
| EarlyHabitats.RemoveKeepsFit | src/Zoo/Habitat/Habitat.java:77-79 | a removal keeps the habitat invariant |
| EarlyHabitats.Habitat.constructor | src/Zoo/Habitat/Habitat.java:26-30 | the given name and climate, no residents |
| EarlyHabitats.Habitat.SetName | src/Zoo/Habitat/Habitat.java:42-44 | only the name changes; the climate is a constant |
| EarlyHabitats.Habitat.AddAnimal | src/Zoo/Habitat/Habitat.java:64-72 | a wrong climate fails first with no change; then the first conflicting resident in order fails with no change; otherwise the animal is appended; succeeds iff admitted; keeps the invariant |
| EarlyHabitats.Habitat.Screen | src/Zoo/Habitat/Habitat.java:64-70 | the checking loop computes exactly the admission verdict |
| EarlyHabitats.Habitat.RemoveAnimal | src/Zoo/Habitat/Habitat.java:77-79 | the first occurrence goes; an absent animal changes nothing; keeps the invariant |
| EarlyZoo.Zoo.constructor | src/Zoo/Zoo.java:44-50 | balance 100, day 0, three empty lists |
| EarlyZoo.Zoo.RemoveAnimalFromHabitat | src/Zoo/Zoo.java:103-111 | a no-op unless the habitat is among the used ones; then the animal leaves it and is appended to the unused animals even if it was not a resident |
| EarlyZoo.Zoo.FindUsed | src/Zoo/Zoo.java:120-121 | the walk over the used habitats finds the habitat iff it is among them |
| EarlyZoo.ForEachRemoving | src/Zoo/Zoo.java:122-125 | Java's fail-fast list iterator under a loop body that removes the element just visited: `hasNext` compares the cursor with the current length, `next` throws once the list was modified; its outcome is stated by `EvictAsWritten` |
| EarlyZoo.EvictAsWritten | src/Zoo/Zoo.java:122-125 | the eviction loop as written: no residents, nothing happens; two residents, only the first leaves and the loop ends quietly; one or three or more, the first leaves and the iterator then throws |
| EarlyZoo.TwoResidentsOneLeftBehind | src/Zoo/Zoo.java:122-125 | counterexample: with two residents the second stays in the habitat and no exception is raised |
| EarlyZoo.Zoo.EvictIterating | src/Zoo/Zoo.java:122-125 | the loop, run step by step, does exactly what `EvictAsWritten` says |
| EarlyZoo.Zoo.RemoveHabitatAsWritten | src/Zoo/Zoo.java:119-131 | as written: an unknown habitat changes nothing; otherwise the residents move as `EvictAsWritten` says, and the habitat stays used when the iterator throws, or moves to the end of the unused list otherwise |
| EarlyZoo.Zoo.EvictFirst | src/Zoo/Zoo.java:123-124 | one eviction: the first resident leaves and is appended to the unused animals |
| EarlyZoo.Zoo.EvictAll | src/Zoo/Zoo.java:122-125 | corrected loop over a copy: every resident leaves, appended to the unused animals in order |
| EarlyZoo.Zoo.RemoveHabitat | src/Zoo/Zoo.java:119-131 | corrected: a no-op for a habitat not among the used ones; otherwise it ends empty, its residents join the unused animals in order, and it moves to the end of the unused list; no habitat is lost or gained |
| EarlyZoo.MoveKeepsHabitats | src/Zoo/Zoo.java:138-146 | moving a habitat from one list to the end of the other keeps the multiset of all habitats |
| EarlyZoo.Zoo.AddHabitat | src/Zoo/Zoo.java:138-146 | a habitat among the unused ones moves to the end of the used ones; otherwise nothing changes; no habitat is lost or gained and the total count is unchanged |
| EarlyZoo.Zoo.CreateHabitat | src/Zoo/Zoo.java:153-155 | the habitat is appended to the unused habitats only |
| EarlyZoo.Zoo.AddAnimal | src/Zoo/Zoo.java:162-164 | the animal is appended to the unused animals only |

None of the earlier `Zoo` methods names `balance` or `currentDay` in its `modifies`
clause, so no operation of that revision can change them.

## Left out

- SQL persistence: loading the zoo, its habitats, animals and associations, and every save. The setters that write through to the database are plain field updates, and a failed write is not rolled back because the code does not roll back. The load's result is passed to the constructor as a `LoadOutcome`: the whole `SavedState`, or the habitats and animals already read when an exception stopped it.
- Logging and every `logMessage` call: file output only.
- The Gaussian weight and size of random animals, and the Gaussian visitor count of `numVisitors`: these are injected integer or real samples. The visitor count can be negative, so nothing claims the balance never falls.
- `nextDay` draws the visitor count twice and logs the first draw. Only the second draw, which reaches the balance, is modelled.
- `Rng.RandomNumber`: only its range is modelled, not the distribution of `java.util.Random`. The shop's weights are stated as counts over the draw range.
- Object ids: the later revision's string ids and the habitat id the later `Zoo` reads are object identity here. The earlier revision's integer counter is modelled.
- Java `int` arithmetic: balance, day and score sums are unbounded integers, and 32-bit wrap-around is not modelled. `size` is a `float` compared only with `<=` against integer constants, so it is a `real`.
- The command-line menus and the program's entry point: console input and output.
- The lazily created singletons of the zoo, the logger, the generator and the database: an explicitly built object stands in for each. The shop singleton is modelled by `ShopHolder`.
- Descriptions: string constants only.
- `shopSize` is a mutable public static. It is the constant 10 here because nothing in these files assigns it.
- The enum files `AnimalType.java` and `Climate.java` are not part of this model. Their values are the datatypes in `Environment`.
- The shop class of the later revision is not part of this model. The earlier `Shop.java` stands in for it, built over the later animals and habitats.
- The earlier goose passes six arguments to a five-argument base constructor. It is modelled as the Bird its type argument names, with the goose constants `GooseLifeSpan`, `GooseCost` and `GooseAttractionScore`.
- `ZooGame.Zoo.PurchaseProduct`: the bought animal or habitat is appended with whatever `used` flag it already has, because the code does not reset it. Products fresh from a refill are unused.
- `ZooGame.Zoo.AddAnimalToHabitat`: the animal's own `used` flag is not among its guards, because the code does not check it.
- `ZooGame.Zoo.UsedHabitats`, `ZooGame.Zoo.UnusedHabitats` and `ZooGame.Zoo.UnusedAnimals` are the stream filters. Their properties are stated on `UsedOf`, `UnusedOf` and `UnusedAnimalsOf`.

## Findings

| source | as written | input that shows it | evidently intended | confidence | as-written member | corrected member |
|---|---|---|---|---|---|---|
| src/Zoo/Zoo.java:122-125 | the for-each over a habitat's residents removes each visited resident from that same list, so the fail-fast iterator stops or throws after the first one | a used habitat holding two animals a and b: a is evicted, the loop ends, and the habitat moves to the unused list still holding b (one or three or more residents throw `ConcurrentModificationException` instead) | every resident leaves the habitat and joins the unused animals, then the habitat moves to the unused list | not executed | EarlyZoo.TwoResidentsOneLeftBehind | EarlyZoo.Zoo.RemoveHabitat |
