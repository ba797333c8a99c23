# Pokédex ownership store and battle rule

A Dafny model of the core of a small pokédex backend (a Django REST API). It stores trainers, pokémon and a join table saying which trainer owns which pokémon. On top of that store sit two trainer actions, "add pokémon" and "remove pokémon", and a battle endpoint that compares two pokémon by weight.

- `models.dfy`, module `Models`, models `api/models.py`.
  - `Trainer`, `Pokemon` and `Ownership` are the rows of the three tables.
  - `TrainerFieldsValid` and `PokemonFieldsValid` give the column bounds: names of at most 100 characters, and non-negative age, height and weight.
  - `NamesUnique` is the `unique=True` constraint on the pokémon name.
  - `NoDuplicates` is the `unique_together` constraint on (trainer, pokémon).
  - `Query` and `Delete` model an ORM filter over the join table and the deletion of the rows it matches.
  - `OwnersOf` and `Roster` are the two directions of the many-to-many relation.
  - The class `Store` holds the tables. Its `Valid()` invariant combines the column bounds, both uniqueness constraints and referential integrity: every join row names an existing trainer and an existing pokémon. Every method of the store and every method in `Views` requires and ensures `Valid()`; `Battle` is a function and holds on any store. So no state the model can reach has two pokémon with one name, a pair stored twice, or a dangling join row.
  - `DeleteTrainer` and `DeletePokemon` carry the `on_delete=CASCADE` effect.
- `views.dfy`, module `Views`, models `api/views.py`.
  - `AddPokemon` and `RemovePokemon` are methods that change the store's join table in place.
  - `AddPokemonAsWritten` is the add action exactly as the view runs it. Its response carries the roster prefetched before the insert (see "## Findings"). `AddPokemon` is the corrected action and returns the roster after the insert; the rest of the model uses it.
  - `Battle` is a function that only reads the store. Being a function, it cannot change the store.
- `scenarios.dfy`, module `Scenarios`, is a client of the two modules. Each scenario states its expected outcome as a postcondition, proved from the contracts alone.
  - `Setup` builds the fixture of `api/tests.py`: trainer Ash, Pikachu and Charizard from `setUp`, and the PikachuClone that the tie test adds.
  - `WeightScenario` mirrors the win and tie tests of `api/tests.py`: the heavier pokémon wins, and equal weights tie.
  - `SameTeamScenario` mirrors the same-team test. Like that test, it writes the two join rows directly rather than through the add action.
  - Beyond the test suite:
    - `NameConflictScenario`: a duplicate name is refused;
    - `RoundTripScenario`: a duplicate add is refused, add-then-remove restores the table, and a second remove is refused;
    - `CascadeScenario`: deleting a trainer keeps its pokémon;
    - `StaleRosterScenario`: exhibits the finding below.

The battle checks happen in the source's order:
1. either id missing gives `NotFound`;
2. otherwise a common owner gives `SameTeam`, whatever the weights;
3. otherwise a missing weight gives `WeightMissing`;
4. otherwise the strictly heavier pokémon wins (`Won`), and equal weights give `Tie`.

`Won` and `Tie` carry both combatants.

What the code does in the less obvious cases:
- A battle with an absent weight is not a tie. `p1.peso > p2.peso` raises `TypeError` on `None` (a server error), so the model has a separate `WeightMissing` outcome.
- An unknown pokémon id in the add or remove body fails request validation (400). The model calls this `PokemonInvalid`.
- A pair that is already stored gives `AlreadyOwned` (400).

## Model

| member | source | states |
|---|---|---|
| `Models.Delete` | api/views.py:79-87 | deleting the rows a filter matches keeps exactly the rows it does not match, never grows the table, and keeps a duplicate-free table duplicate-free |
| `Models.DeleteUnmatched` | api/views.py:58-87 | deleting with a filter that matches no row leaves the join table unchanged; it backs `AddThenDelete` and `DeletePresentPair` |
| `Models.DeleteAppend` | api/views.py:58-87 | deleting from a concatenation is the concatenation of the deletions |
| `Models.AddThenDelete` | api/views.py:58-87 | inserting an absent (trainer, pokémon) pair and then deleting that pair restores the original join table exactly |
| `Models.DeletePresentPair` | api/views.py:79-87 | in a duplicate-free table, deleting a stored pair removes exactly one row |
| `Models.CascadeByTrainer` | api/models.py:59 | after the cascade for a trainer, that trainer owns nothing and every other trainer's roster is unchanged |
| `Models.CascadeByPokemon` | api/models.py:60 | after the cascade for a pokémon, nobody owns it and every other pokémon's owner set is unchanged |
| `Models.OwnersOf` | api/views.py:125-126 | a trainer is in the owner set of a pokémon exactly when the join table holds that pair |
| `Models.Roster` | api/models.py:28-32 | a pokémon is in a trainer's roster exactly when the join table holds that pair |
| `Models.DistinctRows` | api/models.py:63-64 | a join table with no pair twice has as many rows as distinct pairs |
| `Models.ValidStoreFacts` | api/models.py:45-64 | in a valid store no two pokémon share a name, every pair is stored once, every owner is an existing trainer and every roster entry an existing pokémon |
| `Models.Store.Valid` | api/models.py:22-64 | the store invariant: name and age bounds, height and weight non-negative, unique pokémon names, unique pairs, and every join row pointing at an existing trainer and pokémon |
| `Models.Store.CreateTrainer` | api/models.py:17-23 | a trainer whose name is over 100 characters or whose age is negative is refused and nothing changes; otherwise it is stored under a fresh id, and the pokémon and join tables are untouched |
| `Models.Store.CreatePokemon` | api/models.py:38-48 | a pokémon out of the column bounds is refused; one whose name is already stored is refused with a conflict and nothing changes; otherwise it is stored under a fresh id and names stay unique |
| `Models.Store.DeleteTrainer` | api/models.py:59 | deleting a missing trainer fails and changes nothing; deleting a stored trainer removes it and exactly the join rows with that trainer, and leaves every pokémon intact |
| `Models.Store.DeletePokemon` | api/models.py:60 | deleting a missing pokémon fails and changes nothing; deleting a stored one removes it and exactly the join rows with that pokémon, and leaves every trainer intact |
| `Views.AddPokemonAsWritten` | api/views.py:36-61 | missing trainer, then invalid pokémon id, then an already stored pair each fail and leave the join table unchanged; otherwise exactly that pair is appended and every other row is kept, but the returned roster is the one prefetched before the insert, so it lacks the added pokémon |
| `Views.AddPokemon` | api/views.py:36-61 | the same error order and table change as the view; the returned trainer carries its roster after the insert: the old roster plus the pokémon |
| `Views.PrefetchedRosterLacksAdded` | api/views.py:51-61 | for any absent pair, the roster read before the insert lacks the pokémon, and the roster read after it is exactly that roster plus the pokémon |
| `Views.RemovePokemon` | api/views.py:64-89 | missing trainer, then invalid pokémon id, then an absent pair each fail and leave the join table unchanged; otherwise exactly that one row is removed and every other row is kept |
| `Views.SharedOwners` | api/views.py:125-129 | the owner sets of two pokémon intersect exactly when one trainer owns both |
| `Views.Battle` | api/views.py:110-157 | not-found exactly when an id is missing; otherwise same-team exactly when a trainer owns both, regardless of weight; otherwise the strictly heavier pokémon is the winner and equal weights tie; a won or tied result carries both combatants in argument order |
| `Views.BattleArgumentOrder` | api/views.py:136-147 | swapping the two ids gives the same verdict and the same winner, with the combatants swapped |
| `Scenarios.Setup` | api/tests.py:27-46 | builds the test fixture: trainer Ash, Pikachu (60) and Charizard (905) from `setUp`, and the PikachuClone (60) that tests.py:101-104 adds, under distinct fresh ids with no ownership rows |
| `Scenarios.WeightScenario` | api/tests.py:84-115 | Charizard (905) beats Pikachu (60) in either argument order, and Pikachu against its clone (both 60) is a tie |
| `Scenarios.SameTeamScenario` | api/tests.py:117-132 | with both pokémon owned by Ash (rows written directly), the battle is refused as same team |
| `Scenarios.NameConflictScenario` | api/models.py:45 | creating a second pokémon named Pikachu is refused with a name conflict |
| `Scenarios.RoundTripScenario` | api/views.py:51-87 | a second add of a pair is refused as already owned; removing the pair restores the join table; removing it again is refused as not owned |
| `Scenarios.CascadeScenario` | api/models.py:59 | two pokémon of Ash cannot battle; after Ash is deleted they can, and the heavier wins |
| `Scenarios.StaleRosterScenario` | api/views.py:41-61 | Ash owns nothing and adds Pikachu: the view as written answers with an empty roster, the corrected action with the roster containing Pikachu |

## Findings

| source | as written | input that shows it | evidently intended | confidence | as-written member | corrected member |
|---|---|---|---|---|---|---|
| api/views.py:23, 41, 58, 61 | the trainer is fetched with `prefetch_related('pokemons')` before the insert, and the insert through `PokemonsDoTreinador.objects.create` does not clear that cache, so the response lists the roster from before the add | Ash owns nothing and adds Pikachu: the response lists no pokémon | the comment at line 60 says the updated trainer is returned, so the roster should include the added pokémon | medium: follows from the framework's prefetch cache behaviour; not executed | `Views.AddPokemonAsWritten`, with `Views.PrefetchedRosterLacksAdded` and `Scenarios.StaleRosterScenario` | `Views.AddPokemon` |

## Left out

- Catalog enrichment on create is not modelled. The real flow calls an external HTTP service and prefers the official artwork over the default sprite. That is network I/O, and its code (the `Pokemon.save()` override and `PokeAPIError`) is not part of this model. `Store.CreatePokemon` instead takes photo, height and weight as parameters.
- Timestamps (`criado_em`, `atualizado_em`) are left out: the clock sets them.
- The web layer is left out:
  - routing;
  - serializers and their field validation beyond the column bounds;
  - status codes, which become error tags here;
  - the Portuguese messages, which `SameTeam`, `Won` and `Tie` stand for;
  - the `prefetch_related` optimisation;
  - `__str__`.
- Generic create, update and list from the framework's model view sets are left out. Creation and deletion are modelled at the storage level as `Store` methods. Updating a row is not modelled.
- Field rules enforced only by request or database validation are not modelled:
  - the database-dependent upper bound of `PositiveIntegerField`;
  - the 200-character limit and URL format of the photo field;
  - the rejection of blank names.
- Concurrency is left out. So are uniqueness races that only the database catches: the store is used by one caller at a time.
- Ids are drawn from a per-table counter that never reuses an id. The database's actual id sequence is not modelled.
- The name-uniqueness check compares names exactly, as the column does. The catalog's lower-casing is part of the enrichment left out above.
