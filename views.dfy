/** The trainer actions that add a pokémon to a roster or remove it, and the
    battle rule, all over the store of module Models. */
module Views {
  import opened Models

  /** Why an add or remove request is refused: the trainer in the URL does not
      exist (404), the pokémon id in the body names no pokémon (400), the pair
      is already stored (400), or the pair is not stored (404). */
  datatype OwnershipError = TrainerNotFound | PokemonInvalid | AlreadyOwned | NotOwned

  /** A trainer as the add action returns it: id, columns and current roster. */
  datatype TrainerView = TrainerView(id: int, trainer: Trainer, roster: set<int>)

  /** Adds pokémon `pokemon` to the roster of trainer `trainer` and returns the
      trainer with its roster as it stands after the insert. */
  method AddPokemon(s: Store, trainer: int, pokemon: int) returns (r: Result<TrainerView, OwnershipError>)
    requires s.Valid()
    modifies s
    ensures s.Valid()
    ensures s.trainers == old(s.trainers) && s.pokemons == old(s.pokemons)
    ensures s.nextTrainerId == old(s.nextTrainerId) && s.nextPokemonId == old(s.nextPokemonId)
    ensures trainer !in s.trainers ==> r == Failure(TrainerNotFound) && s.ownerships == old(s.ownerships)
    ensures trainer in s.trainers && pokemon !in s.pokemons ==>
              r == Failure(PokemonInvalid) && s.ownerships == old(s.ownerships)
    ensures trainer in s.trainers && pokemon in s.pokemons && Ownership(trainer, pokemon) in old(s.ownerships) ==>
              r == Failure(AlreadyOwned) && s.ownerships == old(s.ownerships)
    ensures trainer in s.trainers && pokemon in s.pokemons && Ownership(trainer, pokemon) !in old(s.ownerships) ==>
              && s.ownerships == old(s.ownerships) + [Ownership(trainer, pokemon)]
              && r == Success(TrainerView(trainer, s.trainers[trainer], Roster(s.ownerships, trainer)))
              && r.value.roster == Roster(old(s.ownerships), trainer) + {pokemon}
  {
    if trainer !in s.trainers {
      return Failure(TrainerNotFound);
    }
    if pokemon !in s.pokemons {
      return Failure(PokemonInvalid);
    }
    if Ownership(trainer, pokemon) in s.ownerships {
      return Failure(AlreadyOwned);
    }
    s.ownerships := s.ownerships + [Ownership(trainer, pokemon)];
    r := Success(TrainerView(trainer, s.trainers[trainer], Roster(s.ownerships, trainer)));
  }

  /** The add action as the view runs it: the trainer is fetched with its
      roster prefetched before the insert, and the insert goes to the join
      table directly, so the response lists the roster from before the add. */
  method AddPokemonAsWritten(s: Store, trainer: int, pokemon: int) returns (r: Result<TrainerView, OwnershipError>)
    requires s.Valid()
    modifies s
    ensures s.Valid()
    ensures s.trainers == old(s.trainers) && s.pokemons == old(s.pokemons)
    ensures s.nextTrainerId == old(s.nextTrainerId) && s.nextPokemonId == old(s.nextPokemonId)
    ensures trainer !in s.trainers ==> r == Failure(TrainerNotFound) && s.ownerships == old(s.ownerships)
    ensures trainer in s.trainers && pokemon !in s.pokemons ==>
              r == Failure(PokemonInvalid) && s.ownerships == old(s.ownerships)
    ensures trainer in s.trainers && pokemon in s.pokemons && Ownership(trainer, pokemon) in old(s.ownerships) ==>
              r == Failure(AlreadyOwned) && s.ownerships == old(s.ownerships)
    ensures trainer in s.trainers && pokemon in s.pokemons && Ownership(trainer, pokemon) !in old(s.ownerships) ==>
              && s.ownerships == old(s.ownerships) + [Ownership(trainer, pokemon)]
              && r == Success(TrainerView(trainer, s.trainers[trainer], Roster(old(s.ownerships), trainer)))
              && pokemon !in r.value.roster
  {
    var prefetched := Roster(s.ownerships, trainer);
    r := AddPokemon(s, trainer, pokemon);
    if r.Success? {
      r := Success(r.value.(roster := prefetched));
    }
  }

  /** The roster prefetched before an insert lacks the pokémon just added,
      while the roster read after it has exactly that one more. */
  lemma PrefetchedRosterLacksAdded(rows: seq<Ownership>, t: int, p: int)
    requires Ownership(t, p) !in rows
    ensures p !in Roster(rows, t)
    ensures Roster(rows + [Ownership(t, p)], t) == Roster(rows, t) + {p}
  {
  }

  /** Removes pokémon `pokemon` from the roster of trainer `trainer`. */
  method RemovePokemon(s: Store, trainer: int, pokemon: int) returns (r: Outcome<OwnershipError>)
    requires s.Valid()
    modifies s
    ensures s.Valid()
    ensures s.trainers == old(s.trainers) && s.pokemons == old(s.pokemons)
    ensures s.nextTrainerId == old(s.nextTrainerId) && s.nextPokemonId == old(s.nextPokemonId)
    ensures trainer !in s.trainers ==> r == Fail(TrainerNotFound) && s.ownerships == old(s.ownerships)
    ensures trainer in s.trainers && pokemon !in s.pokemons ==>
              r == Fail(PokemonInvalid) && s.ownerships == old(s.ownerships)
    ensures trainer in s.trainers && pokemon in s.pokemons && Ownership(trainer, pokemon) !in old(s.ownerships) ==>
              r == Fail(NotOwned) && s.ownerships == old(s.ownerships)
    ensures trainer in s.trainers && pokemon in s.pokemons && Ownership(trainer, pokemon) in old(s.ownerships) ==>
              && r == Pass
              && s.ownerships == Delete(old(s.ownerships), PairQuery(trainer, pokemon))
              && |s.ownerships| == |old(s.ownerships)| - 1
              && (forall o :: o in s.ownerships <==> o in old(s.ownerships) && o != Ownership(trainer, pokemon))
  {
    if trainer !in s.trainers {
      return Fail(TrainerNotFound);
    }
    if pokemon !in s.pokemons {
      return Fail(PokemonInvalid);
    }
    if Ownership(trainer, pokemon) !in s.ownerships {
      return Fail(NotOwned);
    }
    DeletePresentPair(s.ownerships, trainer, pokemon);
    s.ownerships := Delete(s.ownerships, PairQuery(trainer, pokemon));
    r := Pass;
  }

  /** One side of a battle: the pokémon's id and its row. */
  datatype Combatant = Combatant(id: int, pokemon: Pokemon)

  /** The verdict of a battle. `Won` and `Tie` carry both combatants in
      argument order; `Won` also carries the winner. `WeightMissing` stands for
      the comparison of an absent weight, which the view does not handle. */
  datatype BattleResult =
    | NotFound
    | SameTeam
    | WeightMissing
    | Won(winner: Combatant, first: Combatant, second: Combatant)
    | Tie(first: Combatant, second: Combatant)

  /** Some trainer owns both pokémon `a` and `b`. */
  ghost predicate CommonOwner(rows: seq<Ownership>, a: int, b: int)
  {
    exists t :: Ownership(t, a) in rows && Ownership(t, b) in rows
  }

  /** The two owner sets intersect exactly when some trainer owns both pokémon. */
  lemma SharedOwners(rows: seq<Ownership>, a: int, b: int)
    ensures OwnersOf(rows, a) * OwnersOf(rows, b) != {} <==> CommonOwner(rows, a, b)
  {
    if CommonOwner(rows, a, b) {
      var t :| Ownership(t, a) in rows && Ownership(t, b) in rows;
      assert t in OwnersOf(rows, a) * OwnersOf(rows, b);
    }
  }

  function Weight(c: Combatant): int
    requires c.pokemon.weight.Some?
  {
    c.pokemon.weight.value
  }

  /** Resolves a battle between pokémon `id1` and `id2`; reads the store and changes nothing. */
  function Battle(s: Store, id1: int, id2: int): (r: BattleResult)
    reads s
    ensures r.NotFound? <==> id1 !in s.pokemons || id2 !in s.pokemons
    ensures r.SameTeam? <==> id1 in s.pokemons && id2 in s.pokemons && CommonOwner(s.ownerships, id1, id2)
    ensures r.WeightMissing? <==>
              && id1 in s.pokemons && id2 in s.pokemons && !CommonOwner(s.ownerships, id1, id2)
              && (s.pokemons[id1].weight.None? || s.pokemons[id2].weight.None?)
    ensures (r.Won? || r.Tie?) ==>
              && r.first == Combatant(id1, s.pokemons[id1]) && r.second == Combatant(id2, s.pokemons[id2])
              && r.first.pokemon.weight.Some? && r.second.pokemon.weight.Some?
    ensures r.Won? ==>
              || (r.winner == r.first && Weight(r.first) > Weight(r.second))
              || (r.winner == r.second && Weight(r.second) > Weight(r.first))
    ensures r.Tie? ==> Weight(r.first) == Weight(r.second)
  {
    if id1 !in s.pokemons || id2 !in s.pokemons then NotFound
    else
      var c1, c2 := Combatant(id1, s.pokemons[id1]), Combatant(id2, s.pokemons[id2]);
      SharedOwners(s.ownerships, id1, id2);
      if OwnersOf(s.ownerships, id1) * OwnersOf(s.ownerships, id2) != {} then SameTeam
      else if c1.pokemon.weight.None? || c2.pokemon.weight.None? then WeightMissing
      else if Weight(c1) > Weight(c2) then Won(c1, c1, c2)
      else if Weight(c2) > Weight(c1) then Won(c2, c1, c2)
      else Tie(c1, c2)
  }

  /** Swapping the arguments swaps the combatants and keeps the verdict and the winner. */
  lemma BattleArgumentOrder(s: Store, a: int, b: int)
    ensures Battle(s, a, b).NotFound? == Battle(s, b, a).NotFound?
    ensures Battle(s, a, b).SameTeam? == Battle(s, b, a).SameTeam?
    ensures Battle(s, a, b).WeightMissing? == Battle(s, b, a).WeightMissing?
    ensures Battle(s, a, b).Tie? ==> Battle(s, b, a) == Tie(Battle(s, a, b).second, Battle(s, a, b).first)
    ensures Battle(s, a, b).Won? ==>
              var r := Battle(s, a, b);
              Battle(s, b, a) == Won(r.winner, r.second, r.first)
  {
  }
}
