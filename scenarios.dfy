/** The fixture and the battle tests of the API test suite, and a few further
    situations, as clients of the store and the views: each postcondition
    follows from their contracts alone. */
module Scenarios {
  import opened Models
  import opened Views

  const Pikachu := Pokemon("Pikachu", Some("http://pokeapi.co/pikachu-official.png"), Some(4), Some(60))
  const Charizard := Pokemon("Charizard", Some("http://pokeapi.co/charizard.png"), Some(17), Some(905))
  const PikachuClone := Pokemon("PikachuClone", Some("http://pokeapi.co/pikachu-official.png"), Some(4), Some(60))

  /** Trainer Ash and three pokémon, with no ownership rows yet. */
  method Setup() returns (s: Store, ash: int, pikachu: int, charizard: int, clone: int)
    ensures fresh(s) && s.Valid()
    ensures s.trainers == map[ash := Trainer("Ash", 10)]
    ensures s.pokemons == map[pikachu := Pikachu, charizard := Charizard, clone := PikachuClone]
    ensures pikachu != charizard && pikachu != clone && charizard != clone
    ensures s.ownerships == []
  {
    s := new Store();
    var t := s.CreateTrainer("Ash", 10);
    var p1 := s.CreatePokemon(Pikachu.name, Pikachu.photo, Pikachu.height, Pikachu.weight);
    var p2 := s.CreatePokemon(Charizard.name, Charizard.photo, Charizard.height, Charizard.weight);
    var p3 := s.CreatePokemon(PikachuClone.name, PikachuClone.photo, PikachuClone.height, PikachuClone.weight);
    ash, pikachu, charizard, clone := t.value, p1.value, p2.value, p3.value;
  }

  /** The heavier pokémon wins, in either argument order; equal weights tie. */
  method WeightScenario() returns (heavier: BattleResult, lighter: BattleResult, tie: BattleResult)
    ensures heavier.Won? && heavier.winner.pokemon == Charizard
    ensures lighter.Won? && lighter.winner.pokemon == Charizard
    ensures tie.Tie?
  {
    var s, ash, pikachu, charizard, clone := Setup();
    heavier := Battle(s, charizard, pikachu);
    lighter := Battle(s, pikachu, charizard);
    tie := Battle(s, pikachu, clone);
  }

  /** Two pokémon with a common trainer cannot battle, whatever their weights;
      the rows are written to the join table directly. */
  method SameTeamScenario() returns (verdict: BattleResult)
    ensures verdict == SameTeam
  {
    var s, ash, pikachu, charizard, clone := Setup();
    s.ownerships := s.ownerships + [Ownership(ash, pikachu)];
    s.ownerships := s.ownerships + [Ownership(ash, charizard)];
    verdict := Battle(s, pikachu, charizard);
  }

  /** A second pokémon with a name already stored is refused. */
  method NameConflictScenario() returns (twin: Result<int, StoreError>)
    ensures twin == Failure(NameConflict)
  {
    var s, ash, pikachu, charizard, clone := Setup();
    assert s.pokemons[pikachu].name == "Pikachu";
    twin := s.CreatePokemon("Pikachu", None, None, None);
  }

  /** A second add of one pair is refused; removing a pair just added restores
      the join table, and removing it again is refused. */
  method RoundTripScenario() returns (again: Result<TrainerView, OwnershipError>, restored: bool, twice: Outcome<OwnershipError>)
    ensures again == Failure(AlreadyOwned)
    ensures restored
    ensures twice == Fail(NotOwned)
  {
    var s, ash, pikachu, charizard, clone := Setup();
    var before := s.ownerships;
    var added := AddPokemon(s, ash, clone);
    again := AddPokemon(s, ash, clone);
    var removed := RemovePokemon(s, ash, clone);
    AddThenDelete(before, ash, clone);
    restored := s.ownerships == before;
    twice := RemovePokemon(s, ash, clone);
  }

  /** Deleting a trainer drops its rows and keeps its pokémon, which may then battle. */
  method CascadeScenario() returns (before: BattleResult, after: BattleResult)
    ensures before == SameTeam
    ensures after.Won? && after.winner.pokemon == Charizard
  {
    var s, ash, pikachu, charizard, clone := Setup();
    var a1 := AddPokemon(s, ash, pikachu);
    var a2 := AddPokemon(s, ash, charizard);
    assert Ownership(ash, pikachu) in s.ownerships && Ownership(ash, charizard) in s.ownerships;
    before := Battle(s, pikachu, charizard);
    var deleted := s.DeleteTrainer(ash);
    assert s.ownerships == [];
    after := Battle(s, pikachu, charizard);
  }

  /** Ash owns nothing and adds Pikachu: the view as written answers with an
      empty roster, the corrected action with the roster holding Pikachu. */
  method StaleRosterScenario() returns (asWritten: set<int>, corrected: set<int>, pikachu: int)
    ensures asWritten == {}
    ensures corrected == {pikachu}
  {
    var s, ash, p, charizard, clone := Setup();
    var r := AddPokemonAsWritten(s, ash, p);
    asWritten := r.value.roster;
    var s2, ash2, charizard2, clone2;
    s2, ash2, pikachu, charizard2, clone2 := Setup();
    var r2 := AddPokemon(s2, ash2, pikachu);
    corrected := r2.value.roster;
  }
}
