/** The schema of the pokédex store: trainers, pokémon and the ownership join
    table, with the column bounds and uniqueness constraints the models declare,
    and the store that keeps them (creation and cascading deletion). */
module Models {

  datatype Option<+T> = None | Some(value: T)

  datatype Result<+T, +E> = Success(value: T) | Failure(error: E)

  datatype Outcome<+E> = Pass | Fail(error: E)

  /** Longest name a `CharField(max_length=100)` column holds. */
  const MaxNameLength := 100

  /** A trainer row; its surrogate id is the key it is stored under. */
  datatype Trainer = Trainer(name: string, age: int)

  /** A pokémon row; photo, height and weight are nullable columns. */
  datatype Pokemon = Pokemon(name: string, photo: Option<string>, height: Option<int>, weight: Option<int>)

  /** A row of the join table: trainer `trainer` owns pokémon `pokemon`. */
  datatype Ownership = Ownership(trainer: int, pokemon: int)

  /** A nullable `PositiveIntegerField`: absent, or a non-negative integer. */
  predicate NonNegative(v: Option<int>)
  {
    v.None? || v.value >= 0
  }

  predicate TrainerFieldsValid(t: Trainer)
  {
    |t.name| <= MaxNameLength && t.age >= 0
  }

  predicate PokemonFieldsValid(p: Pokemon)
  {
    |p.name| <= MaxNameLength && NonNegative(p.height) && NonNegative(p.weight)
  }

  /** The `unique=True` constraint on the pokémon name column. */
  ghost predicate NamesUnique(pokemons: map<int, Pokemon>)
  {
    forall a, b :: a in pokemons && b in pokemons && pokemons[a].name == pokemons[b].name ==> a == b
  }

  predicate NameTaken(pokemons: map<int, Pokemon>, name: string)
  {
    exists id :: id in pokemons && pokemons[id].name == name
  }

  /** The `unique_together` constraint on (trainer, pokémon): no row twice. */
  ghost predicate NoDuplicates(rows: seq<Ownership>)
  {
    forall i, j :: 0 <= i < j < |rows| ==> rows[i] != rows[j]
  }

  /** A filter over the join table by trainer, by pokémon, or by both. */
  datatype Query = Query(trainer: Option<int>, pokemon: Option<int>)

  function PairQuery(trainer: int, pokemon: int): Query
  {
    Query(Some(trainer), Some(pokemon))
  }

  predicate Matches(q: Query, o: Ownership)
  {
    (q.trainer.None? || q.trainer.value == o.trainer) &&
    (q.pokemon.None? || q.pokemon.value == o.pokemon)
  }

  /** The table after deleting every row the query matches; the remaining
      rows keep their order. */
  function Delete(rows: seq<Ownership>, q: Query): (r: seq<Ownership>)
    ensures forall o :: o in r <==> o in rows && !Matches(q, o)
    ensures |r| <= |rows|
    ensures NoDuplicates(rows) ==> NoDuplicates(r)
  {
    if rows == [] then []
    else if Matches(q, rows[0]) then Delete(rows[1..], q)
    else
      assert NoDuplicates(rows) ==> NoDuplicates(rows[1..]) && rows[0] !in rows[1..];
      [rows[0]] + Delete(rows[1..], q)
  }

  /** The ids of the trainers that own pokémon `p`. */
  function OwnersOf(rows: seq<Ownership>, p: int): (r: set<int>)
    ensures forall t :: t in r <==> Ownership(t, p) in rows
  {
    set o | o in rows && o.pokemon == p :: o.trainer
  }

  /** The ids of the pokémon that trainer `t` owns (its roster). */
  function Roster(rows: seq<Ownership>, t: int): (r: set<int>)
    ensures forall p :: p in r <==> Ownership(t, p) in rows
  {
    set o | o in rows && o.trainer == t :: o.pokemon
  }

  lemma {:induction false} DeleteAppend(a: seq<Ownership>, b: seq<Ownership>, q: Query)
    ensures Delete(a + b, q) == Delete(a, q) + Delete(b, q)
  {
    if a == [] {
      assert a + b == b;
    } else {
      assert (a + b)[0] == a[0] && (a + b)[1..] == a[1..] + b;
      DeleteAppend(a[1..], b, q);
    }
  }

  /** Deleting with a query that matches no row leaves the table as it is. */
  lemma {:induction false} DeleteUnmatched(rows: seq<Ownership>, q: Query)
    requires forall o :: o in rows ==> !Matches(q, o)
    ensures Delete(rows, q) == rows
  {
    if rows != [] {
      DeleteUnmatched(rows[1..], q);
    }
  }

  /** Inserting an absent pair and then deleting it restores the table. */
  lemma AddThenDelete(rows: seq<Ownership>, t: int, p: int)
    requires Ownership(t, p) !in rows
    ensures Delete(rows + [Ownership(t, p)], PairQuery(t, p)) == rows
  {
    DeleteAppend(rows, [Ownership(t, p)], PairQuery(t, p));
    DeleteUnmatched(rows, PairQuery(t, p));
  }

  /** In a table without duplicates, deleting a present pair removes exactly one row. */
  lemma {:induction false} DeletePresentPair(rows: seq<Ownership>, t: int, p: int)
    requires NoDuplicates(rows) && Ownership(t, p) in rows
    ensures |Delete(rows, PairQuery(t, p))| == |rows| - 1
  {
    var x := Ownership(t, p);
    assert NoDuplicates(rows[1..]);
    if rows[0] == x {
      assert x !in rows[1..];
      DeleteUnmatched(rows[1..], PairQuery(t, p));
    } else {
      DeletePresentPair(rows[1..], t, p);
    }
  }

  /** A deletion by trainer keeps every row of every other trainer and nothing of that one. */
  lemma CascadeByTrainer(rows: seq<Ownership>, t: int)
    ensures Roster(Delete(rows, Query(Some(t), None)), t) == {}
    ensures forall u :: u != t ==> Roster(Delete(rows, Query(Some(t), None)), u) == Roster(rows, u)
  {
  }

  /** A deletion by pokémon keeps every row of every other pokémon and nothing of that one. */
  lemma CascadeByPokemon(rows: seq<Ownership>, p: int)
    ensures OwnersOf(Delete(rows, Query(None, Some(p))), p) == {}
    ensures forall q :: q != p ==> OwnersOf(Delete(rows, Query(None, Some(p))), q) == OwnersOf(rows, q)
  {
  }

  /** A duplicate-free join table has as many rows as distinct pairs. */
  lemma {:induction false} DistinctRows(rows: seq<Ownership>)
    requires NoDuplicates(rows)
    ensures |set o | o in rows| == |rows|
  {
    if rows != [] {
      assert NoDuplicates(rows[1..]);
      DistinctRows(rows[1..]);
      assert (set o | o in rows) == {rows[0]} + (set o | o in rows[1..]);
      assert rows[0] !in (set o | o in rows[1..]);
    }
  }

  datatype StoreError = FieldInvalid | NameConflict | RowNotFound

  /** The database: the trainer and pokémon tables keyed by id, the join table,
      and the next id each table hands out. */
  class Store {
    var trainers: map<int, Trainer>
    var pokemons: map<int, Pokemon>
    var ownerships: seq<Ownership>
    var nextTrainerId: int
    var nextPokemonId: int

    /** Column bounds, name uniqueness, pair uniqueness and referential integrity. */
    ghost predicate Valid()
      reads this
    {
      && 1 <= nextTrainerId && 1 <= nextPokemonId
      && (forall id :: id in trainers ==> 1 <= id < nextTrainerId && TrainerFieldsValid(trainers[id]))
      && (forall id :: id in pokemons ==> 1 <= id < nextPokemonId && PokemonFieldsValid(pokemons[id]))
      && NamesUnique(pokemons)
      && NoDuplicates(ownerships)
      && (forall o :: o in ownerships ==> o.trainer in trainers && o.pokemon in pokemons)
    }

    constructor ()
      ensures Valid()
      ensures trainers == map[] && pokemons == map[] && ownerships == []
    {
      trainers, pokemons, ownerships := map[], map[], [];
      nextTrainerId, nextPokemonId := 1, 1;
    }

    /** Inserts a trainer under a fresh id, or fails when a column is out of bounds. */
    method CreateTrainer(name: string, age: int) returns (r: Result<int, StoreError>)
      requires Valid()
      modifies this
      ensures Valid()
      ensures pokemons == old(pokemons) && ownerships == old(ownerships)
      ensures !TrainerFieldsValid(Trainer(name, age)) ==> r == Failure(FieldInvalid) && unchanged(this)
      ensures TrainerFieldsValid(Trainer(name, age)) ==>
                r.Success? && r.value !in old(trainers) &&
                trainers == old(trainers)[r.value := Trainer(name, age)]
    {
      if !TrainerFieldsValid(Trainer(name, age)) {
        return Failure(FieldInvalid);
      }
      var id := nextTrainerId;
      trainers := trainers[id := Trainer(name, age)];
      nextTrainerId := nextTrainerId + 1;
      r := Success(id);
    }

    /** Inserts a pokémon under a fresh id; fails when a column is out of bounds
        or when another pokémon already has the name. */
    method CreatePokemon(name: string, photo: Option<string>, height: Option<int>, weight: Option<int>)
      returns (r: Result<int, StoreError>)
      requires Valid()
      modifies this
      ensures Valid()
      ensures trainers == old(trainers) && ownerships == old(ownerships)
      ensures !PokemonFieldsValid(Pokemon(name, photo, height, weight)) ==> r == Failure(FieldInvalid) && unchanged(this)
      ensures PokemonFieldsValid(Pokemon(name, photo, height, weight)) && NameTaken(old(pokemons), name) ==>
                r == Failure(NameConflict) && unchanged(this)
      ensures PokemonFieldsValid(Pokemon(name, photo, height, weight)) && !NameTaken(old(pokemons), name) ==>
                r.Success? && r.value !in old(pokemons) &&
                pokemons == old(pokemons)[r.value := Pokemon(name, photo, height, weight)]
    {
      var p := Pokemon(name, photo, height, weight);
      if !PokemonFieldsValid(p) {
        return Failure(FieldInvalid);
      }
      if NameTaken(pokemons, name) {
        return Failure(NameConflict);
      }
      var id := nextPokemonId;
      pokemons := pokemons[id := p];
      nextPokemonId := nextPokemonId + 1;
      r := Success(id);
    }

    /** Deletes a trainer and, by cascade, every ownership row of that trainer. */
    method DeleteTrainer(id: int) returns (r: Outcome<StoreError>)
      requires Valid()
      modifies this
      ensures Valid()
      ensures pokemons == old(pokemons)
      ensures nextTrainerId == old(nextTrainerId) && nextPokemonId == old(nextPokemonId)
      ensures id !in old(trainers) ==> r == Fail(RowNotFound) && unchanged(this)
      ensures id in old(trainers) ==>
                r == Pass && trainers == old(trainers) - {id} &&
                ownerships == Delete(old(ownerships), Query(Some(id), None))
    {
      if id !in trainers {
        return Fail(RowNotFound);
      }
      trainers := trainers - {id};
      ownerships := Delete(ownerships, Query(Some(id), None));
      r := Pass;
    }

    /** Deletes a pokémon and, by cascade, every ownership row of that pokémon. */
    method DeletePokemon(id: int) returns (r: Outcome<StoreError>)
      requires Valid()
      modifies this
      ensures Valid()
      ensures trainers == old(trainers)
      ensures nextTrainerId == old(nextTrainerId) && nextPokemonId == old(nextPokemonId)
      ensures id !in old(pokemons) ==> r == Fail(RowNotFound) && unchanged(this)
      ensures id in old(pokemons) ==>
                r == Pass && pokemons == old(pokemons) - {id} &&
                ownerships == Delete(old(ownerships), Query(None, Some(id)))
    {
      if id !in pokemons {
        return Fail(RowNotFound);
      }
      pokemons := pokemons - {id};
      ownerships := Delete(ownerships, Query(None, Some(id)));
      r := Pass;
    }
  }

  /** What a valid store guarantees to its readers: a name identifies at most
      one pokémon, every pair is stored once, and every owner and every roster
      entry is an existing row. */
  lemma ValidStoreFacts(s: Store)
    requires s.Valid()
    ensures forall a, b :: a in s.pokemons && b in s.pokemons && a != b ==> s.pokemons[a].name != s.pokemons[b].name
    ensures |set o | o in s.ownerships| == |s.ownerships|
    ensures forall p :: OwnersOf(s.ownerships, p) <= s.trainers.Keys
    ensures forall t :: Roster(s.ownerships, t) <= s.pokemons.Keys
  {
    DistinctRows(s.ownerships);
  }
}
