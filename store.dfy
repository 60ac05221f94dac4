/**
 * The `games` array held by the application's database handle. Route
 * callbacks change it in place: `push` appends, `find(...).assign(...)`
 * merges into a record, `remove` drops records.
 */
module GameStore {
  import opened Wrappers
  import opened Records
  import opened Table

  class Store {
    /** The table, in insertion order. */
    var games: seq<Record>

    /**
     * `db.defaults({ games: [] })`: a table already saved in the database file
     * is kept; otherwise the table starts empty.
     */
    constructor (saved: Option<seq<Record>>)
      ensures games == if saved.Some? then saved.value else []
    {
      games := if saved.Some? then saved.value else [];
    }

    /** `push(game)`: one record more, at the end; every earlier record stays in place. */
    method Push(game: Record)
      modifies this
      ensures games == old(games) + [game]
      ensures |games| == |old(games)| + 1
      ensures forall j :: 0 <= j < |old(games)| ==> games[j] == old(games)[j]
    {
      games := games + [game];
    }

    /** The scan lodash `find({id})` performs: the first position answering to `id`. */
    method IndexOf(id: string) returns (k: Option<nat>)
      ensures k == FirstMatch(games, id)
    {
      var i := 0;
      while i < |games|
        invariant 0 <= i <= |games|
        invariant forall j :: 0 <= j < i ==> !HasId(games[j], id)
      {
        if HasId(games[i], id) {
          FirstMatchIs(games, id, i);
          return Some(i);
        }
        i := i + 1;
      }
      return None;
    }

    /** `find({id}).assign(body)`: a shallow merge into the first matching record, in place. */
    method Assign(id: string, body: Record)
      modifies this
      ensures games == UpdateFirst(old(games), id, body)
    {
      var k := IndexOf(id);
      if k.Some? {
        games := games[k.value := Merge(games[k.value], body)];
      }
    }

    /** `remove({id})`: every record answering to `id` leaves; the others keep their order. */
    method Remove(id: string)
      modifies this
      ensures games == RemoveAll(old(games), id)
    {
      var kept: seq<Record> := [];
      var i := 0;
      while i < |games|
        invariant 0 <= i <= |games|
        invariant games == old(games)
        invariant kept == RemoveAll(games[..i], id)
      {
        assert games[..i + 1] == games[..i] + [games[i]];
        RemoveAllSnoc(games[..i], games[i], id);
        if !HasId(games[i], id) {
          kept := kept + [games[i]];
        }
        i := i + 1;
      }
      assert games[..i] == games;
      games := kept;
    }
  }

}
