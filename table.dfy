/**
 * The `games` array as a value, and the lodash operations the routes apply to
 * it (`find`, `remove`, `find(...).assign(...)`), as functions of the table.
 */
module Table {
  import opened Wrappers
  import opened Records

  /** The position lodash `find({id})` stops at: the first record answering to `id`. */
  function FirstMatch(games: seq<Record>, id: string): (k: Option<nat>)
    ensures k.Some? ==> k.value < |games| && HasId(games[k.value], id)
    ensures k.Some? ==> forall j :: 0 <= j < k.value ==> !HasId(games[j], id)
    ensures k.None? ==> forall j :: 0 <= j < |games| ==> !HasId(games[j], id)
  {
    if |games| == 0 then None
    else if HasId(games[0], id) then Some(0)
    else match FirstMatch(games[1..], id)
      case None => None
      case Some(i) => Some(i + 1)
  }

  /** A matching position with no match before it is the first match. */
  lemma FirstMatchIs(games: seq<Record>, id: string, k: nat)
    requires k < |games| && HasId(games[k], id)
    requires forall j :: 0 <= j < k ==> !HasId(games[j], id)
    ensures FirstMatch(games, id) == Some(k)
  {
    assert FirstMatch(games, id).Some?;
  }

  /**
   * Lookup (`find({id}).value()`): the first record whose `id` is `id`, or
   * nothing when no record answers to it.
   */
  function Find(games: seq<Record>, id: string): (found: Option<Record>)
    ensures found.None? <==> forall j :: 0 <= j < |games| ==> !HasId(games[j], id)
    ensures found.Some? ==> HasId(found.value, id)
    ensures found.Some? ==> exists i :: 0 <= i < |games| && games[i] == found.value
                                        && forall j :: 0 <= j < i ==> !HasId(games[j], id)
  {
    match FirstMatch(games, id)
    case None => None
    case Some(i) => Some(games[i])
  }

  /** How many records answer to `id`. */
  function CountMatches(games: seq<Record>, id: string): (n: nat)
    ensures n <= |games|
    ensures n == 0 <==> forall j :: 0 <= j < |games| ==> !HasId(games[j], id)
  {
    if |games| == 0 then 0
    else (if HasId(games[0], id) then 1 else 0) + CountMatches(games[1..], id)
  }

  /** The positions of the records answering to `id`. */
  function MatchPositions(games: seq<Record>, id: string): set<int>
  {
    set j | 0 <= j < |games| && HasId(games[j], id)
  }

  /** Moving every position one place along keeps the number of positions. */
  lemma {:induction false} ShiftedSize(positions: set<int>)
    ensures |set j | j in positions :: j + 1| == |positions|
  {
    var shifted := set j | j in positions :: j + 1;
    if x :| x in positions {
      var rest := positions - {x};
      var restShifted := set j | j in rest :: j + 1;
      ShiftedSize(rest);
      assert shifted == restShifted + {x + 1} by {
        forall y | y in shifted ensures y in restShifted + {x + 1} {
          assert y - 1 in positions;
          if y - 1 != x { assert y - 1 in rest; }
        }
      }
      assert x + 1 !in restShifted;
    } else {
      assert forall y :: y !in positions;
      assert positions == {};
      assert shifted == {};
    }
  }

  /** The count is the number of positions holding a record that answers to `id`. */
  lemma {:induction false} CountMatchesIsPositions(games: seq<Record>, id: string)
    ensures CountMatches(games, id) == |MatchPositions(games, id)|
  {
    if |games| > 0 {
      var tail := MatchPositions(games[1..], id);
      CountMatchesIsPositions(games[1..], id);
      ShiftedSize(tail);
      var shifted := set j | j in tail :: j + 1;
      var head: set<int> := if HasId(games[0], id) then {0} else {};
      assert MatchPositions(games, id) == head + shifted by {
        forall j | j in MatchPositions(games, id) && j > 0
          ensures j in shifted
        {
          assert games[1..][j - 1] == games[j];
          assert j - 1 in tail;
        }
        forall j | j in shifted
          ensures j in MatchPositions(games, id)
        {
          assert games[1..][j - 1] == games[j];
        }
      }
      assert 0 !in shifted;
    } else {
      assert MatchPositions(games, id) == {};
    }
  }

  /** lodash `remove(games, {id})`: every record answering to `id` leaves the table. */
  function RemoveAll(games: seq<Record>, id: string): (kept: seq<Record>)
    ensures |kept| == |games| - CountMatches(games, id)
    ensures forall j :: 0 <= j < |kept| ==> !HasId(kept[j], id)
    ensures forall g :: g in kept <==> g in games && !HasId(g, id)
  {
    if |games| == 0 then []
    else if HasId(games[0], id) then RemoveAll(games[1..], id)
    else [games[0]] + RemoveAll(games[1..], id)
  }

  /**
   * `find({id}).assign(body)`: the first record answering to `id` is merged
   * with the body; every other record, and the order, stay as they were.
   */
  function UpdateFirst(games: seq<Record>, id: string, body: Record): (updated: seq<Record>)
    ensures |updated| == |games|
    ensures FirstMatch(games, id).None? ==> updated == games
    ensures FirstMatch(games, id).Some? ==>
              var i := FirstMatch(games, id).value;
              updated[i] == Merge(games[i], body)
              && forall j :: 0 <= j < |games| && j != i ==> updated[j] == games[j]
  {
    match FirstMatch(games, id)
    case None => games
    case Some(i) => games[i := Merge(games[i], body)]
  }

  // ---- removal -------------------------------------------------------------

  /** Removal distributes over concatenation: the survivors keep their relative order. */
  lemma {:induction false} RemoveAllAppend(a: seq<Record>, b: seq<Record>, id: string)
    ensures RemoveAll(a + b, id) == RemoveAll(a, id) + RemoveAll(b, id)
  {
    var ab := a + b;
    if |a| == 0 {
      assert ab == b;
    } else {
      assert ab[0] == a[0];
      assert ab[1..] == a[1..] + b;
      RemoveAllAppend(a[1..], b, id);
      if !HasId(a[0], id) {
        calc {
          RemoveAll(ab, id);
          [a[0]] + RemoveAll(a[1..] + b, id);
          [a[0]] + (RemoveAll(a[1..], id) + RemoveAll(b, id));
          ([a[0]] + RemoveAll(a[1..], id)) + RemoveAll(b, id);
        }
      }
    }
  }

  /** Removal over a table grown by one record at the end. */
  lemma RemoveAllSnoc(games: seq<Record>, game: Record, id: string)
    ensures RemoveAll(games + [game], id) == RemoveAll(games, id) + (if HasId(game, id) then [] else [game])
  {
    RemoveAllAppend(games, [game], id);
    assert RemoveAll([game], id) == if HasId(game, id) then [] else [game];
  }

  /** With no record answering to `id`, removal leaves the table exactly as it was. */
  lemma {:induction false} RemoveAllWithoutMatch(games: seq<Record>, id: string)
    requires forall j :: 0 <= j < |games| ==> !HasId(games[j], id)
    ensures RemoveAll(games, id) == games
  {
    if |games| > 0 {
      RemoveAllWithoutMatch(games[1..], id);
      assert [games[0]] + games[1..] == games;
    }
  }

  /** Delete is idempotent: a second removal of the same id changes nothing. */
  lemma RemoveAllIdempotent(games: seq<Record>, id: string)
    ensures RemoveAll(RemoveAll(games, id), id) == RemoveAll(games, id)
  {
    RemoveAllWithoutMatch(RemoveAll(games, id), id);
  }

  /** After a delete of `id`, lookup of `id` finds nothing. */
  lemma FindAfterRemove(games: seq<Record>, id: string)
    ensures Find(RemoveAll(games, id), id) == None
  {
  }

  /** A delete that hits exactly one record shortens the table by exactly one. */
  lemma RemoveOneMatch(games: seq<Record>, id: string)
    requires CountMatches(games, id) == 1
    ensures |RemoveAll(games, id)| == |games| - 1
  {
  }

  // ---- creation ------------------------------------------------------------

  /** Appending a record that does not answer to `id` does not change lookup of `id`. */
  lemma {:induction false} FindAppend(games: seq<Record>, game: Record, id: string)
    ensures Find(games + [game], id) ==
              if Find(games, id).Some? then Find(games, id)
              else if HasId(game, id) then Some(game) else None
  {
    var all := games + [game];
    match FirstMatch(games, id)
    case Some(i) =>
      assert forall j :: 0 <= j < i ==> all[j] == games[j];
      FirstMatchIs(all, id, i);
    case None =>
      if HasId(game, id) {
        assert forall j :: 0 <= j < |games| ==> all[j] == games[j];
        FirstMatchIs(all, id, |games|);
      } else {
        assert forall j :: 0 <= j < |all| ==> all[j] == if j < |games| then games[j] else game;
      }
  }

  /**
   * Round trip of create and lookup: when the body brings no `id` and the
   * token did not collide with an existing id, looking the token up returns
   * the created record.
   */
  lemma FindAfterCreate(games: seq<Record>, token: string, body: Record)
    requires "id" !in body
    requires forall j :: 0 <= j < |games| ==> !HasId(games[j], token)
    ensures Find(games + [NewRecord(token, body)], token) == Some(NewRecord(token, body))
  {
    FindAppend(games, NewRecord(token, body), token);
  }

  /** A concrete create whose body `id` breaks the round trip: the token finds nothing. */
  lemma CreateLookupMissesWithBodyId()
    ensures Find([NewRecord("d5fE_asz", map["id" := Str("chess")])], "d5fE_asz") == None
  {
    var game := NewRecord("d5fE_asz", map["id" := Str("chess")]);
    assert game["id"] == Str("chess");
    assert !HasId([game][0], "d5fE_asz");
  }

  /** With the generated id always kept, the round trip holds whatever the body holds. */
  lemma FindAfterCreateWithGeneratedId(games: seq<Record>, token: string, body: Record)
    requires forall j :: 0 <= j < |games| ==> !HasId(games[j], token)
    ensures Find(games + [NewRecordWithGeneratedId(token, body)], token)
            == Some(NewRecordWithGeneratedId(token, body))
  {
    FindAppend(games, NewRecordWithGeneratedId(token, body), token);
  }

  // ---- update --------------------------------------------------------------

  /**
   * After an update whose body keeps the id, lookup returns the old record
   * merged with the body: body fields overwrite, the others keep their values.
   */
  lemma FindAfterUpdate(games: seq<Record>, id: string, body: Record)
    requires Find(games, id).Some?
    requires "id" in body ==> body["id"] == Str(id)
    ensures Find(UpdateFirst(games, id, body), id) == Some(Merge(Find(games, id).value, body))
  {
    var i := FirstMatch(games, id).value;
    var updated := UpdateFirst(games, id, body);
    MergeKeepsId(games[i], body, id);
    FirstMatchIs(updated, id, i);
  }

  /** With no record answering to `id`, an update leaves the table as it was. */
  lemma UpdateWithoutMatch(games: seq<Record>, id: string, body: Record)
    requires Find(games, id).None?
    ensures UpdateFirst(games, id, body) == games
  {
  }

  /** An update whose body keeps the id is idempotent. */
  lemma UpdateIdempotent(games: seq<Record>, id: string, body: Record)
    requires "id" in body ==> body["id"] == Str(id)
    ensures UpdateFirst(UpdateFirst(games, id, body), id, body) == UpdateFirst(games, id, body)
  {
    var once := UpdateFirst(games, id, body);
    match FirstMatch(games, id)
    case None =>
    case Some(i) =>
      MergeKeepsId(games[i], body, id);
      FirstMatchIs(once, id, i);
      MergeIdempotent(games[i], body);
  }

  /** Replacing one record changes the match count by what it took out and put in. */
  lemma {:induction false} CountMatchesReplace(games: seq<Record>, i: nat, game: Record, id: string)
    requires i < |games|
    ensures CountMatches(games[i := game], id) ==
              CountMatches(games, id) - (if HasId(games[i], id) then 1 else 0)
                                      + (if HasId(game, id) then 1 else 0)
  {
    if i > 0 {
      assert games[i := game][1..] == games[1..][i - 1 := game];
      CountMatchesReplace(games[1..], i - 1, game, id);
    } else {
      assert games[i := game][1..] == games[1..];
    }
  }

  /**
   * A body `id` that differs from the path id renames the record: afterwards
   * one record fewer answers to the path id, so a repeated lookup may find a
   * later record or nothing.
   */
  lemma UpdateCanRename(games: seq<Record>, id: string, body: Record)
    requires Find(games, id).Some?
    requires "id" in body && body["id"] != Str(id)
    ensures CountMatches(UpdateFirst(games, id, body), id) == CountMatches(games, id) - 1
  {
    var i := FirstMatch(games, id).value;
    CountMatchesReplace(games, i, Merge(games[i], body), id);
  }

}
