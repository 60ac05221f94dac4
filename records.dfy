/**
 * A game record and the two ways the routes build one: the object literal that
 * creates a record, and lodash's `assign`, which merges a request body into one.
 */
module Records {

  /** A JSON value as `express.json()` parses it from a request body. */
  datatype Value =
    | Null
    | Bool(b: bool)
    | Num(n: real)
    | Str(s: string)
    | Arr(items: seq<Value>)
    | Obj(fields: map<string, Value>)

  /** A game record is a plain object: the keys the client sent, plus `id`. */
  type Record = map<string, Value>

  /** `idLenght` (spelled so in the source): the length of a generated id. */
  const IdLength: nat := 8

  /** The lodash matcher `{id: X}`: the record's `id` is the string X. */
  predicate HasId(game: Record, id: string)
    ensures HasId(game, id) ==> "id" in game && game["id"] == Str(id)
    ensures ("id" !in game || !game["id"].Str?) ==> !HasId(game, id)
  {
    "id" in game && game["id"] == Str(id)
  }

  /** A record answers to at most one id. */
  lemma HasIdUnique(game: Record, id: string, other: string)
    requires HasId(game, id) && HasId(game, other)
    ensures id == other
  {
  }

  /**
   * The object literal `{ id: token, ...body }`: every body field is copied,
   * and since the spread comes last, a body `id` replaces the generated one.
   */
  function NewRecord(token: string, body: Record): (game: Record)
    ensures game.Keys == body.Keys + {"id"}
    ensures forall k :: k in body ==> game[k] == body[k]
    ensures "id" !in body ==> HasId(game, token)
  {
    map["id" := Str(token)] + body
  }

  /**
   * lodash `assign(game, body)`: a shallow merge. Every key of the body, `id`
   * included, overwrites; every other key keeps its value.
   */
  function Merge(game: Record, body: Record): (merged: Record)
    ensures merged.Keys == game.Keys + body.Keys
    ensures forall k :: k in body ==> merged[k] == body[k]
    ensures forall k :: k in game && k !in body ==> merged[k] == game[k]
  {
    game + body
  }

  /** Merging the same body twice has the effect of merging it once. */
  lemma MergeIdempotent(game: Record, body: Record)
    ensures Merge(Merge(game, body), body) == Merge(game, body)
  {
    var once := Merge(game, body);
    assert Merge(once, body).Keys == once.Keys;
  }

  /** A body that keeps the id (none given, or the same one) leaves the merged record matching it. */
  lemma MergeKeepsId(game: Record, body: Record, id: string)
    requires HasId(game, id)
    requires "id" in body ==> body["id"] == Str(id)
    ensures HasId(Merge(game, body), id)
  {
  }

  /**
   * The record the create handlers build answers to the generated token exactly
   * when the body carries no `id` of its own (or carries that same token).
   */
  lemma NewRecordHasTokenIff(token: string, body: Record)
    ensures HasId(NewRecord(token, body), token) <==> ("id" !in body || body["id"] == Str(token))
  {
  }

  /** A concrete body whose `id` wins over the generated token. */
  lemma BodyIdOverridesToken()
    ensures var game := NewRecord("d5fE_asz", map["id" := Str("chess"), "name" := Str("Chess")]);
            HasId(game, "chess") && !HasId(game, "d5fE_asz")
  {
  }

  /**
   * The record the create handlers evidently mean to build: the body's fields
   * with the generated id, which the body cannot replace.
   */
  function NewRecordWithGeneratedId(token: string, body: Record): (game: Record)
    ensures game.Keys == body.Keys + {"id"}
    ensures HasId(game, token)
    ensures forall k :: k in body && k != "id" ==> game[k] == body[k]
  {
    body["id" := Str(token)]
  }

}
