/**
 * The route callbacks of the games router, each acting on the shared table,
 * and the dispatcher that picks one by registration order. Responses are
 * reduced to what a client observes: status, body, redirect target, or the
 * name of the rendered view with its data.
 */
module Handlers {
  import opened Wrappers
  import opened Records
  import opened Table
  import opened GameStore
  import opened Routes

  datatype Body = Empty | Json(game: Record) | Text(text: string)

  /** The data handed to a view: `{ games }`, `{ game }`, or nothing. */
  datatype Context = NoContext | GamesContext(games: seq<Record>) | GameContext(game: Option<Record>)

  datatype Response =
    | Send(status: int, body: Body)
    | Redirect(status: int, location: string)
    | Render(view: string, context: Context)
    | NotFound   // no route matched: Express's final handler answers 404

  /** `res.send(x)` for a lookup result: `undefined` gives an empty body. */
  function BodyOf(found: Option<Record>): (body: Body)
    ensures found.None? <==> body == Empty
    ensures found.Some? ==> body == Json(found.value)
  {
    if found.Some? then Json(found.value) else Empty
  }

  /** `res.status(500).send("Internal Server Error")`. */
  const InternalError: Response := Send(500, Text("Internal Server Error"))

  /** `res.redirect("/games")`: Express's default redirect status is 302. */
  const BackToList: Response := Redirect(302, "/games")

  /** The numeric constants declared at the top of the router module: only `idLenght`. */
  const ModuleScope: map<string, nat> := map["idLenght" := IdLength]

  /**
   * `const game = { id: nanoid(<name>), ...body }; games.push(game)`. The id
   * length is read from the module scope under `sizeName`; `token` is what
   * nanoid returns for it. Reading a name that is not declared throws a
   * ReferenceError before anything is pushed.
   */
  method InsertGame(db: Store, sizeName: string, body: Record, token: string) returns (created: Option<Record>)
    requires |token| == IdLength
    modifies db
    ensures sizeName !in ModuleScope ==> created == None && db.games == old(db.games)
    ensures sizeName in ModuleScope ==>
              created == Some(NewRecord(token, body))
              && db.games == old(db.games) + [NewRecord(token, body)]
  {
    if sizeName !in ModuleScope {
      return None;
    }
    var game := NewRecord(token, body);
    db.Push(game);
    return Some(game);
  }

  /** `GET /games`: the index view with the whole table, in order. */
  method ListGames(db: Store) returns (resp: Response)
    ensures resp == Render("index", GamesContext(db.games))
  {
    resp := Render("index", GamesContext(db.games));
  }

  /** `GET /games/:id`: 200 with the first record answering to `id`, or an empty body. */
  method ShowGame(db: Store, id: string) returns (resp: Response)
    ensures resp.Send? && resp.status == 200
    ensures resp.body == Empty <==> forall j :: 0 <= j < |db.games| ==> !HasId(db.games[j], id)
    ensures resp.body != Empty ==> resp.body == Json(Find(db.games, id).value)
  {
    resp := Send(200, BodyOf(Find(db.games, id)));
  }

  /**
   * `POST /games`: one record appended at the end, holding every body field
   * and an `id` (the token unless the body brings its own); 201 with it.
   */
  method CreateGame(db: Store, body: Record, token: string) returns (resp: Response)
    requires |token| == IdLength
    modifies db
    ensures db.games == old(db.games) + [NewRecord(token, body)]
    ensures resp == Send(201, Json(NewRecord(token, body)))
  {
    var created := InsertGame(db, "idLenght", body, token);
    resp := Send(201, Json(created.value));
  }

  /**
   * `PUT /games/:id`: the body is merged into the first record answering to
   * `id`; 200 with what a lookup of `id` finds afterwards.
   */
  method UpdateGame(db: Store, id: string, body: Record) returns (resp: Response)
    modifies db
    ensures db.games == UpdateFirst(old(db.games), id, body)
    ensures resp == Send(200, BodyOf(Find(db.games, id)))
  {
    db.Assign(id, body);
    resp := Send(200, BodyOf(Find(db.games, id)));
  }

  /** `DELETE /games/:id`: every record answering to `id` removed; `sendStatus(200)` answers "OK". */
  method DeleteGame(db: Store, id: string) returns (resp: Response)
    modifies db
    ensures db.games == RemoveAll(old(db.games), id)
    ensures resp == Send(200, Text("OK"))
  {
    db.Remove(id);
    resp := Send(200, Text("OK"));
  }

  /** `GET /games/delete/:id`: the same removal, then a redirect to the list. */
  method DeleteGameAndRedirect(db: Store, id: string) returns (resp: Response)
    modifies db
    ensures db.games == RemoveAll(old(db.games), id)
    ensures resp == BackToList
  {
    db.Remove(id);
    resp := BackToList;
  }

  /** `POST /games/edit/:id`: the same merge as `PUT /:id`, then a redirect to the list. */
  method EditGameAndRedirect(db: Store, id: string, body: Record) returns (resp: Response)
    modifies db
    ensures db.games == UpdateFirst(old(db.games), id, body)
    ensures resp == BackToList
  {
    db.Assign(id, body);
    resp := BackToList;
  }

  /** `GET /games/edit/:id`: the edit view with the looked-up record. */
  method ShowEditForm(db: Store, id: string) returns (resp: Response)
    ensures resp == Render("editGame", GameContext(Find(db.games, id)))
  {
    resp := Render("editGame", GameContext(Find(db.games, id)));
  }

  /**
   * `POST /games/new` as written: it reads `idLength`, which is not declared,
   * so the ReferenceError is caught and the answer is 500, with the table
   * untouched, whatever the body.
   */
  method CreateGameFromForm(db: Store, body: Record, token: string) returns (resp: Response)
    requires |token| == IdLength
    modifies db
    ensures db.games == old(db.games)
    ensures resp == InternalError
  {
    var created := InsertGame(db, "idLength", body, token);
    if created.None? {
      resp := InternalError;
    } else {
      resp := BackToList;
    }
  }

  /** `POST /games/new` reading the declared `idLenght`: it appends the record and redirects. */
  method CreateGameFromFormIntended(db: Store, body: Record, token: string) returns (resp: Response)
    requires |token| == IdLength
    modifies db
    ensures db.games == old(db.games) + [NewRecord(token, body)]
    ensures resp == BackToList
  {
    var created := InsertGame(db, "idLenght", body, token);
    if created.None? {
      resp := InternalError;
    } else {
      resp := BackToList;
    }
  }

  /** `GET /games/new`: the new-game view. */
  method ShowNewForm() returns (resp: Response)
    ensures resp == Render("newGame", NoContext)
  {
    resp := Render("newGame", NoContext);
  }

  /** The second `GET /games/:id`: the detail view with the looked-up record. */
  method ShowGameDetail(db: Store, id: string) returns (resp: Response)
    ensures resp == Render("gameDetail", GameContext(Find(db.games, id)))
  {
    resp := Render("gameDetail", GameContext(Find(db.games, id)));
  }

  /**
   * One request to the router: the first registered route that matches runs,
   * with the last path segment as `:id`, and its answer is the request's
   * answer. Only the create, update and delete callbacks change the table;
   * the form create never does.
   */
  method Serve(db: Store, verb: Verb, path: seq<string>, body: Record, token: string) returns (resp: Response)
    requires |token| == IdLength
    modifies db
    ensures Resolve(verb, path).None? ==> resp == NotFound
    ensures Resolve(verb, path) == Some(CreateJson) ==>
              db.games == old(db.games) + [NewRecord(token, body)]
    ensures Resolve(verb, path) in {Some(UpdateJson), Some(EditRedirect)} ==>
              db.games == UpdateFirst(old(db.games), PathId(path), body)
    ensures Resolve(verb, path) in {Some(DeleteJson), Some(DeleteRedirect)} ==>
              db.games == RemoveAll(old(db.games), PathId(path))
    ensures Resolve(verb, path) == Some(ListPage) ==> resp == Render("index", GamesContext(old(db.games)))
    ensures Resolve(verb, path) == Some(ShowJson) ==>
              resp == Send(200, BodyOf(Find(old(db.games), PathId(path))))
    ensures Resolve(verb, path) == Some(CreateJson) ==> resp == Send(201, Json(NewRecord(token, body)))
    ensures Resolve(verb, path) == Some(UpdateJson) ==>
              resp == Send(200, BodyOf(Find(db.games, PathId(path))))
    ensures Resolve(verb, path) == Some(DeleteJson) ==> resp == Send(200, Text("OK"))
    ensures Resolve(verb, path) in {Some(DeleteRedirect), Some(EditRedirect)} ==> resp == BackToList
    ensures Resolve(verb, path) == Some(EditPage) ==>
              resp == Render("editGame", GameContext(Find(old(db.games), PathId(path))))
    ensures Resolve(verb, path) == Some(CreateRedirect) ==> resp == InternalError
    ensures Resolve(verb, path) == Some(NewPage) ==> resp == Render("newGame", NoContext)
    ensures Resolve(verb, path) == Some(DetailPage) ==>
              resp == Render("gameDetail", GameContext(Find(old(db.games), PathId(path))))
    ensures Resolve(verb, path) !in {Some(CreateJson), Some(UpdateJson), Some(EditRedirect),
                                     Some(DeleteJson), Some(DeleteRedirect)} ==>
              db.games == old(db.games)
  {
    var id := PathId(path);
    match Resolve(verb, path)
    case None => resp := NotFound;
    case Some(ListPage) => resp := ListGames(db);
    case Some(ShowJson) => resp := ShowGame(db, id);
    case Some(CreateJson) => resp := CreateGame(db, body, token);
    case Some(UpdateJson) => resp := UpdateGame(db, id, body);
    case Some(DeleteJson) => resp := DeleteGame(db, id);
    case Some(DeleteRedirect) => resp := DeleteGameAndRedirect(db, id);
    case Some(EditRedirect) => resp := EditGameAndRedirect(db, id, body);
    case Some(EditPage) => resp := ShowEditForm(db, id);
    case Some(CreateRedirect) => resp := CreateGameFromForm(db, body, token);
    case Some(NewPage) => resp := ShowNewForm();
    case Some(DetailPage) => resp := ShowGameDetail(db, id);
  }


  // ---- requests in sequence -----------------------------------------------

  /**
   * `POST /games` then `GET /games/<token>`: when the body brings no `id` and
   * the token is new to the table, the lookup answers with the created record.
   */
  method CreateThenShow(db: Store, body: Record, token: string) returns (created: Response, shown: Response)
    requires |token| == IdLength
    requires "id" !in body
    requires forall j :: 0 <= j < |db.games| ==> !HasId(db.games[j], token)
    modifies db
    ensures created == Send(201, Json(NewRecord(token, body)))
    ensures shown == Send(200, Json(NewRecord(token, body)))
  {
    created := CreateGame(db, body, token);
    shown := ShowGame(db, token);
    FindAfterCreate(old(db.games), token, body);
  }

  /**
   * `DELETE /games/:id` twice: both answer 200, the second changes nothing,
   * and a lookup afterwards finds no record with that id.
   */
  method DeleteTwice(db: Store, id: string) returns (first: Response, second: Response, shown: Response)
    modifies db
    ensures first == second == Send(200, Text("OK"))
    ensures db.games == RemoveAll(old(db.games), id)
    ensures shown == Send(200, Empty)
  {
    first := DeleteGame(db, id);
    ghost var once := db.games;
    second := DeleteGame(db, id);
    RemoveAllIdempotent(old(db.games), id);
    assert db.games == once;
    shown := ShowGame(db, id);
  }

  /**
   * `GET /games/new` end to end: the lookup callback answers, with what a
   * lookup of the id "new" finds, and the table is left as it was.
   */
  method GetNewRequest(db: Store, token: string) returns (resp: Response)
    requires |token| == IdLength
    modifies db
    ensures db.games == old(db.games)
    ensures resp == Send(200, BodyOf(Find(db.games, "new")))
  {
    GetNewIsLookup();
    resp := Serve(db, Get, ["new"], map[], token);
  }

}
