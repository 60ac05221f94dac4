# Games record table

A model of the games router of a small Express service (`/games`). The
service keeps one ordered table of game records in a lowdb database; the
router's callbacks create, look up, update and delete records in that table,
and Express chooses the callback for a request by registration order.

The model has six modules:

- `Wrappers` — an `Option` type: lodash `find` yields a record or `undefined`.
- `Records` — a record is a JSON object (`map<string, Value>`). `NewRecord` is
  the object literal `{ id: token, ...body }`. `Merge` is lodash `assign`, a
  shallow merge.
- `Table` — the table as a `seq<Record>`, with pure specifications of lodash
  `find`, `remove` and `find(...).assign(...)`, and lemmas relating them.
- `GameStore` — `class Store { var games }`, the table the callbacks change in
  place. `Assign` and `Remove` are proved against the `Table` functions;
  `Push` appends.
- `Routes` — the twelve registrations in order, and first-match resolution.
  It also proves which callbacks are shadowed.
- `Handlers` — one method per route callback. Each method states its status,
  redirect or view and the new table. `Serve` dispatches one request through
  `Routes.Resolve`.

A record answers to id X when its `id` field is the string X; that is what
the lodash matcher `{id: X}` checks. Id generation (`nanoid`) is a parameter
`token` with `|token| == 8`. Responses keep only what a client observes: the
status, the body, the redirect target, or the view name with its data.

Four behaviours of the code are easy to misread from its comments and route
names; the model states each as the code does it:

- routes/games.js:94-97: the body is spread after the generated `id`, so a
  body `id` replaces it. The update at line 133 likewise lets a body `id`
  overwrite the stored one.
- routes/games.js:178: `DELETE /games/:id` answers with `sendStatus(200)`,
  whose body is the text "OK".
- routes/games.js:225: `POST /games/new` reads `idLength`, which is not
  declared, so it always answers 500 (see Findings).
- routes/games.js:56-58: `GET /games` renders the `index` view; it does not
  send the list as JSON.

## Model

| member | source | states |
|---|---|---|
| `Records.HasId` | routes/games.js:62 | a record answers to X exactly when its `id` field is the string X (lodash's strict `{id: X}` matcher); a record without a string `id` answers to none |
| `Records.HasIdUnique` | routes/games.js:62 | a record answers to at most one id |
| `Records.NewRecord` | routes/games.js:94-97 | the created record has every body field plus `id`; its `id` is the token when the body has no `id`, and the body's `id` otherwise |
| `Records.NewRecordHasTokenIff` | routes/games.js:94-97 | the created record answers to the token exactly when the body has no `id` or has that same token |
| `Records.BodyIdOverridesToken` | routes/games.js:94-97 | a body `{id: "chess"}` gives a record that answers to "chess" and not to the generated token |
| `Records.NewRecordWithGeneratedId` | routes/games.js:94-97 | corrected literal: the record always answers to the token and keeps every other body field |
| `Records.Merge` | routes/games.js:133 | shallow merge: every body key, `id` included, overwrites; keys not in the body keep their values; no key is lost |
| `Records.MergeIdempotent` | routes/games.js:133 | merging the same body twice equals merging it once |
| `Records.MergeKeepsId` | routes/games.js:133 | a body with no `id`, or with the same id, leaves the record answering to that id |
| `Table.FirstMatch` | routes/games.js:62 | returns the position of the first record answering to the id, with no match before it, or none when nothing matches |
| `Table.FirstMatchIs` | routes/games.js:62 | a matching position with no earlier match is the position `find` stops at |
| `Table.Find` | routes/games.js:61-65 | lookup returns nothing exactly when no record answers to the id; otherwise it returns a record of the table that answers to it, with no match before it |
| `Table.CountMatches` | routes/games.js:176 | the number of records answering to an id is zero exactly when none does |
| `Table.CountMatchesIsPositions` | routes/games.js:176 | the match count equals the number of positions whose record answers to the id |
| `Table.RemoveAll` | routes/games.js:176 | after removal no record answers to the id; a record survives iff it was in the table and does not match; length drops by the number of matches |
| `Table.RemoveAllAppend` | routes/games.js:176 | removal distributes over concatenation, so survivors keep their relative order |
| `Table.RemoveAllSnoc` | routes/games.js:176 | removal over a table grown by one record keeps the old survivors and adds the new record exactly when it does not match |
| `Table.RemoveAllWithoutMatch` | routes/games.js:176 | with no match, removal leaves the table identical |
| `Table.RemoveAllIdempotent` | routes/games.js:175-179 | deleting the same id twice equals deleting it once |
| `Table.FindAfterRemove` | routes/games.js:176 | after deleting id X, lookup of X returns nothing |
| `Table.RemoveOneMatch` | routes/games.js:176 | a delete that matches exactly one record shortens the table by one |
| `Table.FindAppend` | routes/games.js:98 | appending a record changes lookup of an id only when no earlier record answered to it |
| `Table.FindAfterCreate` | routes/games.js:94-98 | with no body `id` and a token new to the table, looking up the token returns the created record |
| `Table.CreateLookupMissesWithBodyId` | routes/games.js:94-98 | a create whose body carries `id: "chess"` cannot be found under its generated token |
| `Table.FindAfterCreateWithGeneratedId` | routes/games.js:94-98 | with the corrected literal, looking up a fresh token returns the created record whatever the body |
| `Table.UpdateFirst` | routes/games.js:133 | the first matching record becomes its merge with the body; every other record and the length are unchanged; with no match the table is unchanged |
| `Table.FindAfterUpdate` | routes/games.js:133-135 | after an update that keeps the id, lookup returns the old record merged with the body |
| `Table.UpdateWithoutMatch` | routes/games.js:133 | an update of an id that no record answers to changes nothing |
| `Table.UpdateIdempotent` | routes/games.js:131-135 | repeating an update whose body keeps the id changes nothing more |
| `Table.CountMatchesReplace` | routes/games.js:133 | replacing one record changes the match count by what left and what came in |
| `Table.UpdateCanRename` | routes/games.js:133-135 | a body `id` that differs from the path id leaves one record fewer answering to the path id |
| `GameStore.Store.constructor` | index.js:16 | the table is the saved one, or empty when none was saved |
| `GameStore.Store.Push` | routes/games.js:98 | one record appended at the end; every earlier record keeps its position |
| `GameStore.Store.IndexOf` | routes/games.js:133 | the scan returns exactly the first matching position |
| `GameStore.Store.Assign` | routes/games.js:133 | the new table is the in-place merge into the first matching record |
| `GameStore.Store.Remove` | routes/games.js:176 | the new table is the old one without the matching records, in order |
| `Routes.SegmentMatches` | routes/games.js:56-248 | a literal segment accepts exactly its own text (case-sensitively, see Left out); `:id` accepts exactly the non-empty segments |
| `Routes.RouteMatches` | routes/games.js:56-248 | a match has the route's verb and as many segments as its pattern; each literal is matched by its text and each `:id` by a non-empty segment |
| `Routes.FirstRoute` | routes/games.js:56-248 | the chosen route matches the request, and no route registered before it does; none is chosen only when nothing matches |
| `Routes.FirstRouteIs` | routes/games.js:56-248 | a matching route with no earlier match is the one chosen |
| `Routes.Dispatch` | routes/games.js:56-248 | a request falls through exactly when no route of the table matches it; otherwise the callback chosen is the first matching route's callback |
| `Routes.Resolve` | routes/games.js:56-248 | the games router falls through to a 404 exactly when none of its twelve routes matches; otherwise it runs the first matching route's callback |
| `Routes.PathId` | routes/games.js:62 | the last path segment, which with `Routes.ParamIsLast` is `req.params.id` for every route that takes one |
| `Routes.ParamIsLast` | routes/games.js:56-248 | every registered pattern has its `:id` parameter as its last segment |
| `Routes.ShadowedRoutesUnreachable` | routes/games.js:56-248 | the registrations of `GET /new`, the second `GET /` and the second `GET /:id` are never chosen |
| `Routes.PagesNeverServed` | routes/games.js:236-248 | the `newGame` and `gameDetail` views are never rendered |
| `Routes.GetNewIsLookup` | routes/games.js:61-65 | `GET /games/new` runs the JSON lookup with id "new" |
| `Routes.PostNewIsFormCreate` | routes/games.js:222 | `POST /games/new` reaches the form-create callback |
| `Routes.OneSegmentById` | routes/games.js:61 | a one-segment GET, PUT or DELETE is served by its `/:id` route |
| `Routes.GetDeleteRoute` | routes/games.js:202 | `GET /games/delete/:id` is not captured by `/:id` |
| `Routes.PostEditRoute` | routes/games.js:207 | `POST /games/edit/:id` reaches the edit-and-redirect callback |
| `Routes.GetEditRoute` | routes/games.js:217 | `GET /games/edit/:id` reaches the edit page, past `/:id` and `/delete/:id` |
| `Routes.TwoSegmentsUnrouted` | routes/games.js:131-179 | PUT and DELETE with two segments match no route |
| `Routes.InsertUnmatched` | routes/games.js:56-248 | inserting a route that does not match a request leaves that request's callback unchanged |
| `Routes.IntendedGetNewIsForm` | routes/games.js:236-238 | with `GET /new` registered before `GET /:id`, `GET /games/new` renders the new-game form |
| `Routes.IntendedOrderElsewhereUnchanged` | routes/games.js:56-248 | that reordering changes the callback of no other request |
| `Handlers.BodyOf` | routes/games.js:64 | a missing record gives an empty body; a found one is sent as is |
| `Handlers.InsertGame` | routes/games.js:224-228 | an undeclared size name throws before `push` and leaves the table unchanged; a declared one appends exactly the built record |
| `Handlers.ListGames` | routes/games.js:56-59 | the index view receives the whole table, in order, and nothing changes |
| `Handlers.ShowGame` | routes/games.js:61-65 | 200; the body is empty exactly when no record answers to the id, else it is the first such record |
| `Handlers.CreateGame` | routes/games.js:92-104 | appends exactly the built record at the end and answers 201 with it |
| `Handlers.UpdateGame` | routes/games.js:131-141 | merges into the first matching record only, then answers 200 with what a lookup of the path id now finds |
| `Handlers.DeleteGame` | routes/games.js:175-179 | removes every matching record, keeping order, and answers 200 "OK" |
| `Handlers.DeleteGameAndRedirect` | routes/games.js:202-205 | the same removal, then a 302 redirect to `/games` |
| `Handlers.EditGameAndRedirect` | routes/games.js:207-215 | the same merge as PUT, then a 302 redirect to `/games` |
| `Handlers.ShowEditForm` | routes/games.js:217-220 | the `editGame` view receives the lookup result; nothing changes |
| `Handlers.CreateGameFromForm` | routes/games.js:222-234 | as written: always 500 and the table unchanged |
| `Handlers.CreateGameFromFormIntended` | routes/games.js:222-234 | with the declared `idLenght`: appends the built record and redirects to `/games` |
| `Handlers.ShowNewForm` | routes/games.js:236-238 | renders the `newGame` view with no data |
| `Handlers.ShowGameDetail` | routes/games.js:245-248 | the `gameDetail` view receives the lookup result; nothing changes |
| `Handlers.Serve` | routes/games.js:56-248 | an unmatched request gets a 404; every other request gets the answer of the callback registered first for it (status, body, redirect or view); only the create, update and delete callbacks change the table, each as its specification says; `POST /new` answers 500 |
| `Handlers.GetNewRequest` | routes/games.js:61-65 | `GET /games/new` through the router answers 200 with the lookup of id "new" and leaves the table unchanged |
| `Handlers.CreateThenShow` | routes/games.js:92-99 | create then look up the fresh token: 201 and then 200 with the same record |
| `Handlers.DeleteTwice` | routes/games.js:175-179 | two deletes both answer 200 "OK"; the second changes nothing; a later lookup is empty |

## Left out

- HTTP and Express plumbing: request parsing, headers, content negotiation and response encoding. A response is reduced to its status and body, its redirect, or its view name.
- View rendering (`index`, `editGame`, `newGame`, `gameDetail`): only the view name and its data are modelled.
- lowdb persistence: `write()` serialises the whole document to `db.json`. Reading `db.json` at start-up is the `saved` parameter of `Store`'s constructor.
- Write failures: a failed `write()` is the only way the `catch` blocks of `POST /games` (routes/games.js:100-103), `PUT /games/:id` (137-140) and `POST /games/edit/:id` (211-214) could be reached, so those 500 paths are not modelled. A failed write after `push` or `assign` would leave the in-memory table changed.
- Write failures in `DELETE /games/:id` (line 176) and `GET /games/delete/:id` (line 203) are not caught there and would reach Express's error handler; not modelled.
- The `console.error` logging in the `catch` blocks (lines 101, 212, 231) is output only and is dropped.
- `nanoid`'s randomness and alphabet: the token is a parameter of length 8. Nothing checks that it is unique, so the round-trip lemmas require that it is.
- JSON numbers are kept as `real` values; floating point is not modelled. A JSON array body is represented by its index-keyed object, the same shape the spread and `assign` produce.
- `Routes.RouteMatches`: literal segments are compared case-sensitively. Express matches case-insensitively by default. HEAD requests, query strings, percent-decoding and trailing slashes are also left out. A path is its list of non-empty segments below `/games`.
- Everything in `index.js` except the table initialisation: CORS, request logging, the API documentation page and `listen`.
- The API documentation comments in `routes/games.js`: they describe 404 answers that the code never produces.
- Concurrency between requests: each request is modelled as running to completion before the next one starts.

## Findings

| source | as written | input that shows it | evidently intended | confidence | as-written member | corrected member |
|---|---|---|---|---|---|---|
| routes/games.js:225 | `nanoid(idLength)` reads an undeclared name (the constant at line 5 is `idLenght`), so a ReferenceError is thrown before `push` | any `POST /games/new` | append the record and redirect to `/games` | high, not executed | `Handlers.CreateGameFromForm` | `Handlers.CreateGameFromFormIntended` |
| routes/games.js:94-97 | `{ id: nanoid(idLenght), ...req.body }` lets a body `id` replace the generated id, so the created record is not found under its token | `POST /games` with body `{"id": "chess"}` | the generated id always kept | medium, not executed | `Table.CreateLookupMissesWithBodyId` | `Table.FindAfterCreateWithGeneratedId` |
| routes/games.js:236 | `GET /new` is registered after `GET /:id` (line 61), so the lookup serves it with id "new" | `GET /games/new` | render the new-game form | medium, not executed | `Routes.GetNewIsLookup` | `Routes.IntendedGetNewIsForm` |

The handlers and `Serve` follow the code as written. The corrected members
sit beside them and are proved separately.
