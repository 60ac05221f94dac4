/**
 * Route resolution in the games router (mounted at `/games`). Express tries
 * the routes in the order they were registered and runs the first whose verb
 * and path pattern match; later registrations of the same request are never
 * reached.
 */
module Routes {
  import opened Wrappers

  datatype Verb = Get | Post | Put | Delete

  /** One segment of a path pattern: a literal, or a `:id` parameter. */
  datatype Segment = Lit(text: string) | Param

  /** The route callbacks of the games router. */
  datatype Handler =
    | ListPage        // renders the `index` view with every game
    | ShowJson        // sends the record with the path id
    | CreateJson      // creates a record, answers 201
    | UpdateJson      // merges the body into a record, answers 200
    | DeleteJson      // removes records, answers 200
    | DeleteRedirect  // removes records, redirects to /games
    | EditRedirect    // merges the body into a record, redirects to /games
    | EditPage        // renders the `editGame` view
    | CreateRedirect  // creates a record, redirects to /games
    | NewPage         // renders the `newGame` view
    | DetailPage      // renders the `gameDetail` view

  datatype Route = Route(verb: Verb, pattern: seq<Segment>, handler: Handler)

  /** The routes in registration order; a path is relative to the `/games` mount point. */
  const Registered: seq<Route> := [
    Route(Get, [], ListPage),                             // 0
    Route(Get, [Param], ShowJson),                        // 1
    Route(Post, [], CreateJson),                          // 2
    Route(Put, [Param], UpdateJson),                      // 3
    Route(Delete, [Param], DeleteJson),                   // 4
    Route(Get, [Lit("delete"), Param], DeleteRedirect),   // 5
    Route(Post, [Lit("edit"), Param], EditRedirect),      // 6
    Route(Get, [Lit("edit"), Param], EditPage),           // 7
    Route(Post, [Lit("new")], CreateRedirect),            // 8
    Route(Get, [Lit("new")], NewPage),                    // 9
    Route(Get, [], ListPage),                             // 10
    Route(Get, [Param], DetailPage)                       // 11
  ]

  /** A literal matches itself; a parameter matches any non-empty segment. */
  predicate SegmentMatches(segment: Segment, part: string)
    ensures segment.Lit? ==> (SegmentMatches(segment, part) <==> part == segment.text)
    ensures segment.Param? ==> (SegmentMatches(segment, part) <==> |part| > 0)
  {
    match segment
    case Lit(text) => part == text
    case Param => part != ""
  }

  /** Same verb, same number of segments, and each segment accepted by its pattern segment. */
  predicate RouteMatches(route: Route, verb: Verb, path: seq<string>)
    ensures RouteMatches(route, verb, path) ==> route.verb == verb && |path| == |route.pattern|
    ensures RouteMatches(route, verb, path) ==>
              forall i :: 0 <= i < |path| && route.pattern[i].Lit? ==> path[i] == route.pattern[i].text
    ensures RouteMatches(route, verb, path) ==>
              forall i :: 0 <= i < |path| && route.pattern[i].Param? ==> path[i] != ""
  {
    && route.verb == verb
    && |route.pattern| == |path|
    && forall i :: 0 <= i < |path| ==> SegmentMatches(route.pattern[i], path[i])
  }

  /** The first route of `table`, from position `from` on, that matches the request. */
  function FirstRoute(table: seq<Route>, verb: Verb, path: seq<string>, from: nat := 0): (k: Option<nat>)
    requires from <= |table|
    ensures k.Some? ==> from <= k.value < |table| && RouteMatches(table[k.value], verb, path)
    ensures k.Some? ==> forall j :: from <= j < k.value ==> !RouteMatches(table[j], verb, path)
    ensures k.None? ==> forall j :: from <= j < |table| ==> !RouteMatches(table[j], verb, path)
    decreases |table| - from
  {
    if from == |table| then None
    else if RouteMatches(table[from], verb, path) then Some(from)
    else FirstRoute(table, verb, path, from + 1)
  }

  /** A matching route with no matching route before it is the one chosen. */
  lemma FirstRouteIs(table: seq<Route>, verb: Verb, path: seq<string>, k: nat)
    requires k < |table| && RouteMatches(table[k], verb, path)
    requires forall j :: 0 <= j < k ==> !RouteMatches(table[j], verb, path)
    ensures FirstRoute(table, verb, path) == Some(k)
  {
    assert FirstRoute(table, verb, path).Some?;
  }

  /**
   * The callback a table selects for a request: that of the first matching
   * route. None falls through to Express's 404.
   */
  function Dispatch(table: seq<Route>, verb: Verb, path: seq<string>): (h: Option<Handler>)
    ensures h.None? <==> forall j :: 0 <= j < |table| ==> !RouteMatches(table[j], verb, path)
    ensures h.Some? ==> exists j :: 0 <= j < |table| && table[j].handler == h.value
                                    && RouteMatches(table[j], verb, path)
                                    && forall i :: 0 <= i < j ==> !RouteMatches(table[i], verb, path)
  {
    match FirstRoute(table, verb, path)
    case None => None
    case Some(k) => Some(table[k].handler)
  }

  /** The games router as registered. */
  function Resolve(verb: Verb, path: seq<string>): (h: Option<Handler>)
    ensures h.None? <==> forall j :: 0 <= j < |Registered| ==> !RouteMatches(Registered[j], verb, path)
    ensures h.Some? ==> exists j :: 0 <= j < |Registered| && Registered[j].handler == h.value
                                    && RouteMatches(Registered[j], verb, path)
                                    && forall i :: 0 <= i < j ==> !RouteMatches(Registered[i], verb, path)
  {
    Dispatch(Registered, verb, path)
  }

  /** The parameter of a `/:id` or `/<word>/:id` request: its last segment. */
  function PathId(path: seq<string>): (id: string)
    ensures |path| > 0 ==> id == path[|path| - 1]
  {
    if |path| == 0 then "" else path[|path| - 1]
  }

  /**
   * Every registered pattern has its `:id` parameter, if any, as its last
   * segment, so `PathId` is the parameter of every route that takes one.
   */
  lemma ParamIsLast()
    ensures forall j, i ::
              (0 <= j < |Registered| && 0 <= i < |Registered[j].pattern| && Registered[j].pattern[i] == Param)
              ==> i == |Registered[j].pattern| - 1
  {
  }

  // ---- consequences of first-registered-wins ---------------------------------

  /**
   * The second `GET /`, the second `GET /:id` and `GET /new` are never
   * chosen: an earlier route matches every request they match.
   */
  lemma ShadowedRoutesUnreachable(verb: Verb, path: seq<string>)
    ensures FirstRoute(Registered, verb, path) != Some(9)
    ensures FirstRoute(Registered, verb, path) != Some(10)
    ensures FirstRoute(Registered, verb, path) != Some(11)
  {
    if RouteMatches(Registered[9], verb, path) || RouteMatches(Registered[11], verb, path) {
      assert RouteMatches(Registered[1], verb, path);
    }
    if RouteMatches(Registered[10], verb, path) {
      assert RouteMatches(Registered[0], verb, path);
    }
  }

  /** The views `newGame` and `gameDetail` are never served. */
  lemma PagesNeverServed(verb: Verb, path: seq<string>)
    ensures Resolve(verb, path) != Some(NewPage)
    ensures Resolve(verb, path) != Some(DetailPage)
  {
    ShadowedRoutesUnreachable(verb, path);
    var k := FirstRoute(Registered, verb, path);
    if k.Some? {
      assert k.value != 9 && k.value != 11;
      assert Registered[k.value].handler != NewPage && Registered[k.value].handler != DetailPage;
    }
  }

  /** `GET /games/new` is served by the JSON lookup, with id "new". */
  lemma GetNewIsLookup()
    ensures Resolve(Get, ["new"]) == Some(ShowJson)
    ensures PathId(["new"]) == "new"
  {
    FirstRouteIs(Registered, Get, ["new"], 1);
  }

  /** `POST /games/new` reaches the form-create callback. */
  lemma PostNewIsFormCreate()
    ensures Resolve(Post, ["new"]) == Some(CreateRedirect)
  {
    FirstRouteIs(Registered, Post, ["new"], 8);
  }

  /** A one-segment request with GET, PUT or DELETE is served by its `/:id` route. */
  lemma OneSegmentById(id: string)
    requires id != ""
    ensures Resolve(Get, [id]) == Some(ShowJson)
    ensures Resolve(Put, [id]) == Some(UpdateJson)
    ensures Resolve(Delete, [id]) == Some(DeleteJson)
  {
    FirstRouteIs(Registered, Get, [id], 1);
    FirstRouteIs(Registered, Put, [id], 3);
    FirstRouteIs(Registered, Delete, [id], 4);
  }

  /** `GET /games/delete/:id` is not captured by `/:id`: it reaches the delete-and-redirect route. */
  lemma GetDeleteRoute(id: string)
    requires id != ""
    ensures Resolve(Get, ["delete", id]) == Some(DeleteRedirect)
  {
    FirstRouteIs(Registered, Get, ["delete", id], 5);
  }

  /** `POST /games/edit/:id` reaches the edit-and-redirect route. */
  lemma PostEditRoute(id: string)
    requires id != ""
    ensures Resolve(Post, ["edit", id]) == Some(EditRedirect)
  {
    FirstRouteIs(Registered, Post, ["edit", id], 6);
  }

  /** `GET /games/edit/:id` reaches the edit page, past `/:id` and `/delete/:id`. */
  lemma GetEditRoute(id: string)
    requires id != ""
    ensures Resolve(Get, ["edit", id]) == Some(EditPage)
  {
    var path := ["edit", id];
    assert !RouteMatches(Registered[5], Get, path) by {
      assert "delete"[0] != "edit"[0];
      assert !SegmentMatches(Registered[5].pattern[0], path[0]);
    }
    FirstRouteIs(Registered, Get, path, 7);
  }

  /** No route takes two segments with PUT or DELETE: such requests fall through to a 404. */
  lemma TwoSegmentsUnrouted(verb: Verb, first: string, id: string)
    requires verb == Put || verb == Delete
    ensures Resolve(verb, [first, id]) == None
  {
  }

  // ---- the registration order evidently intended -----------------------------

  /** The same routes with `GET /new` registered ahead of `GET /:id`. */
  const IntendedOrder: seq<Route> := Registered[..1] + [Registered[9]] + Registered[1..9] + Registered[10..]

  /** Putting in front a route that does not match a request changes nothing for it. */
  lemma {:induction false} InsertUnmatched(a: seq<Route>, r: Route, b: seq<Route>, verb: Verb, path: seq<string>)
    requires !RouteMatches(r, verb, path)
    ensures Dispatch(a + [r] + b, verb, path) == Dispatch(a + b, verb, path)
  {
    var with, without := a + [r] + b, a + b;
    assert forall j :: 0 <= j < |a| ==> with[j] == without[j];
    assert forall j :: |a| <= j < |without| ==> with[j + 1] == without[j];
    assert with[|a|] == r;
    match FirstRoute(without, verb, path)
    case None =>
      forall j | 0 <= j < |with|
        ensures !RouteMatches(with[j], verb, path)
      {
        if j > |a| { assert with[j] == without[j - 1]; }
      }
    case Some(k) =>
      if k < |a| {
        FirstRouteIs(with, verb, path, k);
      } else {
        forall j | 0 <= j < k + 1
          ensures !RouteMatches(with[j], verb, path)
        {
          if j > |a| { assert with[j] == without[j - 1]; }
        }
        FirstRouteIs(with, verb, path, k + 1);
      }
  }

  /** With the intended order, `GET /games/new` shows the new-game form. */
  lemma IntendedGetNewIsForm()
    ensures Dispatch(IntendedOrder, Get, ["new"]) == Some(NewPage)
  {
    assert IntendedOrder[0] == Registered[0] && IntendedOrder[1] == Registered[9];
    assert !RouteMatches(IntendedOrder[0], Get, ["new"]);
    FirstRouteIs(IntendedOrder, Get, ["new"], 1);
  }

  /** The reordering changes no other request: everything else resolves as registered. */
  lemma IntendedOrderElsewhereUnchanged(verb: Verb, path: seq<string>)
    requires verb != Get || path != ["new"]
    ensures Dispatch(IntendedOrder, verb, path) == Resolve(verb, path)
  {
    var a, b := Registered[..1], Registered[1..9] + Registered[10..];
    assert IntendedOrder == a + [Registered[9]] + b;
    InsertUnmatched(a, Registered[9], b, verb, path);
    // dropping route 9 from Registered does not matter either
    assert Registered == Registered[..9] + [Registered[9]] + Registered[10..];
    InsertUnmatched(Registered[..9], Registered[9], Registered[10..], verb, path);
    assert a + b == Registered[..9] + Registered[10..];
  }

}
