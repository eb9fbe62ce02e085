// The echo-based router tree: a root router over one echo instance and
// sub-routers keyed by the prefix they were created with, each registering
// routes on its own echo group.

module Router {

  datatype Method = GET | POST | PUT | PATCH | DELETE

  /** An echo handler or route middleware, identified abstractly. */
  datatype Handler = Handler(id: nat)
  datatype RouteMiddleware = RouteMiddleware(id: nat)

  /** echo's route table is keyed by method and full path. */
  datatype RouteKey = RouteKey(verb: Method, path: string)
  datatype RouteEntry = RouteEntry(handler: Handler, middlewares: seq<RouteMiddleware>)

  /** The echo instance: its route table and the two start-up flags the application sets. */
  class Echo {
    var routes: map<RouteKey, RouteEntry>
    var hideBanner: bool
    var hidePort: bool

    constructor ()
      ensures routes == map[] && !hideBanner && !hidePort
    {
      routes := map[];
      hideBanner := false;
      hidePort := false;
    }
  }

  /** An echo group: a path prefix on one echo instance. */
  class Group {
    const echo: Echo
    const prefix: string

    constructor (echo: Echo, prefix: string)
      ensures this.echo == echo && this.prefix == prefix
    {
      this.echo := echo;
      this.prefix := prefix;
    }

    /** Group.Add: the route goes in under the group's prefix; a registration for the same key replaces it. */
    method Add(verb: Method, path: string, handler: Handler, middlewares: seq<RouteMiddleware>)
      modifies echo`routes
      ensures echo.routes == old(echo.routes)[RouteKey(verb, prefix + path) := RouteEntry(handler, middlewares)]
    {
      echo.routes := echo.routes[RouteKey(verb, prefix + path) := RouteEntry(handler, middlewares)];
    }
  }

  class Router {
    const echo: Echo
    const group: Group
    /** The application the router belongs to. */
    const app: object?
    const parent: Router?
    var subrouters: map<string, Router>

    /**
     * The tree shape the constructors keep: every sub-router points back to
     * this router, shares its echo and application, and extends this
     * router's prefix by its own key.
     */
    ghost predicate Valid()
      reads this, subrouters.Values
    {
      && group.echo == echo
      && forall p | p in subrouters ::
           && subrouters[p].parent == this
           && subrouters[p].echo == echo
           && subrouters[p].app == app
           && subrouters[p].group.echo == echo
           && subrouters[p].group.prefix == group.prefix + p
    }

    constructor (echo: Echo, group: Group, app: object?, parent: Router?)
      ensures this.echo == echo && this.group == group && this.app == app && this.parent == parent
      ensures subrouters == map[]
    {
      this.echo := echo;
      this.group := group;
      this.app := app;
      this.parent := parent;
      subrouters := map[];
    }

    /**
     * A child router at `route`: parent is this router, same echo and
     * application, the group extended by `route`, no children. It replaces
     * any earlier child under the same key.
     */
    method CreateSubrouter(route: string) returns (sr: Router)
      requires Valid()
      modifies this`subrouters
      ensures fresh(sr) && fresh(sr.group)
      ensures sr.parent == this && sr.echo == echo && sr.app == app && sr.subrouters == map[]
      ensures sr.group.echo == echo && sr.group.prefix == group.prefix + route
      ensures subrouters == old(subrouters)[route := sr]
      ensures Valid() && sr.Valid()
    {
      var g := new Group(group.echo, group.prefix + route);
      sr := new Router(echo, g, app, this);
      subrouters := subrouters[route := sr];
    }

    /** One registrar: exactly one route, on this router's group, with the middlewares in order. */
    method Register(verb: Method, route: string, handler: Handler, middlewares: seq<RouteMiddleware>)
      requires Valid()
      modifies echo`routes
      ensures echo.routes == old(echo.routes)[RouteKey(verb, group.prefix + route) := RouteEntry(handler, middlewares)]
    {
      group.Add(verb, route, handler, middlewares);
    }

    method Get(route: string, handler: Handler, middlewares: seq<RouteMiddleware>)
      requires Valid()
      modifies echo`routes
      ensures echo.routes == old(echo.routes)[RouteKey(GET, group.prefix + route) := RouteEntry(handler, middlewares)]
    {
      Register(GET, route, handler, middlewares);
    }

    method Post(route: string, handler: Handler, middlewares: seq<RouteMiddleware>)
      requires Valid()
      modifies echo`routes
      ensures echo.routes == old(echo.routes)[RouteKey(POST, group.prefix + route) := RouteEntry(handler, middlewares)]
    {
      Register(POST, route, handler, middlewares);
    }

    method Put(route: string, handler: Handler, middlewares: seq<RouteMiddleware>)
      requires Valid()
      modifies echo`routes
      ensures echo.routes == old(echo.routes)[RouteKey(PUT, group.prefix + route) := RouteEntry(handler, middlewares)]
    {
      Register(PUT, route, handler, middlewares);
    }

    method Patch(route: string, handler: Handler, middlewares: seq<RouteMiddleware>)
      requires Valid()
      modifies echo`routes
      ensures echo.routes == old(echo.routes)[RouteKey(PATCH, group.prefix + route) := RouteEntry(handler, middlewares)]
    {
      Register(PATCH, route, handler, middlewares);
    }

    method Delete(route: string, handler: Handler, middlewares: seq<RouteMiddleware>)
      requires Valid()
      modifies echo`routes
      ensures echo.routes == old(echo.routes)[RouteKey(DELETE, group.prefix + route) := RouteEntry(handler, middlewares)]
    {
      Register(DELETE, route, handler, middlewares);
    }
  }

  /**
   * CreateRouter: a fresh echo with banner and port hidden, its "" group,
   * and a root router with no parent and no children.
   */
  method CreateRoot(app: object?) returns (r: Router)
    ensures fresh(r) && fresh(r.echo) && fresh(r.group)
    ensures r.echo.hideBanner && r.echo.hidePort && r.echo.routes == map[]
    ensures r.group.echo == r.echo && r.group.prefix == ""
    ensures r.parent == null && r.app == app && r.subrouters == map[]
    ensures r.Valid()
  {
    var e := new Echo();
    e.hideBanner := true;
    e.hidePort := true;
    var g := new Group(e, "");
    r := new Router(e, g, app, null);
  }

  /**
   * The usage in the example program: a GET on "" of the "/api/v1"
   * sub-router is served at "/api/v1", and it is the only route.
   */
  method ApiExample(app: object?, h: Handler) returns (routes: map<RouteKey, RouteEntry>)
    ensures routes == map[RouteKey(GET, "/api/v1") := RouteEntry(h, [])]
  {
    var root := CreateRoot(app);
    var api := root.CreateSubrouter("/api/v1");
    assert api.Valid();
    api.Get("", h, []);
    assert "" + "/api/v1" + "" == "/api/v1";
    routes := root.echo.routes;
  }
}
