/**
  The Server (models/dap-server.js): the aggregate route table built from
  registered Routes and static mounts, the server-wide middleware, the registry
  of Routes by base path, and the lifecycle of the one listener.

  In the source a Server is a Route (it extends the Route class): its own
  table, middleware, listener and prefix are the inherited Route fields, and
  `server.get(...)` registers into the aggregate table. Here that inherited
  part is the Route object `base`, and handlers the Server registers itself are
  owned by `base`.
*/
module DapServer {
  import opened Chain
  import opened DapRoute

  /** The calls a Server makes into the host runtime, in the order it makes them. */
  datatype HostCall =
    | Serve(port: nat)          // the host starts a listener on `port`
    | Stop(port: nat)           // the host stops the listener on `port`, draining it
    | Callback(name: string)    // the caller's ready callback runs

  /** What a listener does with one request. */
  datatype Reply =
    | Handled(outcome: Outcome)   // a method handler ran
    | Static(asset: Asset)        // a statically mounted value was served
    | NotFound(resp: Response)    // the fallback handler answered

  /** The fallback handler's response. */
  const NotFoundResponse: Response := Response(404, "Not Found", map[])

  /** The outcome of the loader a static mount calls. */
  datatype Load = Loaded(asset: Asset) | LoadFailed(reason: string)

  /**
    `Object.assign(target, source)`: every path of `source` takes the source's
    whole entry, replacing whatever `target` had there (no per-method merge);
    every other path of `target` keeps its entry.
  */
  function Assign(target: map<string, Entry>, source: map<string, Entry>): (r: map<string, Entry>)
    ensures r.Keys == target.Keys + source.Keys
    ensures forall k :: k in source ==> r[k] == source[k]
    ensures forall k :: k in target && k !in source ==> r[k] == target[k]
  {
    target + source
  }

  /** The Routes whose handlers appear in `table`. */
  function Owners(table: map<string, Entry>): set<Route>
  {
    set k, m | k in table && table[k].Bundle? && m in table[k].slots :: table[k].slots[m].owner
  }

  /** The table has something to serve for `m` at `path`. */
  predicate Matches(table: map<string, Entry>, path: string, m: Method)
  {
    path in table && (table[path].Mounted? || m in table[path].slots)
  }

  /**
    How a listener answers a request for `path` with method `m`: by exact key
    lookup in its table; a path or a method with no entry falls through to the
    fallback, which answers 404 "Not Found" (a known path with an unbound method
    also gets 404, not 405).
  */
  function Dispatch(l: Listener, path: string, m: Method, req: Request): (r: Reply)
    reads Owners(l.table)
    ensures r.NotFound? <==> !Matches(l.table, path, m)
    ensures r.NotFound? ==> r.resp.status == 404 && r.resp.body == "Not Found"
    ensures r.Static? <==> path in l.table && l.table[path].Mounted?
    ensures r.Static? ==> r.asset == l.table[path].asset
  {
    if path in l.table then
      match l.table[path]
      case Mounted(asset) => Static(asset)
      case Bundle(slots) =>
        if m in slots then
          var h := slots[m];
          assert h.owner in Owners(l.table);
          Handled(h.owner.Handle(h.callSite, req))
        else NotFound(NotFoundResponse)
    else NotFound(NotFoundResponse)
  }

  /** Listeners started minus listeners stopped, over a log of host calls. */
  function Live(log: seq<HostCall>): int
  {
    if log == [] then 0
    else
      var last := log[|log| - 1];
      Live(log[..|log| - 1]) + (if last.Serve? then 1 else if last.Stop? then -1 else 0)
  }

  lemma LiveAppend(log: seq<HostCall>, c: HostCall)
    ensures Live(log + [c]) == Live(log) + (if c.Serve? then 1 else if c.Stop? then -1 else 0)
  {
    assert (log + [c])[..|log|] == log;
  }

  /** A restart stops one listener and starts one: the number of live listeners is unchanged. */
  lemma LiveRestart(log: seq<HostCall>, p: nat)
    ensures Live(log + [Stop(p), Serve(p)]) == Live(log)
  {
    LiveAppend(log, Stop(p));
    LiveAppend(log + [Stop(p)], Serve(p));
    assert log + [Stop(p)] + [Serve(p)] == log + [Stop(p), Serve(p)];
  }

  class Server {
    /** The Route part of the Server: aggregate table, global middleware, listener, prefix. */
    const base: Route
    /** Registered Routes by base path. */
    var serverRoutes: map<string, Route>
    /** The keys of `serverRoutes` in insertion order (the iteration order of the source's Map). */
    var order: seq<string>
    /** The calls made into the host runtime so far. */
    var log: seq<HostCall>

    /**
      The registry is keyed by each Route's own base path, so no Route is
      registered twice; the Server's own Route part is not among them; `order`
      lists each key exactly once.
    */
    predicate Valid()
      reads this`serverRoutes, this`order
    {
      && base.baseUrl == ""
      && base !in serverRoutes.Values
      && (forall k :: k in serverRoutes ==> serverRoutes[k].baseUrl == k)
      && (forall i, j :: 0 <= i < j < |order| ==> order[i] != order[j])
      && (forall k :: k in serverRoutes ==> k in order)
      && (forall i :: 0 <= i < |order| ==> order[i] in serverRoutes)
    }

    /** At most one listener is live, and it is the one the Server holds. */
    predicate SingleListener()
      reads this, base
    {
      Live(log) == if base.server.Some? then 1 else 0
    }

    constructor ()
      ensures Valid() && SingleListener()
      ensures fresh(base) && base.routes == map[] && base.middleware == []
      ensures base.server == None && base.serverBase == ""
      ensures serverRoutes == map[] && order == [] && log == []
    {
      base := new Route("");
      serverRoutes := map[];
      order := [];
      log := [];
    }

    /**
      `use(fn)` with a middleware function: appended to the Server's own list,
      put in front of the middleware of every Route registered so far; no
      restart, so tables, registry and listener stay as they are.
    */
    method UseMiddleware(fn: Middleware)
      requires Valid()
      modifies base`middleware, serverRoutes.Values`middleware
      ensures base.middleware == old(base.middleware) + [fn]
      ensures forall r :: r in serverRoutes.Values ==> r.middleware == [fn] + old(r.middleware)
    {
      base.middleware := base.middleware + [fn];
      var i := 0;
      while i < |order|
        invariant 0 <= i <= |order|
        invariant base.middleware == old(base.middleware) + [fn]
        invariant forall j :: 0 <= j < i ==>
                    serverRoutes[order[j]].middleware == [fn] + old(serverRoutes[order[j]].middleware)
        invariant forall j :: i <= j < |order| ==>
                    serverRoutes[order[j]].middleware == old(serverRoutes[order[j]].middleware)
      {
        serverRoutes[order[i]].AddMiddleware(fn);
        i := i + 1;
      }
      forall r | r in serverRoutes.Values
        ensures r.middleware == [fn] + old(r.middleware)
      {
        var k :| k in serverRoutes && serverRoutes[k] == r;
        var j :| 0 <= j < |order| && order[j] == k;
      }
    }

    /**
      `listen(port, fn)`: a listener on `port` serving the current table (with
      the 404 fallback), handed to every registered Route, then the callback.
    */
    method Listen(port: nat, onReady: Option<string>)
      requires Valid()
      modifies this`log, base`server, serverRoutes.Values`server
      ensures base.server == Some(Listener(port, base.routes))
      ensures forall r :: r in serverRoutes.Values ==> r.server == base.server
      ensures log == old(log) + [Serve(port)] + (if onReady.Some? then [Callback(onReady.value)] else [])
      ensures Live(log) == old(Live(log)) + 1
      ensures old(base.server).None? && old(SingleListener()) ==> SingleListener()
    {
      var listener := Listener(port, base.routes);
      base.server := Some(listener);
      LiveAppend(log, Serve(port));
      log := log + [Serve(port)];
      var i := 0;
      while i < |order|
        invariant 0 <= i <= |order|
        invariant base.server == Some(listener)
        invariant log == old(log) + [Serve(port)]
        invariant forall j :: 0 <= j < i ==> serverRoutes[order[j]].server == Some(listener)
      {
        assert serverRoutes[order[i]] in serverRoutes.Values;
        serverRoutes[order[i]].SetServer(listener);
        i := i + 1;
      }
      forall r | r in serverRoutes.Values
        ensures r.server == Some(listener)
      {
        var k :| k in serverRoutes && serverRoutes[k] == r;
        var j :| 0 <= j < |order| && order[j] == k;
      }
      if onReady.Some? {
        LiveAppend(log, Callback(onReady.value));
        log := log + [Callback(onReady.value)];
        assert log == old(log) + [Serve(port)] + [Callback(onReady.value)];
      }
    }

    /**
      `restart()`: nothing happens while no listener exists; otherwise the
      listener is stopped first and a new one is started on the same port with
      the current table, so the number of live listeners does not change.
    */
    method Restart()
      requires Valid()
      modifies this`log, base`server, serverRoutes.Values`server
      ensures old(base.server).None? ==>
                log == old(log) && base.server == None &&
                forall r :: r in serverRoutes.Values ==> r.server == old(r.server)
      ensures old(base.server).Some? ==>
                var p := old(base.server).value.port;
                log == old(log) + [Stop(p), Serve(p)] &&
                base.server == Some(Listener(p, base.routes)) &&
                forall r :: r in serverRoutes.Values ==> r.server == base.server
      ensures Live(log) == old(Live(log))
      ensures old(SingleListener()) ==> SingleListener()
    {
      if base.server.Some? {
        var p := base.server.value.port;
        LiveAppend(log, Stop(p));
        log := log + [Stop(p)];
        Listen(p, None);
      }
    }

    /**
      `use(route)`: the route's table is assigned path by path into the
      aggregate table, the route is registered under its base path (replacing a
      Route registered there before, and without applying the global middleware
      added so far), then the listener is restarted. The restart relinks only
      the Routes registered now: a Route displaced by one with the same base
      path keeps its listener handle.
    */
    method UseRoute(route: Route)
      requires Valid() && route != base
      modifies this, base`routes, base`server, serverRoutes.Values`server, route`server
      ensures Valid()
      ensures base.routes == Assign(old(base.routes), route.routes)
      ensures serverRoutes == old(serverRoutes)[route.baseUrl := route]
      ensures order == if route.baseUrl in old(serverRoutes) then old(order) else old(order) + [route.baseUrl]
      ensures old(base.server).None? ==> log == old(log) && base.server == None
      ensures old(base.server).None? ==>
                route.server == old(route.server) &&
                forall r :: r in old(serverRoutes.Values) ==> r.server == old(r.server)
      ensures forall r :: r in old(serverRoutes.Values) && r !in serverRoutes.Values ==> r.server == old(r.server)
      ensures old(base.server).Some? ==>
                var p := old(base.server).value.port;
                log == old(log) + [Stop(p), Serve(p)] &&
                base.server == Some(Listener(p, base.routes)) &&
                forall r :: r in serverRoutes.Values ==> r.server == base.server
      ensures Live(log) == old(Live(log))
      ensures old(SingleListener()) ==> SingleListener()
    {
      Install(route);
      Restart();
    }

    /**
      The first half of `use(route)`: the route's table is assigned into the
      aggregate table and the route is registered under its base path. No
      listener handle changes and nothing is logged.
    */
    method Install(route: Route)
      requires Valid() && route != base
      modifies this`serverRoutes, this`order, base`routes
      ensures Valid()
      ensures base.routes == Assign(old(base.routes), route.routes)
      ensures serverRoutes == old(serverRoutes)[route.baseUrl := route]
      ensures order == if route.baseUrl in old(serverRoutes) then old(order) else old(order) + [route.baseUrl]
    {
      base.routes := Assign(base.routes, route.routes);
      if route.baseUrl !in serverRoutes {
        order := order + [route.baseUrl];
      }
      serverRoutes := serverRoutes[route.baseUrl := route];
    }

    /**
      `static(path, file)`: when the loader fails nothing changes; otherwise
      the loaded value is installed at `path`, the other paths keep their
      entries, and the listener is restarted.
    */
    method StaticMount(path: string, load: Load)
      requires Valid()
      modifies this`log, base`routes, base`server, serverRoutes.Values`server
      ensures load.LoadFailed? ==>
                base.routes == old(base.routes) && base.server == old(base.server) && log == old(log)
      ensures load.Loaded? ==> base.routes == old(base.routes)[path := Mounted(load.asset)]
      ensures load.Loaded? && old(base.server).Some? ==>
                var p := old(base.server).value.port;
                log == old(log) + [Stop(p), Serve(p)] &&
                base.server == Some(Listener(p, base.routes)) &&
                forall r :: r in serverRoutes.Values ==> r.server == base.server
      ensures load.LoadFailed? || old(base.server).None? ==>
                forall r :: r in serverRoutes.Values ==> r.server == old(r.server)
      ensures old(base.server).None? ==> log == old(log) && base.server == None
      ensures Live(log) == old(Live(log))
      ensures old(SingleListener()) ==> SingleListener()
    {
      if load.Loaded? {
        base.routes := base.routes[path := Mounted(load.asset)];
        Restart();
      }
    }
  }
}
