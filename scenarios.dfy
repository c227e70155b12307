/**
  Call sequences of the repository's own tests and examples, run against the
  model: each method builds a Server the way the test does and states what the
  listener answers.
*/
module Scenarios {
  import opened Chain
  import opened DapRoute
  import opened DapServer

  /** The logger middleware: records its start, calls `next`, records its end. */
  const Logger: Middleware := Around("logger-start", "logger-end")

  /** The custom-header middleware: sets X-Custom on whatever `next` returned. */
  const CustomHeader: Middleware := Stamp("X-Custom", "true")

  function Text(status: int, body: string): Response
  {
    Response(status, body, map[])
  }

  const HelloChain: seq<Middleware> := [Logger, CustomHeader, Reply(Text(200, "Hello World"))]
  const ByeChain: seq<Middleware> := [Logger, CustomHeader, Reply(Text(200, "Bye World"))]
  const OptionsChain: seq<Middleware> := [Reply(Text(204, ""))]

  /**
    Stands in for the echoJson handler of POST /test-mw. The source replies
    with a JSON document built from the request body; request bodies are not
    modelled, so this replies with the request field "body" instead.
  */
  const TestMwChain: seq<Middleware> := [Echo("body")]

  /**
    Stands in for the POST /api/echo handler of the sample Route. The source
    replies with a JSON document wrapping the parsed request body; request
    bodies are not modelled, so this replies with the request field "json".
  */
  const EchoChain: seq<Middleware> := [Echo("json")]

  /**
    The sample Route: GET and OPTIONS share /api/hello, GET /api/bye and
    POST /api/echo beside them.
  */
  method SampleRoute() returns (route: Route)
    ensures fresh(route) && route.baseUrl == "/api"
    ensures route.middleware == [] && route.server == None
    ensures route.routes == map[
              "/api/hello" := Bundle(map[GET := Handler(route, HelloChain), OPTIONS := Handler(route, OptionsChain)]),
              "/api/bye" := Bundle(map[GET := Handler(route, ByeChain)]),
              "/api/echo" := Bundle(map[POST := Handler(route, EchoChain)])]
  {
    route := new Route("/api");
    assert "" + "/api" + "/hello" == "/api/hello";
    assert "" + "/api" + "/bye" == "/api/bye";
    assert "" + "/api" + "/echo" == "/api/echo";
    route.Register(GET, "/hello", HelloChain);
    route.Register(GET, "/bye", ByeChain);
    route.Register(OPTIONS, "/hello", OptionsChain);
    assert route.routes == map[
      "/api/hello" := Bundle(map[GET := Handler(route, HelloChain), OPTIONS := Handler(route, OptionsChain)]),
      "/api/bye" := Bundle(map[GET := Handler(route, ByeChain)])];
    route.Register(POST, "/echo", EchoChain);
  }

  /** The sample chains run to completion: logger events nest around the handler, the header is set. */
  lemma SampleChains(req: Request)
    ensures Run(req, HelloChain, 0) ==
              Ok(Response(200, "Hello World", map["X-Custom" := "true"]), req, ["logger-start", "logger-end"])
    ensures Run(req, ByeChain, 0) ==
              Ok(Response(200, "Bye World", map["X-Custom" := "true"]), req, ["logger-start", "logger-end"])
    ensures Run(req, OptionsChain, 0) == Ok(Text(204, ""), req, [])
  {
    assert Run(req, HelloChain, 2) == Ok(Text(200, "Hello World"), req, []);
    assert Run(req, HelloChain, 1) == Ok(Response(200, "Hello World", map["X-Custom" := "true"]), req, []);
    assert ["logger-start"] + [] + ["logger-end"] == ["logger-start", "logger-end"];
    assert Run(req, ByeChain, 2) == Ok(Text(200, "Bye World"), req, []);
    assert Run(req, ByeChain, 1) == Ok(Response(200, "Bye World", map["X-Custom" := "true"]), req, []);
  }

  /**
    The setup of the server test before the server starts: the sample Route is
    used, then the Server registers POST /test-mw itself.
  */
  method SampleServerRoutes() returns (server: Server, sample: Route)
    ensures fresh(server) && fresh(server.base) && fresh(sample) && server.Valid()
    ensures server.serverRoutes == map["/api" := sample] && sample.middleware == []
    ensures server.base.routes ==
              sample.routes["/test-mw" := Bundle(map[POST := Handler(server.base, TestMwChain)])]
    ensures sample.routes == map[
              "/api/hello" := Bundle(map[GET := Handler(sample, HelloChain), OPTIONS := Handler(sample, OptionsChain)]),
              "/api/bye" := Bundle(map[GET := Handler(sample, ByeChain)]),
              "/api/echo" := Bundle(map[POST := Handler(sample, EchoChain)])]
  {
    server := new Server();
    sample := SampleRoute();
    server.UseRoute(sample);
    assert server.base.routes == sample.routes;
    assert "" + "" + "/test-mw" == "/test-mw";
    server.base.Register(POST, "/test-mw", TestMwChain);
  }

  /**
    The setup of the server test: the sample Route is used, the Server
    registers POST /test-mw itself, and the Server is started.
  */
  method StartSampleServer() returns (listener: Listener, sample: Route)
    ensures sample.server == Some(listener) && sample.middleware == []
    ensures listener.port == 4567
    ensures "/api/hello" in listener.table && "/api/bye" in listener.table && "/api/echo" in listener.table
    ensures listener.table["/api/hello"] ==
              Bundle(map[GET := Handler(sample, HelloChain), OPTIONS := Handler(sample, OptionsChain)])
    ensures listener.table["/api/bye"] == Bundle(map[GET := Handler(sample, ByeChain)])
    ensures "/not-found" !in listener.table
  {
    var server;
    server, sample := SampleServerRoutes();
    assert server.serverRoutes["/api"] == sample;
    assert sample in server.serverRoutes.Values;
    server.Listen(4567, Some("resolve"));
    listener := server.base.server.value;
  }

  /**
    The first requests of the server test: GET /api/hello runs the logger and
    the header middleware around the final handler, the requester address loses
    its IPv4-mapped prefix, and the OPTIONS handler registered at the same path
    keeps working beside it.
  */
  method SampleServerHello() returns (hello: Reply, options: Reply)
    ensures hello == Handled(Ok(Response(200, "Hello World", map["X-Custom" := "true"]),
                                Request("::ffff:127.0.0.1", Some("127.0.0.1"), map[]),
                                ["logger-start", "logger-end"]))
    ensures options.Handled? && options.outcome.Ok? && options.outcome.resp.status == 204
  {
    var listener, sample := StartSampleServer();
    var peer := MappedPrefix + "127.0.0.1";
    assert peer == "::ffff:127.0.0.1";
    StripMappedIPv4("127.0.0.1");
    var req := Request(peer, None, map[]);
    var resolved := Request(peer, Some("127.0.0.1"), map[]);
    assert sample.WithRequestIp(req) == resolved;
    SampleChains(resolved);
    assert sample.middleware + HelloChain == HelloChain;
    assert sample.middleware + OptionsChain == OptionsChain;
    assert sample.Handle(HelloChain, req) == Run(resolved, HelloChain, 0);
    assert sample.Handle(OptionsChain, req) == Run(resolved, OptionsChain, 0);
    var helloOut := Ok(Response(200, "Hello World", map["X-Custom" := "true"]), resolved, ["logger-start", "logger-end"]);
    assert sample.Handle(HelloChain, req) == helloOut;
    assert sample.Handle(OptionsChain, req) == Ok(Text(204, ""), resolved, []);
    var bundle := listener.table["/api/hello"];
    assert bundle.slots[GET] == Handler(sample, HelloChain);
    assert bundle.slots[OPTIONS] == Handler(sample, OptionsChain);
    hello := Dispatch(listener, "/api/hello", GET, req);
    assert hello == Handled(helloOut);
    options := Dispatch(listener, "/api/hello", OPTIONS, req);
  }

  /**
    The other requests of the server test: GET /api/bye answers Bye World with
    the header set, and an unknown path gets the fallback 404.
  */
  method SampleServerBye() returns (bye: Reply, missing: Reply)
    ensures bye.Handled? && bye.outcome.Ok? && bye.outcome.resp.body == "Bye World"
    ensures bye.outcome.resp.headers == map["X-Custom" := "true"]
    ensures missing == NotFound(NotFoundResponse)
  {
    var listener, sample := StartSampleServer();
    var req := Request("::ffff:127.0.0.1", None, map[]);
    var resolved := sample.WithRequestIp(req);
    SampleChains(resolved);
    assert sample.middleware + ByeChain == ByeChain;
    assert sample.Handle(ByeChain, req) == Run(resolved, ByeChain, 0);
    assert listener.table["/api/bye"].slots[GET] == Handler(sample, ByeChain);
    bye := Dispatch(listener, "/api/bye", GET, req);
    missing := Dispatch(listener, "/not-found", GET, req);
  }

  /**
    The fixtures' handlers build their replies as `Response("dogs")`,
    `Response("post dogs")` and `Response("ok")`, calling the constructor
    without `new`. These constants model the evident intent, a 200 response
    with that body; a host that rejects such a call would answer with an error
    instead.
  */
  const DogsGet: seq<Middleware> := [Reply(Text(200, "dogs"))]
  const DogsPost: seq<Middleware> := [Reply(Text(200, "post dogs"))]
  const RootGet: seq<Middleware> := [Reply(Text(200, "ok"))]

  /**
    Stands in for the GET /dogs/walk handler. The source replies with a JSON
    document of the request's own properties; here it replies with the request
    field "dog", since request objects are not modelled in full.
  */
  const WalkChain: seq<Middleware> := [Echo("dog")]

  /** The dogs Route: GET and POST share /dogs, GET /dogs/walk beside them. */
  method DogsRoute() returns (dogs: Route)
    ensures fresh(dogs) && dogs.baseUrl == "/dogs"
    ensures dogs.middleware == [] && dogs.server == None
    ensures dogs.routes == map[
              "/dogs" := Bundle(map[GET := Handler(dogs, DogsGet), POST := Handler(dogs, DogsPost)]),
              "/dogs/walk" := Bundle(map[GET := Handler(dogs, WalkChain)])]
  {
    dogs := new Route("/dogs");
    assert "" + "/dogs" == "/dogs";
    assert "" + "/dogs" + "/walk" == "/dogs/walk";
    assert "/dogs" != "/dogs/walk";
    dogs.Register(GET, "/", DogsGet);
    assert dogs.routes == map["/dogs" := Bundle(map[GET := Handler(dogs, DogsGet)])];
    dogs.Register(POST, "/", DogsPost);
    assert dogs.routes == map["/dogs" := Bundle(map[GET := Handler(dogs, DogsGet), POST := Handler(dogs, DogsPost)])];
    dogs.Register(GET, "/walk", WalkChain);
  }

  /** The example server's own registrations: a root handler, then a static page. */
  method OwnServerRoutes() returns (server: Server)
    ensures fresh(server) && fresh(server.base) && server.Valid()
    ensures server.base.routes ==
              map["/" := Bundle(map[GET := Handler(server.base, RootGet)]), "/html" := Mounted(Asset("test.html"))]
    ensures server.base.server == None && server.base.middleware == []
    ensures server.serverRoutes == map[] && server.log == []
  {
    server := new Server();
    var own := server.base;
    own.Register(GET, "/", RootGet);
    assert own.routes == map["/" := Bundle(map[GET := Handler(own, RootGet)])];
    server.StaticMount("/html", Loaded(Asset("test.html")));
  }

  /**
    The example server before any Route is used: a root handler and a static
    page registered on the Server, then the server started.
  */
  method StartOwnServer() returns (server: Server)
    ensures fresh(server) && fresh(server.base) && server.Valid()
    ensures server.base.routes ==
              map["/" := Bundle(map[GET := Handler(server.base, RootGet)]), "/html" := Mounted(Asset("test.html"))]
    ensures server.base.server == Some(Listener(3000, server.base.routes))
    ensures server.base.middleware == [] && server.serverRoutes == map[]
    ensures server.log == [Serve(3000), Callback("started")]
  {
    server := OwnServerRoutes();
    server.Listen(3000, Some("started"));
    assert server.log == [] + [Serve(3000)] + [Callback("started")];
  }

  /** The started example server after the dogs Route is used. */
  method UseDogsServer() returns (server: Server, dogs: Route)
    ensures server.log == [Serve(3000), Callback("started"), Stop(3000), Serve(3000)]
    ensures server.base.routes == map[
              "/" := Bundle(map[GET := Handler(server.base, RootGet)]),
              "/html" := Mounted(Asset("test.html")),
              "/dogs" := Bundle(map[GET := Handler(dogs, DogsGet), POST := Handler(dogs, DogsPost)]),
              "/dogs/walk" := Bundle(map[GET := Handler(dogs, WalkChain)])]
    ensures server.base.server == Some(Listener(3000, server.base.routes))
    ensures dogs.server == server.base.server
    ensures dogs.middleware == [] && server.base.middleware == []
  {
    server := StartOwnServer();
    var own := server.base;
    dogs := DogsRoute();
    var before := own.routes;
    server.UseRoute(dogs);
    assert own.routes == before + dogs.routes;
    assert server.log == [Serve(3000), Callback("started")] + [Stop(3000), Serve(3000)];
    assert server.serverRoutes["/dogs"] == dogs;
    assert dogs in server.serverRoutes.Values;
  }

  /**
    The example server: after it started, the dogs Route is used, which
    restarts the listener on the same port with the merged table.
  */
  method StartDogsServer() returns (listener: Listener, dogs: Route, own: Route, log: seq<HostCall>)
    ensures log == [Serve(3000), Callback("started"), Stop(3000), Serve(3000)]
    ensures Live(log) == 1
    ensures listener.port == 3000
    ensures listener.table.Keys == {"/", "/html", "/dogs", "/dogs/walk"}
    ensures listener.table["/"] == Bundle(map[GET := Handler(own, RootGet)])
    ensures listener.table["/html"] == Mounted(Asset("test.html"))
    ensures listener.table["/dogs"] == Bundle(map[GET := Handler(dogs, DogsGet), POST := Handler(dogs, DogsPost)])
    ensures dogs.middleware == [] && own.middleware == []
    ensures dogs.server == Some(listener) && own.server == Some(listener)
  {
    var server;
    server, dogs := UseDogsServer();
    own := server.base;
    listener := own.server.value;
    assert listener.table == own.routes;
    log := server.log;
    assert [] + [Serve(3000)] == [Serve(3000)];
    assert [Serve(3000)] + [Callback("started")] == [Serve(3000), Callback("started")];
    assert [Serve(3000), Callback("started")] + [Stop(3000), Serve(3000)] == log;
    LiveAppend([], Serve(3000));
    LiveAppend([Serve(3000)], Callback("started"));
    LiveRestart([Serve(3000), Callback("started")], 3000);
  }

  /**
    The example server's requests: both methods bound at /dogs answer, the
    root handler and the static page are served, a path only a Route not yet
    used would provide gets 404, and so does a method nobody bound at a known
    path.
  */
  method DogsServer() returns (root: Reply, html: Reply, dogsGet: Reply, dogsPost: Reply, dogsDelete: Reply, cats: Reply)
    ensures root.Handled? && root.outcome.Ok? && root.outcome.resp.body == "ok"
    ensures html == Static(Asset("test.html"))
    ensures dogsGet.Handled? && dogsGet.outcome.Ok? && dogsGet.outcome.resp.body == "dogs"
    ensures dogsPost.Handled? && dogsPost.outcome.Ok? && dogsPost.outcome.resp.body == "post dogs"
    ensures dogsDelete == NotFound(NotFoundResponse)
    ensures cats == NotFound(NotFoundResponse)
  {
    var listener, dogs, own, log := StartDogsServer();
    var req := Request("127.0.0.1", None, map[]);
    assert own.middleware + RootGet == RootGet;
    assert dogs.middleware + DogsGet == DogsGet;
    assert dogs.middleware + DogsPost == DogsPost;
    assert listener.table["/"].slots[GET] == Handler(own, RootGet);
    assert listener.table["/dogs"].slots[GET] == Handler(dogs, DogsGet);
    assert listener.table["/dogs"].slots[POST] == Handler(dogs, DogsPost);
    assert DELETE !in listener.table["/dogs"].slots;
    assert "/cats" !in listener.table;
    root := Dispatch(listener, "/", GET, req);
    html := Dispatch(listener, "/html", GET, req);
    dogsGet := Dispatch(listener, "/dogs", GET, req);
    dogsPost := Dispatch(listener, "/dogs", POST, req);
    dogsDelete := Dispatch(listener, "/dogs", DELETE, req);
    cats := Dispatch(listener, "/cats", GET, req);
  }

  const LayerA: Middleware := Around("a-in", "a-out")
  const LayerB: Middleware := Around("b-in", "b-out")
  const LayerC: Middleware := Around("c-in", "c-out")

  /** A Route under /pets binding GET at its root. */
  method PetsRoute() returns (pets: Route)
    ensures fresh(pets) && pets.baseUrl == "/pets"
    ensures pets.middleware == [] && pets.server == None
    ensures pets.routes == map["/pets" := Bundle(map[GET := Handler(pets, DogsGet)])]
  {
    pets := new Route("/pets");
    assert "" + "/pets" == "/pets";
    pets.Register(GET, "/", DogsGet);
  }

  /**
    Server-wide middleware `a` used, a handler registered on the Server, then a
    Route registered: the Route does not get `a`.
  */
  method ServerWithPets() returns (server: Server, pets: Route)
    ensures fresh(server) && fresh(server.base) && server.Valid()
    ensures server.base.middleware == [LayerA] && server.base.server == None
    ensures fresh(pets) && pets.middleware == []
    ensures server.serverRoutes == map["/pets" := pets]
    ensures server.base.routes ==
              map["/own" := Bundle(map[GET := Handler(server.base, RootGet)]),
                  "/pets" := Bundle(map[GET := Handler(pets, DogsGet)])]
  {
    server := new Server();
    var own := server.base;
    server.UseMiddleware(LayerA);
    assert own.middleware == [LayerA];
    assert "" + "" + "/own" == "/own";
    own.Register(GET, "/own", RootGet);
    assert own.routes == map["/own" := Bundle(map[GET := Handler(own, RootGet)])];
    pets := PetsRoute();
    server.UseRoute(pets);
    assert server.serverRoutes == map["/pets" := pets];
  }

  /**
    Server-wide middleware `a` used before a Route is registered, `b` and `c`
    after. The Server's own list grows at the back; each registered Route gets
    every later one at the front, and never the earlier one.
  */
  method GlobalMiddlewareSetup() returns (listener: Listener, own: Route, pets: Route)
    ensures own.middleware == [LayerA, LayerB, LayerC]
    ensures pets.middleware == [LayerC, LayerB]
    ensures listener.table.Keys == {"/own", "/pets"}
    ensures listener.table["/own"] == Bundle(map[GET := Handler(own, RootGet)])
    ensures listener.table["/pets"] == Bundle(map[GET := Handler(pets, DogsGet)])
  {
    var server;
    server, pets := ServerWithPets();
    own := server.base;
    assert server.serverRoutes["/pets"] == pets;
    assert pets in server.serverRoutes.Values;
    server.UseMiddleware(LayerB);
    assert pets.middleware == [LayerB] && own.middleware == [LayerA, LayerB];
    server.UseMiddleware(LayerC);
    assert pets.middleware == [LayerC, LayerB] && own.middleware == [LayerA, LayerB, LayerC];
    var table := own.routes;
    server.Listen(8080, None);
    listener := own.server.value;
    assert listener.table == table;
  }

  /**
    What those registrations mean per request: the Server's own handler runs
    the layers in the order they were used, the Route's handler runs the later
    ones most recent first and not the first one.
  */
  method GlobalMiddlewareOrder() returns (own: Reply, routed: Reply)
    ensures own.Handled? && own.outcome.Ok?
    ensures own.outcome.trace == ["a-in", "b-in", "c-in", "c-out", "b-out", "a-out"]
    ensures routed.Handled? && routed.outcome.Ok?
    ensures routed.outcome.trace == ["c-in", "b-in", "b-out", "c-out"]
  {
    var listener, ownRoute, pets := GlobalMiddlewareSetup();
    var req := Request("127.0.0.1", None, map[]);
    var ownChain := ownRoute.middleware + RootGet;
    var petsChain := pets.middleware + DogsGet;
    assert ownChain == [LayerA, LayerB, LayerC, Reply(Text(200, "ok"))];
    assert petsChain == [LayerC, LayerB, Reply(Text(200, "dogs"))];
    var r1 := ownRoute.WithRequestIp(req);
    var r2 := pets.WithRequestIp(req);
    assert Run(r1, ownChain, 3) == Ok(Text(200, "ok"), r1, []);
    assert Run(r1, ownChain, 2) == Ok(Text(200, "ok"), r1, ["c-in", "c-out"]);
    assert Run(r1, ownChain, 1) == Ok(Text(200, "ok"), r1, ["b-in", "c-in", "c-out", "b-out"]);
    assert Run(r1, ownChain, 0) == Ok(Text(200, "ok"), r1, ["a-in", "b-in", "c-in", "c-out", "b-out", "a-out"]);
    assert Run(r2, petsChain, 2) == Ok(Text(200, "dogs"), r2, []);
    assert Run(r2, petsChain, 1) == Ok(Text(200, "dogs"), r2, ["b-in", "b-out"]);
    assert Run(r2, petsChain, 0) == Ok(Text(200, "dogs"), r2, ["c-in", "b-in", "b-out", "c-out"]);
    assert listener.table["/own"].slots[GET] == Handler(ownRoute, RootGet);
    assert listener.table["/pets"].slots[GET] == Handler(pets, DogsGet);
    own := Dispatch(listener, "/own", GET, req);
    routed := Dispatch(listener, "/pets", GET, req);
  }

  /** Two Routes with the same base path: one binds GET at its root, the other POST. */
  method SameBaseRoutes() returns (first: Route, second: Route)
    ensures fresh(first) && fresh(second) && first != second
    ensures first.baseUrl == "/pets" && second.baseUrl == "/pets"
    ensures first.routes == map["/pets" := Bundle(map[GET := Handler(first, DogsGet)])]
    ensures second.routes == map["/pets" := Bundle(map[POST := Handler(second, DogsPost)])]
  {
    first := new Route("/pets");
    second := new Route("/pets");
    assert "" + "/pets" == "/pets";
    first.Register(GET, "/", DogsGet);
    second.Register(POST, "/", DogsPost);
  }

  /**
    Two Routes with the same base path, used one after the other: the later
    one replaces the earlier in the registry, and its bundle replaces the
    earlier bundle at the shared path as a whole.
  */
  method UseSameBaseTwice() returns (server: Server, first: Route, second: Route)
    ensures fresh(server) && fresh(server.base) && fresh(second) && server.Valid()
    ensures server.serverRoutes == map["/pets" := second]
    ensures server.base.routes == map["/pets" := Bundle(map[POST := Handler(second, DogsPost)])]
  {
    server := new Server();
    first, second := SameBaseRoutes();
    server.UseRoute(first);
    assert server.base.routes == first.routes;
    server.UseRoute(second);
    assert server.base.routes == second.routes;
  }

  /**
    The server with both Routes used, started: the earlier Route's GET handler
    is gone from what the listener serves.
  */
  method SameBaseTwice() returns (listener: Listener, first: Route, second: Route, byPath: map<string, Route>)
    ensures byPath == map["/pets" := second]
    ensures listener.table == map["/pets" := Bundle(map[POST := Handler(second, DogsPost)])]
    ensures !Matches(listener.table, "/pets", GET)
  {
    var server;
    server, first, second := UseSameBaseTwice();
    byPath := server.serverRoutes;
    var table := server.base.routes;
    server.Listen(8080, None);
    listener := server.base.server.value;
    assert listener.table == table;
  }
}
