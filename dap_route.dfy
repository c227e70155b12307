/**
  A Route (models/dap-route.js): a route table for one path prefix, the
  middleware that every handler it registered runs first, and the listener it
  asks for requester addresses.
*/
module DapRoute {
  import opened Chain

  /** The six request methods a Route can register. */
  datatype Method = GET | POST | PUT | DELETE | HEAD | OPTIONS

  /**
    The closure a registrar stores in a method slot: it belongs to the Route
    that registered it and remembers the middleware given at the call site. The
    Route's own middleware is read through `owner` when a request arrives.
  */
  datatype Handler = Handler(owner: Route, callSite: seq<Middleware>)

  /** The value a static mount installs (the default export of a loaded file). */
  datatype Asset = Asset(source: string)

  /** A route-table entry: a per-method handler bundle, or a statically mounted value. */
  datatype Entry = Bundle(slots: map<Method, Handler>) | Mounted(asset: Asset)

  /**
    A live listener of the host server: the port it is bound to and the route
    table it was started with.
  */
  datatype Listener = Listener(port: nat, table: map<string, Entry>)

  /** The prefix the host puts in front of an IPv4 address on a dual-stack socket. */
  const MappedPrefix: string := "::ffff:"

  /**
    The table key a registration lands on: the server prefix, the Route's base
    and the sub-path, where a sub-path of exactly "/" collapses to "" as soon as
    either prefix is non-empty.
  */
  function FullPath(serverBase: string, baseUrl: string, url: string): (key: string)
    ensures serverBase + baseUrl <= key
    ensures url != "/" ==> key == serverBase + baseUrl + url
    ensures url == "/" ==> key == if serverBase + baseUrl == "" then "/" else serverBase + baseUrl
  {
    var sub := if (url == "/" && baseUrl != "") || (url == "/" && serverBase != "") then "" else url;
    serverBase + baseUrl + sub
  }

  lemma PrefixCancel(p: string, x: string, y: string)
    requires p + x == p + y
    ensures x == y
  {
    assert x == (p + x)[|p|..];
    assert y == (p + y)[|p|..];
  }

  /**
    Two registrations under the same prefixes land on the same key exactly when
    their sub-paths are equal, or when the prefixes are non-empty and the
    sub-paths are "/" and "".
  */
  lemma FullPathSameKey(serverBase: string, baseUrl: string, u1: string, u2: string)
    ensures FullPath(serverBase, baseUrl, u1) == FullPath(serverBase, baseUrl, u2) <==>
            (u1 == u2 || (serverBase + baseUrl != "" && {u1, u2} == {"/", ""}))
  {
    var p := serverBase + baseUrl;
    var s1 := if u1 == "/" && p != "" then "" else u1;
    var s2 := if u2 == "/" && p != "" then "" else u2;
    assert FullPath(serverBase, baseUrl, u1) == p + s1;
    assert FullPath(serverBase, baseUrl, u2) == p + s2;
    if p + s1 == p + s2 {
      PrefixCancel(p, s1, s2);
      if u1 != u2 {
        assert p != "" && (u1 == "/" || u2 == "/");
        assert {u1, u2} == {"/", ""};
      }
    }
  }

  /** The bundle currently at `key`, or the empty bundle when there is none. */
  function SlotsAt(table: map<string, Entry>, key: string): map<Method, Handler>
  {
    if key in table && table[key].Bundle? then table[key].slots else map[]
  }

  /**
    The table after binding `h` to method `m` at `key`: the bundle at `key`
    keeps every other method it had and gets `h` in slot `m`; every other key
    keeps its entry.
  */
  function Bind(table: map<string, Entry>, key: string, m: Method, h: Handler): (t: map<string, Entry>)
    ensures t.Keys == table.Keys + {key}
    ensures t[key].Bundle? && t[key].slots.Keys == SlotsAt(table, key).Keys + {m}
    ensures t[key].slots[m] == h
    ensures forall m' :: m' in SlotsAt(table, key) && m' != m ==> t[key].slots[m'] == SlotsAt(table, key)[m']
    ensures forall k :: k in table && k != key ==> t[k] == table[k]
  {
    table[key := Bundle(SlotsAt(table, key)[m := h])]
  }

  /** Registering the same method at the same key again replaces only that slot. */
  lemma BindAgain(table: map<string, Entry>, key: string, m: Method, h1: Handler, h2: Handler)
    ensures Bind(Bind(table, key, m, h1), key, m, h2) == Bind(table, key, m, h2)
  {
    var once := Bind(table, key, m, h1);
    assert SlotsAt(once, key)[m := h2] == SlotsAt(table, key)[m := h2];
  }

  /** Registering two different methods at one key gives the same bundle in either order. */
  lemma BindCommutes(table: map<string, Entry>, key: string, m1: Method, h1: Handler, m2: Method, h2: Handler)
    requires m1 != m2
    ensures Bind(Bind(table, key, m1, h1), key, m2, h2) == Bind(Bind(table, key, m2, h2), key, m1, h1)
  {
    var s := SlotsAt(table, key);
    assert s[m1 := h1][m2 := h2] == s[m2 := h2][m1 := h1];
  }

  /** `pat` occurs in `s` starting at index `k`. */
  predicate OccursAt(s: string, pat: string, k: nat)
  {
    k + |pat| <= |s| && s[k..k + |pat|] == pat
  }

  lemma OccursAtTail(s: string, pat: string, k: nat)
    requires |s| > 0
    ensures OccursAt(s[1..], pat, k) <==> OccursAt(s, pat, k + 1)
  {
    if k + 1 + |pat| <= |s| {
      assert s[1..][k..k + |pat|] == s[k + 1..k + 1 + |pat|];
    }
  }

  /** The first index at which `pat` occurs in `s`, if it occurs at all. */
  function FindFirst(s: string, pat: string): (r: Option<nat>)
    ensures r.Some? ==> OccursAt(s, pat, r.value)
    ensures r.Some? ==> forall k :: 0 <= k < r.value ==> !OccursAt(s, pat, k)
    ensures r.None? ==> forall k :: 0 <= k <= |s| ==> !OccursAt(s, pat, k)
    decreases |s|
  {
    if |s| < |pat| then None
    else if s[..|pat|] == pat then Some(0)
    else
      assert |s| > 0;
      assert !OccursAt(s, pat, 0);
      assert forall k: nat :: 1 <= k ==> (OccursAt(s, pat, k) <==> OccursAt(s[1..], pat, k - 1)) by {
        forall k: nat | 1 <= k ensures OccursAt(s, pat, k) <==> OccursAt(s[1..], pat, k - 1) {
          OccursAtTail(s, pat, k - 1);
        }
      }
      match FindFirst(s[1..], pat)
      case Some(k) => Some(k + 1)
      case None => None
  }

  /**
    `address.replace("::ffff:", "")`: the first occurrence of the IPv4-mapped
    prefix is removed; an address without it is returned as it is.
  */
  function StripMapped(address: string): (r: string)
  {
    match FindFirst(address, MappedPrefix)
    case Some(k) => address[..k] + address[k + |MappedPrefix|..]
    case None => address
  }

  /** An IPv4-mapped address loses its prefix and keeps the IPv4 part. */
  lemma StripMappedIPv4(v4: string)
    ensures StripMapped(MappedPrefix + v4) == v4
  {
    var a := MappedPrefix + v4;
    assert a[..|MappedPrefix|] == MappedPrefix;
    assert FindFirst(a, MappedPrefix) == Some(0);
    assert a[|MappedPrefix|..] == v4;
  }

  /** An address in which the prefix does not occur is left unchanged. */
  lemma StripMappedPlain(address: string)
    requires forall k :: 0 <= k <= |address| ==> !OccursAt(address, MappedPrefix, k)
    ensures StripMapped(address) == address
  {
  }

  /** Where the prefix occurs, exactly its first occurrence is cut out. */
  lemma StripMappedFirst(address: string, k: nat)
    requires OccursAt(address, MappedPrefix, k)
    requires forall j :: 0 <= j < k ==> !OccursAt(address, MappedPrefix, j)
    ensures StripMapped(address) == address[..k] + address[k + |MappedPrefix|..]
    ensures |StripMapped(address)| == |address| - |MappedPrefix|
  {
    var r := FindFirst(address, MappedPrefix);
    assert r.Some?;
    assert r.value == k;
  }

  class Route {
    /** The prefix of every path this Route registers. */
    const baseUrl: string
    /** Full path to per-method bundle. */
    var routes: map<string, Entry>
    /** The middleware every handler of this Route runs before its call-site middleware. */
    var middleware: seq<Middleware>
    /** The listener used to resolve requester addresses, once one is known. */
    var server: Option<Listener>
    /** A prefix put in front of every path this Route registers. */
    var serverBase: string

    constructor (baseUrl: string)
      ensures this.baseUrl == baseUrl
      ensures routes == map[] && middleware == [] && server == None && serverBase == ""
    {
      this.baseUrl := baseUrl;
      routes := map[];
      middleware := [];
      server := None;
      serverBase := "";
    }

    method SetServer(listener: Listener)
      modifies this`server
      ensures server == Some(listener)
    {
      server := Some(listener);
    }

    method SetServerBase(prefix: string)
      modifies this`serverBase
      ensures serverBase == prefix
    {
      serverBase := prefix;
    }

    /**
      `setRequestIp`: with no listener the request is left as it is; otherwise
      its `ip` becomes the requester address with the mapped prefix removed.
      Nothing else about the request changes.
    */
    function WithRequestIp(req: Request): (r: Request)
      reads this`server
      ensures r.peer == req.peer && r.fields == req.fields
      ensures server.None? ==> r.ip == req.ip
      ensures server.Some? ==> r.ip == Some(StripMapped(req.peer))
    {
      if server.Some? then req.(ip := Some(StripMapped(req.peer))) else req
    }

    /** `addMiddleware`: the new middleware goes in front of the existing ones. */
    method AddMiddleware(handler: Middleware)
      modifies this`middleware
      ensures middleware == [handler] + old(middleware)
    {
      middleware := [handler] + middleware;
    }

    /**
      `get`, `post`, `put`, `delete`, `head` and `options`: bind a handler made of
      this Route and the call-site middleware to method `m` at the composed key,
      keeping the other methods already bound there.
    */
    method Register(m: Method, url: string, callSite: seq<Middleware>)
      modifies this`routes
      ensures routes == Bind(old(routes), FullPath(serverBase, baseUrl, url), m, Handler(this, callSite))
    {
      var key := FullPath(serverBase, baseUrl, url);
      routes := Bind(routes, key, m, Handler(this, callSite));
    }

    /**
      What a stored handler does with a request: resolve the requester address,
      then run this Route's middleware (as it is when the request arrives)
      followed by the call-site middleware. It answers exactly when that chain
      reaches a terminal element.
    */
    function Handle(callSite: seq<Middleware>, req: Request): (r: Outcome)
      reads this
      ensures r.Ok? <==> HasTerminalFrom(middleware + callSite, 0)
      ensures r.Ok? ==> r.req.ip == WithRequestIp(req).ip && r.req.peer == req.peer
    {
      Run(WithRequestIp(req), middleware + callSite, 0)
    }
  }

  /**
    Route middleware runs before call-site middleware: when the call-site
    middleware ends in a terminal element and the Route's middleware has none,
    the handler records the Route layers' "before" events first and their
    "after" events last.
  */
  lemma {:induction false} HandleOrder(route: Route, callSite: seq<Middleware>, t: nat, req: Request)
    requires t < |callSite| && IsTerminal(callSite[t])
    requires NoTerminalBetween(route.middleware, 0, |route.middleware|)
    requires NoTerminalBetween(callSite, 0, t)
    ensures route.Handle(callSite, req).Ok?
    ensures route.Handle(callSite, req).trace ==
              Opens(route.middleware) + Opens(callSite[..t]) + Closes(callSite[..t]) + Closes(route.middleware)
  {
    var chain := route.middleware + callSite;
    var n := |route.middleware|;
    assert chain[n + t] == callSite[t];
    assert NoTerminalBetween(chain, 0, n + t) by {
      forall j | 0 <= j < n + t
        ensures !IsTerminal(chain[j])
      {
        if j < n { assert chain[j] == route.middleware[j]; }
        else { assert chain[j] == callSite[j - n]; }
      }
    }
    RunOnion(route.WithRequestIp(req), chain, 0, n + t);
    assert chain[0..n + t] == route.middleware + callSite[..t];
    OpensAppend(route.middleware, callSite[..t]);
    ClosesAppend(route.middleware, callSite[..t]);
  }

  lemma {:induction false} OpensAppend(a: seq<Middleware>, b: seq<Middleware>)
    ensures Opens(a + b) == Opens(a) + Opens(b)
    decreases |a|
  {
    if a != [] {
      assert (a + b)[1..] == a[1..] + b;
      OpensAppend(a[1..], b);
    } else {
      assert a + b == b;
    }
  }

  lemma {:induction false} ClosesAppend(a: seq<Middleware>, b: seq<Middleware>)
    ensures Closes(a + b) == Closes(b) + Closes(a)
    decreases |a|
  {
    if a != [] {
      assert (a + b)[1..] == a[1..] + b;
      ClosesAppend(a[1..], b);
    } else {
      assert a + b == b;
    }
  }
}
