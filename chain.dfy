/**
  The middleware chain runner of a Route (`runMiddleware`).

  A middleware in the source is a closure `(req, next) => response`. Here a
  middleware is one of a closed set of behaviours, each covering one way the
  repository's middleware and handlers use `next`:

  - `Reply(resp)`: returns `resp` without calling `next` (a final handler, or an
    early exit such as an authorisation rejection);
  - `Echo(key)`: returns a 200 response whose body is the request field `key`
    attached by an earlier layer, without calling `next`;
  - `Annotate(key, value)`: attaches a field to the shared request, then returns
    what `next` returns;
  - `Around(before, after)`: records `before`, calls `next`, records `after` and
    returns what `next` returned (the logger middleware);
  - `Stamp(name, value)`: calls `next` and sets a header on the response it got
    back (the custom-header middleware).

  Asynchronous evaluation is collapsed to sequential evaluation: awaiting `next`
  is a recursive call.
*/
module Chain {

  datatype Option<T> = None | Some(value: T)

  /** A response produced by the chain. */
  datatype Response = Response(status: int, body: string, headers: map<string, string>)

  /**
    The request object shared by every layer of one chain invocation.
    `peer` is the address the host server reports for the connection,
    `ip` is the `req.ip` field a Route fills in, `fields` are what middleware attach.
  */
  datatype Request = Request(peer: string, ip: Option<string>, fields: map<string, string>)

  datatype Middleware =
    | Reply(resp: Response)
    | Echo(key: string)
    | Annotate(key: string, value: string)
    | Around(before: string, after: string)
    | Stamp(name: string, value: string)

  /** The only error the runner raises itself. */
  datatype ChainError = ChainExhausted

  function Message(e: ChainError): string
  {
    match e
    case ChainExhausted => "No final handler found"
  }

  /**
    What one chain invocation yields: the response together with the request as
    the outermost layer sees it afterwards and the events the layers recorded,
    or the error that escaped.
  */
  datatype Outcome = Ok(resp: Response, req: Request, trace: seq<string>) | Err(error: ChainError)

  /** A middleware that produces a response without calling `next`. */
  predicate IsTerminal(m: Middleware)
  {
    m.Reply? || m.Echo?
  }

  /** Some middleware at an index at or after `from` is terminal. */
  predicate HasTerminalFrom(chain: seq<Middleware>, from: nat)
  {
    exists j :: from <= j < |chain| && IsTerminal(chain[j])
  }

  /** No middleware at an index in [from, to) is terminal. */
  predicate NoTerminalBetween(chain: seq<Middleware>, from: nat, to: nat)
  {
    forall j :: from <= j < to && j < |chain| ==> !IsTerminal(chain[j])
  }

  function Field(req: Request, key: string): string
  {
    if key in req.fields then req.fields[key] else ""
  }

  /**
    `runMiddleware(req, chain, index)`: element `index` receives a `next` that
    runs element `index + 1`; running past the end fails with ChainExhausted.
    The run succeeds exactly when a terminal middleware is reached, and no layer
    changes the connection's address or the resolved IP. The error it raises
    carries the text `Message(ChainExhausted)`, "No final handler found".
  */
  function Run(req: Request, chain: seq<Middleware>, index: nat): (r: Outcome)
    ensures r.Ok? <==> HasTerminalFrom(chain, index)
    ensures r.Ok? ==> r.req.peer == req.peer && r.req.ip == req.ip
    decreases |chain| - index
  {
    if index >= |chain| then Err(ChainExhausted)
    else
      match chain[index]
      case Reply(resp) => Ok(resp, req, [])
      case Echo(key) => Ok(Response(200, Field(req, key), map[]), req, [])
      case Annotate(key, value) =>
        Run(req.(fields := req.fields[key := value]), chain, index + 1)
      case Around(before, after) =>
        (match Run(req, chain, index + 1)
         case Ok(resp, req', trace) => Ok(resp, req', [before] + trace + [after])
         case Err(e) => Err(e))
      case Stamp(name, value) =>
        (match Run(req, chain, index + 1)
         case Ok(resp, req', trace) => Ok(resp.(headers := resp.headers[name := value]), req', trace)
         case Err(e) => Err(e))
  }

  /** The events a middleware records before calling `next`. */
  function OpenTag(m: Middleware): seq<string>
  {
    if m.Around? then [m.before] else []
  }

  /** The events a middleware records after `next` returned. */
  function CloseTag(m: Middleware): seq<string>
  {
    if m.Around? then [m.after] else []
  }

  /** The "before" events of a sequence of layers, outermost first. */
  function Opens(s: seq<Middleware>): seq<string>
  {
    if s == [] then [] else OpenTag(s[0]) + Opens(s[1..])
  }

  /** The "after" events of a sequence of layers, innermost first. */
  function Closes(s: seq<Middleware>): seq<string>
  {
    if s == [] then [] else Closes(s[1..]) + CloseTag(s[0])
  }

  /** The request after the layers of `s` attached their fields, in order. */
  function Annotated(req: Request, s: seq<Middleware>): Request
    decreases |s|
  {
    if s == [] then req
    else if s[0].Annotate? then Annotated(req.(fields := req.fields[s[0].key := s[0].value]), s[1..])
    else Annotated(req, s[1..])
  }

  /**
    Running from `index` is running the suffix that starts there: an element's
    behaviour depends on which elements follow it, not on its position.
  */
  lemma {:induction false} RunShift(req: Request, chain: seq<Middleware>, i: nat, j: nat)
    requires i <= |chain|
    ensures Run(req, chain, i + j) == Run(req, chain[i..], j)
    decreases |chain| - (i + j)
  {
    if i + j < |chain| {
      assert chain[i..][j] == chain[i + j];
      match chain[i + j]
      case Reply(_) =>
      case Echo(_) =>
      case Annotate(key, value) =>
        RunShift(req.(fields := req.fields[key := value]), chain, i, j + 1);
      case Around(_, _) =>
        RunShift(req, chain, i, j + 1);
      case Stamp(_, _) =>
        RunShift(req, chain, i, j + 1);
    }
  }

  /**
    A middleware that never calls `next` ends the chain: two chains that agree
    from `i` up to and including a terminal element at `t` give the same result,
    whatever follows `t`.
  */
  lemma {:induction false} RunStopsAtTerminal(req: Request, c1: seq<Middleware>, c2: seq<Middleware>, i: nat, t: nat)
    requires i <= t < |c1| && t < |c2|
    requires IsTerminal(c1[t])
    requires forall j :: i <= j <= t ==> c1[j] == c2[j]
    ensures Run(req, c1, i) == Run(req, c2, i)
    decreases t - i
  {
    assert c1[i] == c2[i];
    if i < t {
      match c1[i]
      case Reply(_) =>
      case Echo(_) =>
      case Annotate(key, value) =>
        RunStopsAtTerminal(req.(fields := req.fields[key := value]), c1, c2, i + 1, t);
      case Around(_, _) =>
        RunStopsAtTerminal(req, c1, c2, i + 1, t);
      case Stamp(_, _) =>
        RunStopsAtTerminal(req, c1, c2, i + 1, t);
    }
  }

  /**
    Onion order: when the first terminal element from `i` is at `t`, the run
    succeeds and records the "before" events of the layers in [i, t) outermost
    first, then their "after" events innermost first.
  */
  lemma {:induction false} RunOnion(req: Request, chain: seq<Middleware>, i: nat, t: nat)
    requires i <= t < |chain|
    requires IsTerminal(chain[t]) && NoTerminalBetween(chain, i, t)
    ensures Run(req, chain, i).Ok?
    ensures Run(req, chain, i).trace == Opens(chain[i..t]) + Closes(chain[i..t])
    decreases t - i
  {
    if i == t {
      assert chain[i..t] == [];
    } else {
      var layers := chain[i..t];
      assert layers[1..] == chain[i + 1..t];
      assert layers[0] == chain[i];
      assert !IsTerminal(chain[i]);
      match chain[i]
      case Annotate(key, value) =>
        RunOnion(req.(fields := req.fields[key := value]), chain, i + 1, t);
      case Around(_, _) =>
        RunOnion(req, chain, i + 1, t);
      case Stamp(_, _) =>
        RunOnion(req, chain, i + 1, t);
    }
  }

  /**
    The runner does not isolate layers: the terminal element at `t` runs on the
    request with the fields of every layer in [i, t) attached in order, its
    status and body are the chain's, and the outermost layer sees that same
    request once `next` returns.
  */
  lemma {:induction false} RunSharesRequest(req: Request, chain: seq<Middleware>, i: nat, t: nat)
    requires i <= t < |chain|
    requires IsTerminal(chain[t]) && NoTerminalBetween(chain, i, t)
    ensures Run(req, chain, i).req == Annotated(req, chain[i..t])
    ensures var inner := Run(Annotated(req, chain[i..t]), chain, t);
            Run(req, chain, i).resp.status == inner.resp.status &&
            Run(req, chain, i).resp.body == inner.resp.body
    decreases t - i
  {
    if i == t {
      assert chain[i..t] == [];
    } else {
      var layers := chain[i..t];
      assert layers[1..] == chain[i + 1..t];
      assert layers[0] == chain[i];
      assert !IsTerminal(chain[i]);
      match chain[i]
      case Annotate(key, value) =>
        RunSharesRequest(req.(fields := req.fields[key := value]), chain, i + 1, t);
      case Around(_, _) =>
        RunSharesRequest(req, chain, i + 1, t);
      case Stamp(_, _) =>
        RunSharesRequest(req, chain, i + 1, t);
    }
  }

  /**
    A header set by a layer after `next` returned is on the final response
    unless a layer further out sets the same header again.
  */
  lemma {:induction false} RunKeepsStamp(req: Request, chain: seq<Middleware>, i: nat, p: nat)
    requires i <= p < |chain|
    requires chain[p].Stamp? && NoTerminalBetween(chain, i, p)
    requires forall q :: i <= q < p ==> !(chain[q].Stamp? && chain[q].name == chain[p].name)
    requires Run(req, chain, i).Ok?
    ensures chain[p].name in Run(req, chain, i).resp.headers
    ensures Run(req, chain, i).resp.headers[chain[p].name] == chain[p].value
    decreases p - i
  {
    if i < p {
      assert !IsTerminal(chain[i]);
      match chain[i]
      case Annotate(key, value) =>
        RunKeepsStamp(req.(fields := req.fields[key := value]), chain, i + 1, p);
      case Around(_, _) =>
        RunKeepsStamp(req, chain, i + 1, p);
      case Stamp(_, _) =>
        RunKeepsStamp(req, chain, i + 1, p);
    }
  }

  /**
    Layers share one request: the field attached by the last layer of `s` that
    attaches `key` is the one every later reader sees.
  */
  lemma {:induction false} AnnotatedLastWins(req: Request, s: seq<Middleware>, p: nat)
    requires p < |s| && s[p].Annotate?
    requires forall q :: p < q < |s| ==> !(s[q].Annotate? && s[q].key == s[p].key)
    ensures Field(Annotated(req, s), s[p].key) == s[p].value
    decreases |s|
  {
    if p == 0 {
      AnnotatedKeeps(req.(fields := req.fields[s[0].key := s[0].value]), s[1..], s[0].key);
    } else {
      var req' := if s[0].Annotate? then req.(fields := req.fields[s[0].key := s[0].value]) else req;
      assert forall q :: p - 1 < q < |s[1..]| ==> s[1..][q] == s[q + 1];
      AnnotatedLastWins(req', s[1..], p - 1);
    }
  }

  /** Layers that do not attach `key` leave it as it was. */
  lemma {:induction false} AnnotatedKeeps(req: Request, s: seq<Middleware>, key: string)
    requires forall q :: 0 <= q < |s| ==> !(s[q].Annotate? && s[q].key == key)
    ensures Field(Annotated(req, s), key) == Field(req, key)
    decreases |s|
  {
    if s != [] {
      var req' := if s[0].Annotate? then req.(fields := req.fields[s[0].key := s[0].value]) else req;
      assert Field(req', key) == Field(req, key);
      assert forall q :: 0 <= q < |s[1..]| ==> s[1..][q] == s[q + 1];
      AnnotatedKeeps(req', s[1..], key);
    }
  }
}
