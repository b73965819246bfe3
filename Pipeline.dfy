// The order in which a request-response cycle runs its middlewares, as the
// Micro application documents it (src/Application/Micro.php:38-54):
// application, collection and route middlewares on the request, the route
// handler, the same middlewares on the response from the innermost out, then
// the finish handlers. Each middleware follows the PSR-15 shape: it sees the
// request, hands it to the rest of the chain, and sees the response that
// comes back.
module Pipeline {
  import opened Handlers
  import Router

  /** One observable step of a request-response cycle. */
  datatype Step =
    | OnRequest(middleware: Handler)
    | Invoke(handler: Handler)
    | OnResponse(middleware: Handler)
    | Finish(handler: Handler)

  /** The steps of `mws` wrapped around the handler `h`, outermost first:
      the first middleware sees the request first and the response last. */
  function Nest(mws: seq<Handler>, h: Handler): (r: seq<Step>)
    ensures |r| == 2 * |mws| + 1
    ensures forall i :: 0 <= i < |mws| ==> r[i] == OnRequest(mws[i])
    ensures r[|mws|] == Invoke(h)
    decreases |mws|
  {
    if mws == [] then [Invoke(h)]
    else [OnRequest(mws[0])] + Nest(mws[1..], h) + [OnResponse(mws[0])]
  }

  /** The request phase of `mws`: each middleware in definition order. */
  function RequestPhase(mws: seq<Handler>): (r: seq<Step>)
    ensures |r| == |mws|
    ensures forall i :: 0 <= i < |mws| ==> r[i] == OnRequest(mws[i])
    decreases |mws|
  {
    if mws == [] then [] else [OnRequest(mws[0])] + RequestPhase(mws[1..])
  }

  /** The response phase of `mws`: each middleware in reverse definition order. */
  function ResponsePhase(mws: seq<Handler>): (r: seq<Step>)
    ensures |r| == |mws|
    ensures forall i :: 0 <= i < |mws| ==> r[i] == OnResponse(mws[|mws| - 1 - i])
    decreases |mws|
  {
    if mws == [] then [] else ResponsePhase(mws[1..]) + [OnResponse(mws[0])]
  }

  /** The finish handlers, in the order they were added. */
  function FinishPhase(fs: seq<Handler>): (r: seq<Step>)
    ensures |r| == |fs|
    ensures forall i :: 0 <= i < |fs| ==> r[i] == Finish(fs[i])
    decreases |fs|
  {
    if fs == [] then [] else [Finish(fs[0])] + FinishPhase(fs[1..])
  }

  /** A full cycle: application, collection and route middlewares around the
      route handler, then the finish handlers. */
  function Cycle(app: seq<Handler>, collection: seq<Handler>, route: seq<Handler>, h: Handler, finish: seq<Handler>): (r: seq<Step>)
    ensures |r| == 2 * (|app| + |collection| + |route|) + 1 + |finish|
    ensures r[|app| + |collection| + |route|] == Invoke(h)
    ensures forall i :: 0 <= i < |finish| ==> r[2 * (|app| + |collection| + |route|) + 1 + i] == Finish(finish[i])
  {
    Nest(app + collection + route, h) + FinishPhase(finish)
  }

  /** The cycle of a route registered with the handler list `hs`: its last
      element is the route handler and the others are its middlewares. A list
      without a route handler has no cycle. */
  function RouteCycle(app: seq<Handler>, collection: seq<Handler>, hs: seq<Handler>, finish: seq<Handler>): (r: Option<seq<Step>>)
    ensures r.Some? <==> hs != []
    ensures r.Some? ==> |r.value| == 2 * (|app| + |collection| + |hs|) - 1 + |finish|
    ensures r.Some? ==> r.value[|app| + |collection| + |hs| - 1] == Invoke(hs[|hs| - 1])
  {
    match Router.Split(hs)
    case None => None
    case Some(parts) => Some(Cycle(app, collection, parts.middlewares, parts.handler, finish))
  }

  /** Nesting runs every middleware on the request in order, then the
      handler, then every middleware on the response in reverse order. */
  lemma {:induction false} NestIsPhases(mws: seq<Handler>, h: Handler)
    ensures Nest(mws, h) == RequestPhase(mws) + [Invoke(h)] + ResponsePhase(mws)
    decreases |mws|
  {
    if mws != [] {
      var rest := mws[1..];
      NestIsPhases(rest, h);
      var pre, post := RequestPhase(rest), ResponsePhase(rest);
      calc {
        Nest(mws, h);
        [OnRequest(mws[0])] + Nest(rest, h) + [OnResponse(mws[0])];
        [OnRequest(mws[0])] + (pre + [Invoke(h)] + post) + [OnResponse(mws[0])];
        ([OnRequest(mws[0])] + pre) + [Invoke(h)] + (post + [OnResponse(mws[0])]);
        RequestPhase(mws) + [Invoke(h)] + ResponsePhase(mws);
      }
    }
  }

  lemma RequestPhaseAppend(a: seq<Handler>, b: seq<Handler>)
    ensures RequestPhase(a + b) == RequestPhase(a) + RequestPhase(b)
  {
  }

  lemma ResponsePhaseAppend(a: seq<Handler>, b: seq<Handler>)
    ensures ResponsePhase(a + b) == ResponsePhase(b) + ResponsePhase(a)
  {
  }

  /** The documented order: application, collection and route middlewares on
      the request, the handler, route, collection and application middlewares
      on the response, then the finish handlers. */
  lemma DocumentedOrder(app: seq<Handler>, collection: seq<Handler>, route: seq<Handler>, h: Handler, finish: seq<Handler>)
    ensures Cycle(app, collection, route, h, finish)
         == RequestPhase(app) + RequestPhase(collection) + RequestPhase(route)
          + [Invoke(h)]
          + ResponsePhase(route) + ResponsePhase(collection) + ResponsePhase(app)
          + FinishPhase(finish)
  {
    NestIsPhases(app + collection + route, h);
    RequestPhaseAppend(app, collection);
    RequestPhaseAppend(app + collection, route);
    ResponsePhaseAppend(app, collection);
    ResponsePhaseAppend(app + collection, route);
  }

  /** In a nest, only response steps follow the handler. */
  lemma {:induction false} NestResponseSteps(mws: seq<Handler>, h: Handler)
    ensures forall i :: |mws| < i < 2 * |mws| + 1 ==> Nest(mws, h)[i].OnResponse?
  {
    NestIsPhases(mws, h);
    var n, post := Nest(mws, h), ResponsePhase(mws);
    forall i | |mws| < i < 2 * |mws| + 1 ensures n[i].OnResponse? {
      assert n[i] == post[i - |mws| - 1];
    }
  }

  /** The route handler runs exactly once, after every middleware has seen
      the request and before any has seen the response. */
  lemma {:induction false} HandlerRunsOnce(app: seq<Handler>, collection: seq<Handler>, route: seq<Handler>, h: Handler, finish: seq<Handler>)
    ensures var c := Cycle(app, collection, route, h, finish);
      var at := |app| + |collection| + |route|;
      && |c| == 2 * at + 1 + |finish|
      && c[at] == Invoke(h)
      && (forall i :: 0 <= i < at ==> c[i].OnRequest?)
      && (forall i :: at < i < 2 * at + 1 ==> c[i].OnResponse?)
      && (forall i :: 2 * at + 1 <= i < |c| ==> c[i].Finish?)
  {
    var mws := app + collection + route;
    var n := Nest(mws, h);
    var c := Cycle(app, collection, route, h, finish);
    var at := |mws|;
    assert c == n + FinishPhase(finish);
    NestResponseSteps(mws, h);
    forall i | 0 <= i < at ensures c[i].OnRequest? {
      assert c[i] == n[i];
    }
    forall i | at < i < 2 * at + 1 ensures c[i].OnResponse? {
      assert c[i] == n[i];
    }
    forall i | 2 * at + 1 <= i < |c| ensures c[i].Finish? {
      var j := i - (2 * at + 1);
      assert c[2 * at + 1 + j] == Finish(finish[j]);
    }
  }

  /** Route middlewares see the request in definition order, right after the
      application and collection middlewares, and the handler comes next. */
  lemma {:induction false} RouteMiddlewaresInOrder(app: seq<Handler>, collection: seq<Handler>, route: seq<Handler>, h: Handler, finish: seq<Handler>)
    ensures var c := Cycle(app, collection, route, h, finish);
      var before := |app| + |collection|;
      && (forall i :: 0 <= i < |route| ==> c[before + i] == OnRequest(route[i]))
      && c[before + |route|] == Invoke(h)
  {
    var mws := app + collection + route;
    var n := Nest(mws, h);
    var c := Cycle(app, collection, route, h, finish);
    var before := |app| + |collection|;
    assert c == n + FinishPhase(finish);
    forall i | 0 <= i < |route| ensures c[before + i] == OnRequest(route[i]) {
      assert c[before + i] == n[before + i];
      assert mws[before + i] == route[i];
    }
  }

  /** Of the handlers given at registration, the last is the route handler
      and runs after the others, which see the request in definition order
      once the application and collection middlewares have. */
  lemma {:induction false} RegisteredOrder(app: seq<Handler>, collection: seq<Handler>, hs: seq<Handler>, finish: seq<Handler>)
    requires hs != []
    ensures RouteCycle(app, collection, hs, finish).Some?
    ensures var c := RouteCycle(app, collection, hs, finish).value;
      var before := |app| + |collection|;
      && (forall i :: 0 <= i < |hs| - 1 ==> c[before + i] == OnRequest(hs[i]))
      && c[before + |hs| - 1] == Invoke(hs[|hs| - 1])
  {
    var route := hs[..|hs| - 1];
    var h := hs[|hs| - 1];
    assert Router.Split(hs) == Some(Router.RouteParts(route, h));
    RouteMiddlewaresInOrder(app, collection, route, h, finish);
  }

  /** A finish handler added last runs last, after those added before it. */
  lemma FinishAppend(fs: seq<Handler>, h: Handler)
    ensures FinishPhase(fs + [h]) == FinishPhase(fs) + [Finish(h)]
  {
  }
}
