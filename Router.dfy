// The route-registration table of a collection (src/Router/Collection.php):
// a prefix, a main handler with its lazy flag, and a table keyed by HTTP
// method whose buckets map a route pattern to the ordered handler list given
// at registration. Method-agnostic `map` routes sit in the same table,
// directly under their pattern.
module Router {
  import opened Handlers

  /** What the table holds under one key: the bucket of an HTTP method
      (pattern to handler list), or the handler list of a method-agnostic
      route, stored under its pattern. */
  datatype Slot = Bucket(routes: map<string, seq<Handler>>) | Route(handlers: seq<Handler>)

  type Table = map<string, Slot>

  /** A registered handler list read as the framework reads it: every element
      but the last is a middleware, in definition order; the last is the
      route handler proper. */
  datatype RouteParts = RouteParts(middlewares: seq<Handler>, handler: Handler)

  /** The handler list registered under `verb` for `pattern`, if any. */
  function Lookup(t: Table, verb: string, pattern: string): Option<seq<Handler>>
  {
    if verb in t && t[verb].Bucket? && pattern in t[verb].routes
    then Some(t[verb].routes[pattern])
    else None
  }

  /** The handler list of the method-agnostic route stored under `pattern`, if any. */
  function LookupAny(t: Table, pattern: string): Option<seq<Handler>>
  {
    if pattern in t && t[pattern].Route? then Some(t[pattern].handlers) else None
  }

  /** The table key a registration writes: the method, or the pattern itself
      for a method-agnostic route. */
  function KeyOf(verb: Option<string>, pattern: string): string
  {
    match verb
    case Some(m) => m
    case None => pattern
  }

  /** The bucket of `verb`, or an empty one when the table has none. */
  function BucketOf(t: Table, verb: string): map<string, seq<Handler>>
  {
    if verb in t && t[verb].Bucket? then t[verb].routes else map[]
  }

  /** The table after one registration: the handler list replaces whatever
      the same (method, pattern) held, and every other registration is kept. */
  function Insert(t: Table, verb: Option<string>, pattern: string, hs: seq<Handler>): (r: Table)
    ensures r.Keys == t.Keys + {KeyOf(verb, pattern)}
    ensures verb.Some? ==> Lookup(r, verb.value, pattern) == Some(hs)
    ensures verb.Some? ==>
      forall m, p :: (m != verb.value || p != pattern) ==> Lookup(r, m, p) == Lookup(t, m, p)
    ensures verb.None? ==> LookupAny(r, pattern) == Some(hs)
    ensures verb.None? ==> forall m, p :: m != pattern ==> Lookup(r, m, p) == Lookup(t, m, p)
    ensures forall k :: k != KeyOf(verb, pattern) ==> LookupAny(r, k) == LookupAny(t, k)
  {
    match verb
    case None => t[pattern := Route(hs)]
    case Some(m) => t[m := Bucket(BucketOf(t, m)[pattern := hs])]
  }

  /** The table after registering one handler list under each of `methods`
      in turn, as `mapVia` does. */
  function InsertAll(t: Table, methods: seq<string>, pattern: string, hs: seq<Handler>): (r: Table)
    ensures r.Keys == t.Keys + set m | m in methods
    ensures forall m :: m in methods ==> Lookup(r, m, pattern) == Some(hs)
    ensures forall m, p :: (m !in methods || p != pattern) ==> Lookup(r, m, p) == Lookup(t, m, p)
    ensures forall k :: k !in methods ==> LookupAny(r, k) == LookupAny(t, k)
    decreases |methods|
  {
    if methods == [] then t
    else
      var last := methods[|methods| - 1];
      Insert(InsertAll(t, methods[..|methods| - 1], pattern, hs), Some(last), pattern, hs)
  }

  /** Registering the same (method, pattern) twice keeps only the second
      handler list: the table is keyed, so the later registration wins. */
  lemma ReRegisterReplaces(t: Table, verb: Option<string>, pattern: string, first: seq<Handler>, second: seq<Handler>)
    ensures Insert(Insert(t, verb, pattern, first), verb, pattern, second) == Insert(t, verb, pattern, second)
  {
    match verb
    case None =>
    case Some(m) =>
      var once := Insert(t, verb, pattern, first);
      assert BucketOf(once, m)[pattern := second] == BucketOf(t, m)[pattern := second];
  }

  /** Splits a registered handler list into its middlewares and its route
      handler; an empty list has no route handler. */
  function Split(hs: seq<Handler>): (r: Option<RouteParts>)
    ensures r.None? <==> hs == []
    ensures r.Some? ==> r.value.middlewares + [r.value.handler] == hs
  {
    if hs == [] then None else Some(RouteParts(hs[..|hs| - 1], hs[|hs| - 1]))
  }

  /** A collection of routes sharing a prefix and a main handler (the
      controller), registered method by method. */
  class Collection {
    var isLazy: bool
    var prefix: string
    var handler: Option<Handler>
    var handlers: Table

    /** A new collection: no main handler, not lazy, no prefix, no routes. */
    constructor ()
      ensures handler == None && !isLazy
      ensures prefix == ""
      ensures handlers == map[]
    {
      isLazy := false;
      prefix := "";
      handler := None;
      handlers := map[];
    }

    /** Registers `hs` under `verb` (or directly under `pattern` when no
        method is given), replacing what that key and pattern held. */
    method AddMap(verb: Option<string>, pattern: string, hs: seq<Handler>)
      modifies this`handlers
      ensures handlers == Insert(old(handlers), verb, pattern, hs)
    {
      match verb {
        case None =>
          handlers := handlers[pattern := Route(hs)];
        case Some(m) =>
          var bucket := if m in handlers && handlers[m].Bucket? then handlers[m].routes else map[];
          handlers := handlers[m := Bucket(bucket[pattern := hs])];
      }
    }

    method Delete(pattern: string, hs: seq<Handler>) returns (r: Collection)
      modifies this`handlers
      ensures handlers == Insert(old(handlers), Some("DELETE"), pattern, hs)
      ensures Lookup(handlers, "DELETE", pattern) == Some(hs)
      ensures r == this
    {
      AddMap(Some("DELETE"), pattern, hs);
      r := this;
    }

    method Get(pattern: string, hs: seq<Handler>) returns (r: Collection)
      modifies this`handlers
      ensures handlers == Insert(old(handlers), Some("GET"), pattern, hs)
      ensures Lookup(handlers, "GET", pattern) == Some(hs)
      ensures r == this
    {
      AddMap(Some("GET"), pattern, hs);
      r := this;
    }

    method Head(pattern: string, hs: seq<Handler>) returns (r: Collection)
      modifies this`handlers
      ensures handlers == Insert(old(handlers), Some("HEAD"), pattern, hs)
      ensures Lookup(handlers, "HEAD", pattern) == Some(hs)
      ensures r == this
    {
      AddMap(Some("HEAD"), pattern, hs);
      r := this;
    }

    method Options(pattern: string, hs: seq<Handler>) returns (r: Collection)
      modifies this`handlers
      ensures handlers == Insert(old(handlers), Some("OPTIONS"), pattern, hs)
      ensures Lookup(handlers, "OPTIONS", pattern) == Some(hs)
      ensures r == this
    {
      AddMap(Some("OPTIONS"), pattern, hs);
      r := this;
    }

    method Patch(pattern: string, hs: seq<Handler>) returns (r: Collection)
      modifies this`handlers
      ensures handlers == Insert(old(handlers), Some("PATCH"), pattern, hs)
      ensures Lookup(handlers, "PATCH", pattern) == Some(hs)
      ensures r == this
    {
      AddMap(Some("PATCH"), pattern, hs);
      r := this;
    }

    method Post(pattern: string, hs: seq<Handler>) returns (r: Collection)
      modifies this`handlers
      ensures handlers == Insert(old(handlers), Some("POST"), pattern, hs)
      ensures Lookup(handlers, "POST", pattern) == Some(hs)
      ensures r == this
    {
      AddMap(Some("POST"), pattern, hs);
      r := this;
    }

    method Put(pattern: string, hs: seq<Handler>) returns (r: Collection)
      modifies this`handlers
      ensures handlers == Insert(old(handlers), Some("PUT"), pattern, hs)
      ensures Lookup(handlers, "PUT", pattern) == Some(hs)
      ensures r == this
    {
      AddMap(Some("PUT"), pattern, hs);
      r := this;
    }

    /** Registers a route for every method: the list goes directly under the
        pattern key, not into a method bucket. */
    method Map(pattern: string, hs: seq<Handler>) returns (r: Collection)
      modifies this`handlers
      ensures handlers == Insert(old(handlers), None, pattern, hs)
      ensures LookupAny(handlers, pattern) == Some(hs)
      ensures r == this
    {
      AddMap(None, pattern, hs);
      r := this;
    }

    /** Registers the same handler list under each of `methods`. */
    method MapVia(pattern: string, methods: seq<string>, hs: seq<Handler>) returns (r: Collection)
      modifies this`handlers
      ensures handlers == InsertAll(old(handlers), methods, pattern, hs)
      ensures forall m :: m in methods ==> Lookup(handlers, m, pattern) == Some(hs)
      ensures r == this
    {
      var i := 0;
      while i < |methods|
        invariant 0 <= i <= |methods|
        invariant handlers == InsertAll(old(handlers), methods[..i], pattern, hs)
      {
        AddMap(Some(methods[i]), pattern, hs);
        assert methods[..i + 1][..i] == methods[..i];
        i := i + 1;
      }
      assert methods[..i] == methods;
      r := this;
    }

    method GetHandler() returns (h: Option<Handler>)
      ensures h == handler
    {
      h := handler;
    }

    method GetHandlers() returns (t: Table)
      ensures t == handlers
    {
      t := handlers;
    }

    method GetPrefix() returns (p: string)
      ensures p == prefix
    {
      p := prefix;
    }

    method IsLazy() returns (b: bool)
      ensures b == isLazy
    {
      b := isLazy;
    }

    /** Sets the main handler and whether it is loaded lazily (not, by default). */
    method SetHandler(h: Handler, lazy: bool := false) returns (r: Collection)
      modifies this`handler, this`isLazy
      ensures handler == Some(h) && isLazy == lazy
      ensures r == this
    {
      handler := Some(h);
      isLazy := lazy;
      r := this;
    }

    method SetLazy(lazy: bool) returns (r: Collection)
      modifies this`isLazy
      ensures isLazy == lazy
      ensures r == this
    {
      isLazy := lazy;
      r := this;
    }

    method SetPrefix(p: string) returns (r: Collection)
      modifies this`prefix
      ensures prefix == p
      ensures r == this
    {
      prefix := p;
      r := this;
    }
  }
}
