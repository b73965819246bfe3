// Client code replaying tests/Router/CollectionTest.php and the mount
// guards of src/Application/Micro.php against the contracts alone: each
// assertion below follows from the specifications of the methods called.
module Scenarios {
  import opened Handlers
  import opened Router
  import opened Application

  /** The fixture of the collection tests: prefix `/foo`, a main handler. */
  method Fixture() returns (c: Collection)
    ensures fresh(c)
    ensures c.prefix == "/foo" && c.handler == Some(Action("MyApp\\Controller"))
    ensures !c.isLazy && c.handlers == map[]
  {
    c := new Collection();
    var _ := c.SetPrefix("/foo");
    var _ := c.SetHandler(Action("MyApp\\Controller"));
  }

  method RegistrationScenario()
  {
    var c := Fixture();
    var lazy := c.IsLazy();
    assert !lazy;

    var mw, closure := Callable("MyMiddleware"), Callable("closure");
    var _ := c.Delete("/{id}", [mw, closure, Action("deleteAction")]);
    var _ := c.Map("/", [mw, closure, Action("mapAction")]);
    var _ := c.MapVia("/{id}", ["GET", "POST", "PUT"], [mw, closure, Action("myMappedAction")]);
    var routes := c.GetHandlers();

    assert Lookup(routes, "DELETE", "/{id}") == Some([mw, closure, Action("deleteAction")]);
    assert LookupAny(routes, "/") == Some([mw, closure, Action("mapAction")]);
    assert "POST" in ["GET", "POST", "PUT"];
    assert Lookup(routes, "POST", "/{id}") == Some([mw, closure, Action("myMappedAction")]);
    assert Split([mw, closure, Action("deleteAction")]).value.handler == Action("deleteAction");

    var _ := c.SetLazy(true);
    lazy := c.IsLazy();
    assert lazy;
    var _ := c.SetPrefix("/bar");
    var prefix := c.GetPrefix();
    assert prefix == "/bar";
  }

  method MountScenario()
  {
    var app := new Micro();
    var c := new Collection();
    var r := app.Mount(c);
    assert r == Failed(MissingMainHandler);
    assert r.error.Message() == "Collection requires a main handler";

    var _ := c.SetHandler(Action("MyApp\\Controller"), true);
    r := app.Mount(c);
    assert r == Failed(NoHandlersToMount);

    var _ := c.Get("/", [Action("getAction")]);
    r := app.Mount(c);
    assert r.Mounted? && r.app == app;
    assert r.mainHandler == LazyLoader(Action("MyApp\\Controller"));
  }
}
