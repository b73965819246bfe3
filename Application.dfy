// The Micro application (src/Application/Micro.php) together with the state
// it inherits from src/Application/AbstractApplication.php: the registers of
// finish, not-found, error, active and response handlers, the stop flag, the
// mounting of a route collection and the body-clearing step for HEAD.
module Application {
  import opened Handlers
  import Router

  /** Why `mount` refuses a collection; `Message` is the exception's text. */
  datatype MountError = MissingMainHandler | NoHandlersToMount {
    function Message(): (r: string)
      ensures MissingMainHandler? <==> r == "Collection requires a main handler"
      ensures NoHandlersToMount? <==> r == "Collection has no handlers to mount"
    {
      match this
      case MissingMainHandler => "Collection requires a main handler"
      case NoHandlersToMount => "Collection has no handlers to mount"
    }
  }

  /** The main handler as mounted: wrapped in a lazy loader, which resolves it
      on first use, or used as it is. */
  datatype MainHandlerRef = LazyLoader(definition: Handler) | Direct(handler: Handler)

  /** What `mount` yields: the application itself, with what it read from the
      collection, or the reason it refused. */
  datatype MountResult =
    | Mounted(app: Micro, mainHandler: MainHandlerRef, prefix: string, routes: Router.Table)
    | Failed(error: MountError)

  /** What the HEAD step needs of a request: its HTTP method. */
  datatype Request = Request(verb: string) {
    predicate IsHead() {
      verb == "HEAD"
    }
  }

  /** A model binder, known only by the models it reports as bound. */
  datatype ModelBinder = ModelBinder(boundModels: seq<string>)

  /** The response produced for a request; only its body is touched here. */
  class Response {
    var status: int
    var headers: map<string, string>
    var content: Option<string>

    constructor (status: int, headers: map<string, string>, content: Option<string>)
      ensures this.status == status && this.headers == headers && this.content == content
    {
      this.status := status;
      this.headers := headers;
      this.content := content;
    }

    method SetContent(c: Option<string>)
      modifies this`content
      ensures content == c
    {
      content := c;
    }
  }

  class Micro {
    var activeHandler: Option<Handler>
    var afterHandlers: seq<Handler>
    var beforeHandlers: seq<Handler>
    var errorHandler: Option<Handler>
    var finishHandlers: seq<Handler>
    var modelBinder: Option<ModelBinder>
    var notFoundHandler: Option<Handler>
    var responseHandler: Option<Handler>
    var stopped: bool

    /** A new application: every handler register empty, not stopped. */
    constructor ()
      ensures activeHandler == None && errorHandler == None
      ensures notFoundHandler == None && responseHandler == None
      ensures afterHandlers == [] && beforeHandlers == [] && finishHandlers == []
      ensures modelBinder == None && !stopped
    {
      activeHandler := None;
      afterHandlers := [];
      beforeHandlers := [];
      errorHandler := None;
      finishHandlers := [];
      modelBinder := None;
      notFoundHandler := None;
      responseHandler := None;
      stopped := false;
    }

    /** Installs the handler called when handling a route raises. */
    method Error(h: Handler) returns (r: Micro)
      modifies this`errorHandler
      ensures errorHandler == Some(h)
      ensures r == this
    {
      errorHandler := Some(h);
      r := this;
    }

    /** Appends a finish handler; those added earlier keep their order. */
    method Finish(h: Handler) returns (r: Micro)
      modifies this`finishHandlers
      ensures finishHandlers == old(finishHandlers) + [h]
      ensures r == this
    {
      finishHandlers := finishHandlers + [h];
      r := this;
    }

    method GetActiveHandler() returns (h: Option<Handler>)
      ensures h == activeHandler
    {
      h := activeHandler;
    }

    /** The models bound by the model binder; none when there is no binder. */
    method GetBoundModels() returns (models: seq<string>)
      ensures modelBinder.None? ==> models == []
      ensures modelBinder.Some? ==> models == modelBinder.value.boundModels
    {
      match modelBinder {
        case None => models := [];
        case Some(binder) => models := binder.boundModels;
      }
    }

    method NotFound(h: Handler) returns (r: Micro)
      modifies this`notFoundHandler
      ensures notFoundHandler == Some(h)
      ensures r == this
    {
      notFoundHandler := Some(h);
      r := this;
    }

    method SetActiveHandler(h: Handler)
      modifies this`activeHandler
      ensures activeHandler == Some(h)
    {
      activeHandler := Some(h);
    }

    method SetResponseHandler(h: Handler) returns (r: Micro)
      modifies this`responseHandler
      ensures responseHandler == Some(h)
      ensures r == this
    {
      responseHandler := Some(h);
      r := this;
    }

    /** Raises the stop flag; it stays raised whatever it was before. */
    method Stop()
      modifies this`stopped
      ensures stopped
    {
      stopped := true;
    }

    /** Checks a collection before mounting it: it needs a main handler, then
        at least one registration. The main handler is wrapped in a lazy
        loader when the collection is lazy. Nothing is modified. */
    method Mount(c: Router.Collection) returns (r: MountResult)
      ensures r.Mounted? <==> c.handler.Some? && c.handlers != map[]
      ensures c.handler.None? ==> r == Failed(MissingMainHandler)
      ensures c.handler.Some? && c.handlers == map[] ==> r == Failed(NoHandlersToMount)
      ensures r.Mounted? ==> r.app == this && r.prefix == c.prefix && r.routes == c.handlers
      ensures r.Mounted? && c.isLazy ==> r.mainHandler == LazyLoader(c.handler.value)
      ensures r.Mounted? && !c.isLazy ==> r.mainHandler == Direct(c.handler.value)
    {
      var main := c.GetHandler();
      if main.None? {
        return Failed(MissingMainHandler);
      }
      var routes := c.GetHandlers();
      if |routes| == 0 {
        return Failed(NoHandlersToMount);
      }
      var lazy := c.IsLazy();
      var wrapped := if lazy then LazyLoader(main.value) else Direct(main.value);
      var prefix := c.GetPrefix();
      r := Mounted(this, wrapped, prefix, routes);
    }

    /** The last step of handling a request: the response the middleware
        chain produced loses its body when the request is HEAD; its status
        and headers are kept. */
    method Handle(request: Request, response: Response) returns (r: Response)
      modifies response`content
      ensures r == response
      ensures request.IsHead() ==> r.content == None
      ensures !request.IsHead() ==> r.content == old(response.content)
    {
      if request.IsHead() {
        response.SetContent(None);
      }
      r := response;
    }
  }
}
