// Values shared by the router and the application: what a caller may pass
// where the framework accepts `callable|string`, and an optional value for
// the fields the framework leaves null until they are set.
module Handlers {

  /** A handler or middleware given at registration. Callables (closures,
      functions, invokable middleware objects) are opaque and known only by an
      identifier; a string names an action method of the collection's main handler
      (`'deleteAction'`). */
  datatype Handler = Callable(id: string) | Action(name: string)

  /** The conventional Some/None datatype, standing for a field that may be null. */
  datatype Option<+T> = None | Some(value: T)
}
