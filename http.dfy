/** The part of net/http that the program relies on: responses, handlers as
    functions from a request path to a response, and a ServeMux. */
module Http {

  const StatusOK := 200
  const StatusTemporaryRedirect := 307
  const StatusNotFound := 404

  /** What a handler writes back for one request. */
  datatype Response =
    | Redirected(location: string, status: int)   // http.Redirect: a Location header and a status
    | Written(status: int, body: string)          // a status and a body

  /** An http.Handler, observed through the path of the request it serves. */
  type Handler = string -> Response

  /** What http.NotFound writes. */
  const NotFoundResponse := Written(StatusNotFound, "404 page not found\n")

  /** How a ServeMux chooses among its routes: a pattern equal to the path,
      otherwise the root pattern "/", which matches every path, otherwise 404. */
  function Route(routes: map<string, Handler>, path: string): (r: Response)
  {
    if path in routes then routes[path](path)
    else if "/" in routes then routes["/"](path)
    else NotFoundResponse
  }

  /** The handler a ServeMux with the given routes acts as. */
  function Serve(routes: map<string, Handler>): (h: Handler)
  {
    (path: string) => Route(routes, path)
  }

  /** An http.ServeMux: a table of patterns that grows by registration. */
  class ServeMux {
    var routes: map<string, Handler>

    /** http.NewServeMux: no pattern registered. */
    constructor ()
      ensures routes == map[]
    {
      routes := map[];
    }

    /** ServeMux.HandleFunc: registers `handler` for `pattern`. */
    method HandleFunc(pattern: string, handler: Handler)
      requires pattern != "" && pattern !in routes
      modifies this
      ensures routes == old(routes)[pattern := handler]
    {
      routes := routes[pattern := handler];
    }

    /** The mux used as an http.Handler, with the routes it has now. */
    function AsHandler(): (h: Handler)
      reads this
    {
      Serve(routes)
    }
  }
}
