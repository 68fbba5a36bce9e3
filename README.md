# go-urlshortener, modelled in Dafny

A model of a small URL-redirection server written in Go. The server reads
two redirects files, one YAML and one JSON, each a list of `path`/`url`
records. It turns each list into a table from path to URL. It then stacks
redirect handlers: the JSON table over the YAML table, over a table written
into the program, over a default mux that greets every path. A request whose
path is a key of a table gets a 307 redirect. Any other request falls through
to the next handler.

Files:

- `go.dfy` (module `Go`): Go-level values: `Option` for nil, `Error`, and
  `Call`, a call that returns a value or panics (`Cause`).
- `http.dfy` (module `Http`): the net/http pieces the program uses. A
  `Response` is a redirect or a written status and body. A `Handler` is a
  function from request path to `Response`. `ServeMux` is a class whose
  `routes` map grows by `HandleFunc`.
- `urlshortener.dfy` (module `UrlShortener`): `urlshortener/handler.go`.
- `program.dfy` (module `Program`): `main.go`.

Modelling choices:

- `buildMap` is the method `BuildMap`, proved against the fold `PathMap`.
- `MapHandler` is a method with the source's loop over the map. Go's map
  iteration order is unspecified, so each step picks an unvisited key with
  `:|`. Each iteration overwrites `handler` with a new closure, so the result
  is the closure of the last entry visited. `Closure(table, url, fallback)`
  is that closure's value: it answers every key of the table with a redirect
  to the one captured `url`. `Respond` is that closure's per-request rule
  (urlshortener/handler.go:20-26); `MapHandlerDispatch` states what it does. With an empty table the handler stays nil, and
  taking its method value `handler.ServeHTTP` panics (`Panicked(NilHandler)`).
- `yaml.Unmarshal` and `json.Unmarshal` are parameters (`Codecs`). Each
  gives a `Decoded`: the records it wrote through the pointer, which may be
  partial, and its error. `parseYAML` and `parseJSON` are `ParseData` applied
  to the matching decoder, inside `YAMLHandler` and `JSONHandler`.
- The shared code of `YAMLHandler` and `JSONHandler` (decode, then
  `buildMap`, then `MapHandler`) is the method `HandlerFor`.
- `Hello` is `hello` (main.go:63-65); `DefaultMuxGreets` and
  `UnmatchedPathGreets` state the greeting it writes.
- `main` is modelled from `defaultMux()` on, as the method `Program.Start`.
  It takes what `os.ReadFile` returned for each file (`FileRead`). If it
  returns `Returned(h)`, the server listens with `h`. If it returns
  `Panicked(cause)`, startup stopped before `ListenAndServe`.
- The served handler is described by `IsChain`: the handler is a `Chain` of
  closures over the three tables and the mux, each closure capturing one URL
  of its own table.

Where the code and the documented intent disagree, the model follows the
code:

- The doc comment of `MapHandler` says each path redirects to its own URL. The code redirects every path of a table to
  one URL, whichever entry was iterated last. `MapHandlerOwnTargets` proves
  that each key gets its own URL exactly when all URLs of the table are
  equal. `LiteralLayerMisroutes` proves that in the literal table one of the
  two paths is always sent to the other path's URL.
- An empty table would naturally give a handler that always delegates. The
  code panics instead, so a redirects file that decodes to no
  records stops startup (`Load`, `StartupAborts`).
- The default mux never answers 404: it registers only `"/"`, which matches every path, so every clean path
  that no table holds gets the greeting (`UnmatchedPathGreets`). A path that
  needs cleaning, such as `/a/../b`, gets a 301 to the cleaned path from the
  real mux; that is not modelled.

## Model

| member | source | states |
|---|---|---|
| `Http.ServeMux.constructor` | main.go:58 | a new mux has no routes |
| `Http.ServeMux.HandleFunc` | main.go:59 | registering adds exactly that pattern's route and changes nothing else |
| `UrlShortener.PathMap` | urlshortener/handler.go:106-114 | the table built from the records has a key for exactly the paths of the records |
| `UrlShortener.BuildMap` | urlshortener/handler.go:106-114 | the loop writing each record into an empty map gives the fold `PathMap` of the records |
| `UrlShortener.PathMapEmpty` | urlshortener/handler.go:107-113 | the table is empty exactly when there are no records |
| `UrlShortener.PathMapLastWins` | urlshortener/handler.go:109-111 | a record with no later record for its path decides that path's URL |
| `UrlShortener.PathMapFromLastRecord` | urlshortener/handler.go:109-111 | every entry of the table is the path and URL of the last record for that path |
| `UrlShortener.PathMapDuplicate` | urlshortener/handler.go:109-111 | a path given with u1 and later with u2, and not again, maps to u2 |
| `UrlShortener.MapHandler` | urlshortener/handler.go:17-29 | an empty table panics; otherwise the result is a closure that captured one of the table's URLs |
| `UrlShortener.MapHandlerDispatch` | urlshortener/handler.go:20-26 | a path not in the table goes to the fallback with its response unchanged; a path in the table gets a 307 redirect to a URL of the table, the same for every key |
| `UrlShortener.MapHandlerOwnTargets` | urlshortener/handler.go:11-28 | every key redirects to its own URL exactly when all URLs of the table are equal |
| `UrlShortener.MapHandlerMisroutes` | urlshortener/handler.go:18-28 | two keys mapped to different URLs get the same response, so one of them is not redirected to its own URL, whatever the iteration order |
| `UrlShortener.ParseData` | urlshortener/handler.go:95-104 | on a decoder error, no records and that error; otherwise the decoder's records unchanged |
| `UrlShortener.HandlerFor` | urlshortener/handler.go:45-50 | on a decode error, a nil handler and that error; otherwise exactly the outcomes of `MapHandler` on the table built from the records |
| `UrlShortener.YAMLHandler` | urlshortener/handler.go:44-51 | the same, for the records the YAML decoder gives |
| `UrlShortener.JSONHandler` | urlshortener/handler.go:72-80 | the same, for the records the JSON decoder gives |
| `UrlShortener.SingleRecordRoundTrip` | urlshortener/handler.go:45-50 | a file decoding to the single record (p, u) gives a handler that redirects p to u with 307 |
| `Program.DefaultMux` | main.go:57-61 | a new mux whose only route is `"/"` to hello |
| `Program.DefaultMuxGreets` | main.go:57-65 | the default mux answers every path with status 200 and body "Hello, world!\n" |
| `Program.Load` | main.go:33-40 | reading, decoding and tabulating one file either panics or gives a non-empty table |
| `Program.ChainAnswersAtFirstHolder` | main.go:29-48 | in stacked map handlers, the outermost layer holding a path answers it with that layer's URL |
| `Program.ChainFallsThrough` | main.go:29-48 | a path held by no layer reaches the innermost handler, response unchanged |
| `Program.Start` | main.go:22-54 | startup panics with the first failure (YAML read, YAML decode or empty YAML table, then the same for JSON); otherwise it serves JSON over YAML over the literal table over the default mux |
| `Program.StartupAborts` | main.go:33-51 | a YAML read or decode error stops startup with that error; once the YAML table is built, a JSON read or decode error stops it with the JSON error; the server listens only if both files were read and decoded to at least one record each |
| `Program.JsonLayerFirst` | main.go:48-54 | a path of the JSON table is answered by a 307 redirect to a JSON URL, whatever the other tables hold |
| `Program.YamlLayerSecond` | main.go:37-48 | a path of the YAML table and not of the JSON table gets a 307 redirect to a YAML URL |
| `Program.LiteralLayerThird` | main.go:25-37 | a path only in the literal table gets a 307 redirect to a literal URL |
| `Program.UnmatchedPathGreets` | main.go:57-65 | a path in no table reaches hello: status 200, body "Hello, world!\n" |
| `Program.OuterLayerOverrides` | main.go:29-48 | with YAML holding only `/dup -> Z2`, the literal table `/dup -> Z1` and JSON not `/dup`, `/dup` is redirected to Z2 |
| `Program.LiteralLayerMisroutes` | main.go:25-29 | one of `/urlshort-godoc` and `/yaml-godoc` is redirected to the other's URL, whichever entry the loop visited last |
| `Program.LiteralTableEntries` | main.go:25-28 | the literal table holds exactly `/urlshort-godoc` and `/yaml-godoc`, with their two different godoc URLs |

## Left out

- YAML and JSON decoding (`gopkg.in/yaml.v2`, `encoding/json`): foreign
  libraries, modelled as the decoder parameters in `Codecs`.
- `http.Redirect` details: the rewriting of relative URLs in the Location
  header and the HTML body. The model keeps the location and the 307 status.
- `ServeMux` routing beyond what the default mux needs: path cleaning with
  its 301 redirects, host patterns, and subtree patterns other than `"/"`.
- `Http.ServeMux.HandleFunc`: the panic on an empty or already registered
  pattern is a precondition, because `defaultMux` registers one pattern on a
  new mux.
- `Program.DefaultMux` and `Program.Start`: the mux is passed on as the
  handler of the routes it holds when it is passed on, so aliasing of the
  mux is not modelled. Nothing changes the mux afterwards.
- `ResponseWriter` and `Request` plumbing: headers other than Location, and
  request methods.
- `fmt.Println(pathMap["short"])` in `JSONHandler`, and the startup message
  in `main`: console output with no effect on behaviour.
- Flag parsing and `-h` handling (main.go:13-20), `os.ReadFile` (its result
  is a parameter), `http.ListenAndServe` on :8080, and panic as process
  termination.
- Concurrent dispatch of requests: the tables and handlers never change
  after startup.
- Go's map iteration order: modelled as an arbitrary choice of entry.
