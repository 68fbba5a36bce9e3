/** The server program: the default mux greeting every path, the literal
    table, and startup, which stacks the handlers JSON over YAML over the
    literal table over the mux, and panics on any read or decode error. */
module Program {
  import opened Go
  import opened Http
  import opened UrlShortener

  /** The table written into the program. */
  const LiteralTable: PathTable := map[
    "/urlshort-godoc" := "https://godoc.org/github.com/gophercises/urlshort",
    "/yaml-godoc" := "https://godoc.org/gopkg.in/yaml.v2"
  ]

  /** The literal table holds exactly its two godoc entries. */
  lemma LiteralTableEntries()
    ensures LiteralTable.Keys == {"/urlshort-godoc", "/yaml-godoc"}
    ensures LiteralTable["/urlshort-godoc"] == "https://godoc.org/github.com/gophercises/urlshort"
    ensures LiteralTable["/yaml-godoc"] == "https://godoc.org/gopkg.in/yaml.v2"
    ensures LiteralTable["/urlshort-godoc"] != LiteralTable["/yaml-godoc"]
  {
  }

  /** hello: writes the greeting for any path, leaving the status at its default 200. */
  function Hello(path: string): (r: Response)
  {
    Written(StatusOK, "Hello, world!\n")
  }

  /** The routes of the default mux. */
  function DefaultRoutes(): (routes: map<string, Handler>)
  {
    map["/" := Hello]
  }

  /** defaultMux: a new mux with hello registered at "/". */
  method DefaultMux() returns (mux: ServeMux)
    ensures fresh(mux) && mux.routes == DefaultRoutes()
  {
    mux := new ServeMux();
    mux.HandleFunc("/", Hello);
  }

  /** The default mux greets every path, since "/" matches them all. */
  lemma DefaultMuxGreets(p: string)
    ensures Serve(DefaultRoutes())(p) == Written(StatusOK, "Hello, world!\n")
  {
    assert Serve(DefaultRoutes())(p) == Route(DefaultRoutes(), p);
    if p != "/" {
      assert p !in DefaultRoutes();
    }
  }

  // ---------------------------------------------------------------------
  // The handler chain

  /** Map handlers stacked over `base`: `tables[0]` outermost, each laid over
      the next, the closure of layer i having captured `urls[i]`. */
  function Chain(tables: seq<PathTable>, urls: seq<string>, base: Handler): (h: Handler)
    requires |urls| == |tables|
    decreases |tables|
  {
    if tables == [] then base
    else Closure(tables[0], urls[0], Chain(tables[1..], urls[1..], base))
  }

  /** Each layer captured one of its own table's URLs. */
  ghost predicate Captures(tables: seq<PathTable>, urls: seq<string>)
  {
    |urls| == |tables| && forall i :: 0 <= i < |tables| ==> urls[i] in tables[i].Values
  }

  /** `h` is what stacking MapHandlers of `tables` over `base` can produce. */
  ghost predicate IsChain(h: Handler, tables: seq<PathTable>, base: Handler)
  {
    exists urls :: Captures(tables, urls) && h == Chain(tables, urls, base)
  }

  /** The first layer holding a path answers it, with its captured URL. */
  lemma {:induction false} ChainAnswersAtFirstHolder(tables: seq<PathTable>, urls: seq<string>, base: Handler, p: string, i: int)
    requires |urls| == |tables|
    requires 0 <= i < |tables| && p in tables[i]
    requires forall j :: 0 <= j < i ==> p !in tables[j]
    ensures Chain(tables, urls, base)(p) == Redirected(urls[i], StatusTemporaryRedirect)
  {
    var inner := Chain(tables[1..], urls[1..], base);
    assert Chain(tables, urls, base)(p) == Respond(tables[0], urls[0], inner, p);
    if i > 0 {
      assert p !in tables[0];
      ChainAnswersAtFirstHolder(tables[1..], urls[1..], base, p, i - 1);
    }
  }

  /** A path that no layer holds reaches `base`, response unchanged. */
  lemma {:induction false} ChainFallsThrough(tables: seq<PathTable>, urls: seq<string>, base: Handler, p: string)
    requires |urls| == |tables|
    requires forall j :: 0 <= j < |tables| ==> p !in tables[j]
    ensures Chain(tables, urls, base)(p) == base(p)
  {
    if tables != [] {
      var inner := Chain(tables[1..], urls[1..], base);
      assert p !in tables[0];
      assert Chain(tables, urls, base)(p) == Respond(tables[0], urls[0], inner, p);
      ChainFallsThrough(tables[1..], urls[1..], base, p);
    }
  }

  // ---------------------------------------------------------------------
  // Startup

  /** What os.ReadFile gives for a configured file. */
  datatype FileRead = Contents(bytes: seq<byte>) | Unreadable(err: Error)

  /** Reading one redirects file and building its table, with the panic
      main raises on a read or decode error and the one MapHandler raises
      on an empty table. */
  function Load(file: FileRead, unmarshal: Decoder): (r: Call<PathTable>)
    ensures r.Returned? ==> r.value != map[]
  {
    match file
    case Unreadable(e) => Panicked(Raised(e))
    case Contents(bytes) =>
      var parsed := ParseData(bytes, unmarshal);
      if parsed.err.Some? then Panicked(Raised(parsed.err.value))
      else if PathMap(parsed.records) == map[] then Panicked(NilHandler)
      else Returned(PathMap(parsed.records))
  }

  /** The outcomes of startup: the panic of the first configured file that
      fails, YAML before JSON; otherwise the server listens with a handler
      stacking the JSON table over the YAML table over the literal table
      over the default mux. */
  ghost predicate Started(yamlFile: FileRead, jsonFile: FileRead, codecs: Codecs, served: Call<Handler>)
  {
    var yaml := Load(yamlFile, codecs.yamlUnmarshal);
    var json := Load(jsonFile, codecs.jsonUnmarshal);
    if yaml.Panicked? then served == Panicked(yaml.cause)
    else if json.Panicked? then served == Panicked(json.cause)
    else served.Returned? && IsChain(served.value, [json.value, yaml.value, LiteralTable], Serve(DefaultRoutes()))
  }

  /** What Load says about a file whose decoded records YAMLHandler or
      JSONHandler has turned into `r`. */
  lemma LoadAgrees(bytes: seq<byte>, unmarshal: Decoder, fallback: Handler, r: Call<Built>)
    requires BuiltFrom(ParseData(bytes, unmarshal), fallback, r)
    ensures r.Panicked? ==> Load(Contents(bytes), unmarshal) == Panicked(r.cause)
    ensures r.Returned? && r.value.err.Some? ==> Load(Contents(bytes), unmarshal) == Panicked(Raised(r.value.err.value))
    ensures r.Returned? && r.value.err.None? ==>
      && r.value.handler.Some?
      && Load(Contents(bytes), unmarshal).Returned?
      && MapHandlerOutcome(Load(Contents(bytes), unmarshal).value, fallback, Returned(r.value.handler.value))
  {
  }

  /** Three closures, each over the next, form a chain of their tables. */
  lemma ChainOfThree(t0: PathTable, t1: PathTable, t2: PathTable, base: Handler, h0: Handler, h1: Handler, h2: Handler)
    requires MapHandlerOutcome(t2, base, Returned(h2))
    requires MapHandlerOutcome(t1, h2, Returned(h1))
    requires MapHandlerOutcome(t0, h1, Returned(h0))
    ensures IsChain(h0, [t0, t1, t2], base)
  {
    var u2 :| u2 in t2.Values && h2 == Closure(t2, u2, base);
    var u1 :| u1 in t1.Values && h1 == Closure(t1, u1, h2);
    var u0 :| u0 in t0.Values && h0 == Closure(t0, u0, h1);
    var tables, urls := [t0, t1, t2], [u0, u1, u2];
    assert tables[1..] == [t1, t2] && urls[1..] == [u1, u2];
    assert tables[2..] == [t2] && urls[2..] == [u2];
    assert tables[3..] == [] && urls[3..] == [];
    assert Captures(tables, urls);
    assert Chain(tables[3..], urls[3..], base) == base;
    assert Chain(tables[2..], urls[2..], base) == h2;
    assert Chain(tables[1..], urls[1..], base) == h1;
    assert Chain(tables, urls, base) == h0;
  }

  /** The body of main from the default mux on; `Returned(h)` means
      ListenAndServe is reached with handler `h`, `Panicked` that startup
      stopped before it. */
  method Start(yamlFile: FileRead, jsonFile: FileRead, codecs: Codecs) returns (served: Call<Handler>)
    ensures Started(yamlFile, jsonFile, codecs, served)
  {
    var mux := DefaultMux();
    var pathsToUrls := LiteralTable;
    assert "/yaml-godoc" in pathsToUrls;
    var mapHandler := MapHandler(pathsToUrls, mux.AsHandler());
    assert mapHandler.Returned?;

    if yamlFile.Unreadable? {
      return Panicked(Raised(yamlFile.err));
    }
    var yamlHandler := YAMLHandler(yamlFile.bytes, mapHandler.value, codecs);
    LoadAgrees(yamlFile.bytes, codecs.yamlUnmarshal, mapHandler.value, yamlHandler);
    if yamlHandler.Panicked? {
      return Panicked(yamlHandler.cause);
    }
    if yamlHandler.value.err.Some? {
      return Panicked(Raised(yamlHandler.value.err.value));
    }
    var hY := yamlHandler.value.handler.value;

    if jsonFile.Unreadable? {
      return Panicked(Raised(jsonFile.err));
    }
    var jsonHandler := JSONHandler(jsonFile.bytes, hY, codecs);
    LoadAgrees(jsonFile.bytes, codecs.jsonUnmarshal, hY, jsonHandler);
    if jsonHandler.Panicked? {
      return Panicked(jsonHandler.cause);
    }
    if jsonHandler.value.err.Some? {
      return Panicked(Raised(jsonHandler.value.err.value));
    }
    var hJ := jsonHandler.value.handler.value;
    ChainOfThree(Load(jsonFile, codecs.jsonUnmarshal).value, Load(yamlFile, codecs.yamlUnmarshal).value,
                 LiteralTable, Serve(DefaultRoutes()), hJ, hY, mapHandler.value);
    served := Returned(hJ);
  }

  /** The server only listens when both files were read and decoded, YAML
      first, and gave at least one record each; a read or decode error
      stops startup with that error: the YAML file's own, or, once the YAML
      table is built, the JSON file's. */
  lemma StartupAborts(yamlFile: FileRead, jsonFile: FileRead, codecs: Codecs, served: Call<Handler>)
    requires Started(yamlFile, jsonFile, codecs, served)
    ensures yamlFile.Unreadable? ==> served == Panicked(Raised(yamlFile.err))
    ensures yamlFile.Contents? && ParseData(yamlFile.bytes, codecs.yamlUnmarshal).err.Some? ==>
      served == Panicked(Raised(ParseData(yamlFile.bytes, codecs.yamlUnmarshal).err.value))
    ensures Load(yamlFile, codecs.yamlUnmarshal).Returned? && jsonFile.Unreadable? ==>
      served == Panicked(Raised(jsonFile.err))
    ensures Load(yamlFile, codecs.yamlUnmarshal).Returned? && jsonFile.Contents?
            && ParseData(jsonFile.bytes, codecs.jsonUnmarshal).err.Some? ==>
      served == Panicked(Raised(ParseData(jsonFile.bytes, codecs.jsonUnmarshal).err.value))
    ensures served.Returned? ==>
      && yamlFile.Contents? && jsonFile.Contents?
      && codecs.yamlUnmarshal(yamlFile.bytes).err.None? && codecs.jsonUnmarshal(jsonFile.bytes).err.None?
      && codecs.yamlUnmarshal(yamlFile.bytes).records != [] && codecs.jsonUnmarshal(jsonFile.bytes).records != []
  {
    if served.Returned? {
      PathMapEmpty(codecs.yamlUnmarshal(yamlFile.bytes).records);
      PathMapEmpty(codecs.jsonUnmarshal(jsonFile.bytes).records);
    }
  }

  // ---------------------------------------------------------------------
  // What the served handler does

  /** The response a table's MapHandler layer gives: a 307 redirect to one of its URLs. */
  ghost predicate RedirectsInto(r: Response, table: PathTable)
  {
    r.Redirected? && r.status == StatusTemporaryRedirect && r.location in table.Values
  }

  /** A path of the JSON table is answered by the JSON layer. */
  lemma JsonLayerFirst(h: Handler, json: PathTable, yaml: PathTable, p: string)
    requires IsChain(h, [json, yaml, LiteralTable], Serve(DefaultRoutes()))
    requires p in json
    ensures RedirectsInto(h(p), json)
  {
    var tables := [json, yaml, LiteralTable];
    var urls :| Captures(tables, urls) && h == Chain(tables, urls, Serve(DefaultRoutes()));
    ChainAnswersAtFirstHolder(tables, urls, Serve(DefaultRoutes()), p, 0);
  }

  /** A path of the YAML table and not of the JSON table is answered by the YAML layer. */
  lemma YamlLayerSecond(h: Handler, json: PathTable, yaml: PathTable, p: string)
    requires IsChain(h, [json, yaml, LiteralTable], Serve(DefaultRoutes()))
    requires p !in json && p in yaml
    ensures RedirectsInto(h(p), yaml)
  {
    var tables := [json, yaml, LiteralTable];
    var urls :| Captures(tables, urls) && h == Chain(tables, urls, Serve(DefaultRoutes()));
    ChainAnswersAtFirstHolder(tables, urls, Serve(DefaultRoutes()), p, 1);
  }

  /** A path of the literal table only is answered by the literal layer. */
  lemma LiteralLayerThird(h: Handler, json: PathTable, yaml: PathTable, p: string)
    requires IsChain(h, [json, yaml, LiteralTable], Serve(DefaultRoutes()))
    requires p !in json && p !in yaml && p in LiteralTable
    ensures RedirectsInto(h(p), LiteralTable)
  {
    var tables := [json, yaml, LiteralTable];
    var urls :| Captures(tables, urls) && h == Chain(tables, urls, Serve(DefaultRoutes()));
    ChainAnswersAtFirstHolder(tables, urls, Serve(DefaultRoutes()), p, 2);
  }

  /** A path in no table reaches hello. */
  lemma UnmatchedPathGreets(h: Handler, json: PathTable, yaml: PathTable, p: string)
    requires IsChain(h, [json, yaml, LiteralTable], Serve(DefaultRoutes()))
    requires p !in json && p !in yaml && p !in LiteralTable
    ensures h(p) == Written(StatusOK, "Hello, world!\n")
  {
    var tables := [json, yaml, LiteralTable];
    var urls :| Captures(tables, urls) && h == Chain(tables, urls, Serve(DefaultRoutes()));
    ChainFallsThrough(tables, urls, Serve(DefaultRoutes()), p);
    DefaultMuxGreets(p);
  }

  /** An outer layer overrides an inner one: with YAML records `/dup -> Z2`, a
      literal entry `/dup -> Z1` and no JSON entry for `/dup`, `/dup` goes to Z2. */
  lemma OuterLayerOverrides(h: Handler, json: PathTable, literal: PathTable, base: Handler, z1: string, z2: string)
    requires IsChain(h, [json, PathMap([Redirect("/dup", z2)]), literal], base)
    requires "/dup" !in json && "/dup" in literal && literal["/dup"] == z1
    ensures h("/dup") == Redirected(z2, StatusTemporaryRedirect)
  {
    var yaml := PathMap([Redirect("/dup", z2)]);
    assert [Redirect("/dup", z2)][..0] == [];
    assert yaml == map["/dup" := z2];
    assert yaml.Values == {z2} by {
      assert yaml["/dup"] == z2;
    }
    var tables := [json, yaml, literal];
    var urls :| Captures(tables, urls) && h == Chain(tables, urls, base);
    ChainAnswersAtFirstHolder(tables, urls, base, "/dup", 1);
  }

  /** The literal layer cannot send both of its paths to their own URLs:
      one of them gets the other's URL, whichever entry Go visited last. */
  lemma LiteralLayerMisroutes(h: Handler, fallback: Handler)
    requires MapHandlerOutcome(LiteralTable, fallback, Returned(h))
    ensures h("/urlshort-godoc") == Redirected(LiteralTable["/yaml-godoc"], StatusTemporaryRedirect)
         || h("/yaml-godoc") == Redirected(LiteralTable["/urlshort-godoc"], StatusTemporaryRedirect)
  {
    var u :| u in LiteralTable.Values && h == Closure(LiteralTable, u, fallback);
    assert h("/urlshort-godoc") == Redirected(u, StatusTemporaryRedirect);
    assert h("/yaml-godoc") == Redirected(u, StatusTemporaryRedirect);
  }
}
