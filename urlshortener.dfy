/** The urlshortener package: redirect records, the path table built from
    them, the redirect-or-delegate handler, and the YAML and JSON handlers
    that decode a records file and wrap a fallback handler. */
module UrlShortener {
  import opened Go
  import opened Http

  /** One record of a redirects file. */
  datatype Redirect = Redirect(path: string, url: string)

  /** A map from request path to target URL. */
  type PathTable = map<string, string>

  /** What a decoder (yaml.Unmarshal, json.Unmarshal) leaves behind: the
      records it wrote through the pointer, possibly partial, and its error. */
  datatype Decoded = Decoded(records: seq<Redirect>, err: Option<Error>)

  type Decoder = seq<byte> -> Decoded

  /** The two foreign decoders the package calls. */
  datatype Codecs = Codecs(yamlUnmarshal: Decoder, jsonUnmarshal: Decoder)

  /** The two results of YAMLHandler and JSONHandler: a handler or nil, and an error or nil. */
  datatype Built = Built(handler: Option<Handler>, err: Option<Error>)

  // ---------------------------------------------------------------------
  // buildMap

  /** The paths named by some record. */
  function Paths(rs: seq<Redirect>): (ps: set<string>)
  {
    set r | r in rs :: r.path
  }

  /** The table obtained by writing the records into an empty map one after
      the other; it has an entry for exactly the paths of the records. */
  function PathMap(rs: seq<Redirect>): (m: PathTable)
    ensures m.Keys == Paths(rs)
  {
    if rs == [] then map[]
    else
      var last := rs[|rs| - 1];
      assert rs == rs[..|rs| - 1] + [last];
      PathMap(rs[..|rs| - 1])[last.path := last.url]
  }

  /** buildMap: stores every record's url under its path, in sequence order. */
  method BuildMap(pathUrls: seq<Redirect>) returns (pathMap: PathTable)
    ensures pathMap == PathMap(pathUrls)
  {
    pathMap := map[];
    for i := 0 to |pathUrls|
      invariant pathMap == PathMap(pathUrls[..i])
    {
      assert pathUrls[..i + 1][..i] == pathUrls[..i];
      pathMap := pathMap[pathUrls[i].path := pathUrls[i].url];
    }
    assert pathUrls[..|pathUrls|] == pathUrls;
  }

  /** No records give the empty table, and only no records do. */
  lemma PathMapEmpty(rs: seq<Redirect>)
    ensures PathMap(rs) == map[] <==> rs == []
  {
    if rs != [] {
      assert rs[0].path in Paths(rs);
    }
  }

  /** `rs[i]` is the last record for its path. */
  ghost predicate IsLastFor(rs: seq<Redirect>, i: int)
  {
    0 <= i < |rs| && forall j :: i < j < |rs| ==> rs[j].path != rs[i].path
  }

  /** Last write wins: a record that no later record overrides decides its path's URL. */
  lemma {:induction false} PathMapLastWins(rs: seq<Redirect>, i: int)
    requires IsLastFor(rs, i)
    ensures rs[i].path in PathMap(rs) && PathMap(rs)[rs[i].path] == rs[i].url
  {
    var init := rs[..|rs| - 1];
    if i < |rs| - 1 {
      assert IsLastFor(init, i);
      PathMapLastWins(init, i);
    }
  }

  /** Every entry of the table comes from its path's last record. */
  lemma {:induction false} PathMapFromLastRecord(rs: seq<Redirect>, p: string)
    requires p in PathMap(rs)
    ensures exists i :: IsLastFor(rs, i) && rs[i] == Redirect(p, PathMap(rs)[p])
  {
    assert rs != [] by {
      assert p in Paths(rs);
    }
    var init, last := rs[..|rs| - 1], rs[|rs| - 1];
    assert PathMap(rs) == PathMap(init)[last.path := last.url];
    if last.path == p {
      assert IsLastFor(rs, |rs| - 1);
    } else {
      assert p in PathMap(init);
      PathMapFromLastRecord(init, p);
      var i :| IsLastFor(init, i) && init[i] == Redirect(p, PathMap(init)[p]);
      assert rs == init + [last];
      forall j | i < j < |rs| ensures rs[j].path != rs[i].path {
        if j < |init| { assert rs[j] == init[j]; }
      }
      assert IsLastFor(rs, i);
    }
  }

  /** A path given twice, first with u1 and later with u2 and not again, maps to u2. */
  lemma PathMapDuplicate(a: seq<Redirect>, b: seq<Redirect>, c: seq<Redirect>, p: string, u1: string, u2: string)
    requires p !in Paths(c)
    ensures PathMap(a + [Redirect(p, u1)] + b + [Redirect(p, u2)] + c)[p] == u2
  {
    var rs := a + [Redirect(p, u1)] + b + [Redirect(p, u2)] + c;
    var i := |a| + 1 + |b|;
    assert rs[i] == Redirect(p, u2);
    forall j | i < j < |rs| ensures rs[j].path != p {
      assert rs[j] == c[j - i - 1];
    }
    assert IsLastFor(rs, i);
    PathMapLastWins(rs, i);
  }

  // ---------------------------------------------------------------------
  // MapHandler

  /** What the closure built by MapHandler does with a request for `path`:
      a key of the table gets a temporary redirect to the URL the closure
      captured, any other path is handed to the fallback. */
  function Respond(pathsToUrls: PathTable, urlToRedirect: string, fallback: Handler, path: string): (r: Response)
  {
    if path in pathsToUrls then Redirected(urlToRedirect, StatusTemporaryRedirect)
    else fallback(path)
  }

  /** The closure MapHandler builds on one iteration: it redirects every key
      of the table to the one URL it captured and hands every other path to
      the fallback. */
  function Closure(pathsToUrls: PathTable, urlToRedirect: string, fallback: Handler): (h: Handler)
  {
    (path: string) => Respond(pathsToUrls, urlToRedirect, fallback, path)
  }

  /** The outcomes MapHandler can have: a panic on the empty table, and
      otherwise the closure of some iteration, which captured one of the
      table's URLs. Which one depends on the map's iteration order. */
  ghost predicate MapHandlerOutcome(pathsToUrls: PathTable, fallback: Handler, r: Call<Handler>)
  {
    if pathsToUrls == map[] then r == Panicked(NilHandler)
    else r.Returned? && exists u :: u in pathsToUrls.Values && r.value == Closure(pathsToUrls, u, fallback)
  }

  /** MapHandler: every iteration over the table overwrites `handler` with a
      new closure, so the last one visited is returned; with no entry the
      handler stays nil and taking its method value panics. */
  method MapHandler(pathsToUrls: PathTable, fallback: Handler) returns (r: Call<Handler>)
    ensures MapHandlerOutcome(pathsToUrls, fallback, r)
  {
    var handler: Option<Handler> := None;
    var unvisited := pathsToUrls.Keys;
    while unvisited != {}
      invariant unvisited <= pathsToUrls.Keys
      invariant handler.None? <==> unvisited == pathsToUrls.Keys
      invariant handler.Some? ==>
        exists u :: u in pathsToUrls.Values && handler.value == Closure(pathsToUrls, u, fallback)
      decreases unvisited
    {
      var key :| key in unvisited;
      var urlToRedirect := pathsToUrls[key];
      assert urlToRedirect in pathsToUrls.Values;
      handler := Some(Closure(pathsToUrls, urlToRedirect, fallback));
      unvisited := unvisited - {key};
    }
    if handler.None? {
      assert pathsToUrls.Keys == {};
      r := Panicked(NilHandler);
    } else {
      assert pathsToUrls.Keys != {};
      r := Returned(handler.value);
    }
  }

  /** A handler of MapHandler delegates a path not in the table to the
      fallback, response unchanged, and answers a path in the table with a
      307 redirect to a URL of the table, the same for every key. */
  lemma {:induction false} MapHandlerDispatch(pathsToUrls: PathTable, fallback: Handler, h: Handler, p: string, q: string)
    requires MapHandlerOutcome(pathsToUrls, fallback, Returned(h))
    ensures p !in pathsToUrls ==> h(p) == fallback(p)
    ensures p in pathsToUrls ==>
      h(p).Redirected? && h(p).status == StatusTemporaryRedirect && h(p).location in pathsToUrls.Values
    ensures p in pathsToUrls && q in pathsToUrls ==> h(p) == h(q)
  {
    var u :| u in pathsToUrls.Values && h == Closure(pathsToUrls, u, fallback);
    assert h(p) == Respond(pathsToUrls, u, fallback, p);
    assert h(q) == Respond(pathsToUrls, u, fallback, q);
  }

  /** Every key redirects to its own URL exactly when all URLs of the table are equal. */
  lemma MapHandlerOwnTargets(pathsToUrls: PathTable, fallback: Handler, h: Handler)
    requires MapHandlerOutcome(pathsToUrls, fallback, Returned(h))
    ensures (forall k :: k in pathsToUrls ==> h(k) == Redirected(pathsToUrls[k], StatusTemporaryRedirect))
        <==> (forall k, l :: k in pathsToUrls && l in pathsToUrls ==> pathsToUrls[k] == pathsToUrls[l])
  {
    var u :| u in pathsToUrls.Values && h == Closure(pathsToUrls, u, fallback);
    var k0 :| k0 in pathsToUrls && pathsToUrls[k0] == u;
    forall k | k in pathsToUrls ensures h(k) == Redirected(u, StatusTemporaryRedirect) {
      assert h(k) == Respond(pathsToUrls, u, fallback, k);
    }
  }

  /** With two paths mapped to different URLs, whatever the iteration order,
      one of the paths is not redirected to its own URL (both get the same
      redirect). */
  lemma MapHandlerMisroutes(pathsToUrls: PathTable, fallback: Handler, h: Handler, k: string, l: string)
    requires MapHandlerOutcome(pathsToUrls, fallback, Returned(h))
    requires k in pathsToUrls && l in pathsToUrls && pathsToUrls[k] != pathsToUrls[l]
    ensures h(k) == h(l)
    ensures h(k) != Redirected(pathsToUrls[k], StatusTemporaryRedirect)
         || h(l) != Redirected(pathsToUrls[l], StatusTemporaryRedirect)
  {
    MapHandlerDispatch(pathsToUrls, fallback, h, k, l);
  }

  // ---------------------------------------------------------------------
  // parseData, YAMLHandler, JSONHandler

  /** parseData: the decoder's records when it succeeds; no records and its
      error when it fails, whatever it had written. */
  function ParseData(dataToParse: seq<byte>, parser: Decoder): (r: Decoded)
    ensures r.err == parser(dataToParse).err
    ensures r.err.None? ==> r.records == parser(dataToParse).records
    ensures r.err.Some? ==> r.records == []
  {
    var decoded := parser(dataToParse);
    if decoded.err.Some? then Decoded([], decoded.err)
    else Decoded(decoded.records, None)
  }

  /** The outcomes of decoding a records file and wrapping `fallback`: on a
      decode error a nil handler and that error; otherwise exactly what
      MapHandler does with the table built from the records. */
  ghost predicate BuiltFrom(parsed: Decoded, fallback: Handler, r: Call<Built>)
  {
    match parsed.err
    case Some(e) => r == Returned(Built(None, Some(e)))
    case None =>
      var pathMap := PathMap(parsed.records);
      if pathMap == map[] then r == Panicked(NilHandler)
      else r.Returned? && r.value.err.None? && r.value.handler.Some?
           && MapHandlerOutcome(pathMap, fallback, Returned(r.value.handler.value))
  }

  /** parse, then buildMap, then MapHandler, returning the parse error instead when there is one. */
  method HandlerFor(parsed: Decoded, fallback: Handler) returns (r: Call<Built>)
    ensures BuiltFrom(parsed, fallback, r)
  {
    if parsed.err.Some? {
      return Returned(Built(None, parsed.err));
    }
    var pathMap := BuildMap(parsed.records);
    var handler := MapHandler(pathMap, fallback);
    if handler.Panicked? {
      return Panicked(handler.cause);
    }
    r := Returned(Built(Some(handler.value), None));
  }

  /** YAMLHandler: a handler built from the YAML records, or the YAML decode error. */
  method YAMLHandler(yml: seq<byte>, fallback: Handler, codecs: Codecs) returns (r: Call<Built>)
    ensures BuiltFrom(ParseData(yml, codecs.yamlUnmarshal), fallback, r)
  {
    var parsedYaml := ParseData(yml, codecs.yamlUnmarshal);
    r := HandlerFor(parsedYaml, fallback);
  }

  /** JSONHandler: a handler built from the JSON records, or the JSON decode error. */
  method JSONHandler(jsonToParse: seq<byte>, fallback: Handler, codecs: Codecs) returns (r: Call<Built>)
    ensures BuiltFrom(ParseData(jsonToParse, codecs.jsonUnmarshal), fallback, r)
  {
    var parsedJson := ParseData(jsonToParse, codecs.jsonUnmarshal);
    r := HandlerFor(parsedJson, fallback);
  }

  /** A file that decodes to a single record redirects that record's path to its URL. */
  lemma SingleRecordRoundTrip(p: string, u: string, fallback: Handler, r: Call<Built>)
    requires BuiltFrom(Decoded([Redirect(p, u)], None), fallback, r)
    ensures r.Returned? && r.value.err.None? && r.value.handler.Some?
    ensures r.value.handler.value(p) == Redirected(u, StatusTemporaryRedirect)
  {
    var rs := [Redirect(p, u)];
    assert PathMap(rs) == map[][p := u] by {
      assert rs[..0] == [];
    }
    assert PathMap(rs).Values == {u} by {
      assert PathMap(rs)[p] == u;
    }
    MapHandlerDispatch(PathMap(rs), fallback, r.value.handler.value, p, p);
  }
}
