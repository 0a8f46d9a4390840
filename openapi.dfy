/**
  The customised OpenAPI document: once generated, every response of
  every operation advertises an `X-Process-Time` header, and the result is
  cached on the application so later calls serve the same document.

  The document is a nest of dictionaries that the code edits in place; here
  each level is a map of values, and each loop rebuilds the level it walks.
*/
module OpenApi {
  import opened Errors

  datatype Header = Header(description: string, schemaType: string)

  /** A response object; its `headers` entry may be absent. */
  datatype Response = Response(description: string, headers: Option<map<string, Header>>)

  /** An operation object; its `responses` entry may be absent. */
  datatype Operation = Operation(summary: string, responses: Option<map<string, Response>>)

  /** A path item: operations by HTTP method. */
  type PathItem = map<string, Operation>

  /** The document: its `paths` and everything else, which this code never touches. */
  datatype Schema = Schema(info: string, paths: map<string, PathItem>)

  const ProcessTimeHeaderName: string := "X-Process-Time"
  const ProcessTimeHeader: Header := Header("Time taken to process the request", "string")

  /**
    One response after the loop body: its headers (an empty dict when it had
    none) gain or overwrite `X-Process-Time`, and are attached to it.
  */
  function WithProcessTime(r: Response): (out: Response)
    ensures out.description == r.description
    ensures out.headers.Some?
    ensures ProcessTimeHeaderName in out.headers.value
    ensures out.headers.value[ProcessTimeHeaderName] == ProcessTimeHeader
    ensures forall h :: h != ProcessTimeHeaderName ==>
      (h in out.headers.value <==> r.headers.Some? && h in r.headers.value)
    ensures forall h :: h != ProcessTimeHeaderName && h in out.headers.value ==>
      out.headers.value[h] == r.headers.value[h]
  {
    r.(headers := Some(r.headers.GetOr(map[])[ProcessTimeHeaderName := ProcessTimeHeader]))
  }

  function InjectResponses(rs: map<string, Response>): (out: map<string, Response>)
    ensures out.Keys == rs.Keys
    ensures forall k :: k in rs ==> out[k] == WithProcessTime(rs[k])
  {
    map k | k in rs :: WithProcessTime(rs[k])
  }

  /**
    `method.get('responses', {})`: the default dict is never attached, so an
    operation without responses comes out as it went in.
  */
  function InjectOperation(op: Operation): (out: Operation)
    ensures op.responses.None? ==> out == op
    ensures out.summary == op.summary
    ensures op.responses.Some? ==> out.responses == Some(InjectResponses(op.responses.value))
  {
    match op.responses
    case None => op
    case Some(rs) => op.(responses := Some(InjectResponses(rs)))
  }

  function InjectPathItem(item: PathItem): (out: PathItem)
    ensures out.Keys == item.Keys
    ensures forall m :: m in item ==> out[m] == InjectOperation(item[m])
  {
    map m | m in item :: InjectOperation(item[m])
  }

  function InjectPaths(paths: map<string, PathItem>): (out: map<string, PathItem>)
    ensures out.Keys == paths.Keys
    ensures forall p :: p in paths ==> out[p] == InjectPathItem(paths[p])
  {
    map p | p in paths :: InjectPathItem(paths[p])
  }

  /** The document after the three nested loops. */
  function InjectSchema(s: Schema): (out: Schema)
    ensures out.info == s.info
    ensures out.paths == InjectPaths(s.paths)
  {
    s.(paths := InjectPaths(s.paths))
  }

  /** Every response under every path and method carries the `X-Process-Time` header. */
  ghost predicate EveryResponseTimed(s: Schema) {
    forall p, m, k ::
      p in s.paths && m in s.paths[p] && s.paths[p][m].responses.Some? && k in s.paths[p][m].responses.value ==>
        var r := s.paths[p][m].responses.value[k];
        r.headers.Some? && ProcessTimeHeaderName in r.headers.value &&
        r.headers.value[ProcessTimeHeaderName] == ProcessTimeHeader
  }

  lemma InjectedSchemaTimesEveryResponse(s: Schema)
    ensures EveryResponseTimed(InjectSchema(s))
  {
  }

  /**
    Nothing but headers changes: the same paths, methods and response codes,
    operations without responses as they were, and in each response every
    header other than `X-Process-Time` as it was.
  */
  lemma InjectionKeepsEverythingElse(s: Schema, p: string, m: string)
    requires p in s.paths && m in s.paths[p]
    ensures var out := InjectSchema(s);
      out.paths.Keys == s.paths.Keys && out.paths[p].Keys == s.paths[p].Keys &&
      (s.paths[p][m].responses.None? ==> out.paths[p][m] == s.paths[p][m]) &&
      (s.paths[p][m].responses.Some? ==>
        out.paths[p][m].responses.value.Keys == s.paths[p][m].responses.value.Keys &&
        forall k, h :: k in s.paths[p][m].responses.value && h != ProcessTimeHeaderName ==>
          var before := s.paths[p][m].responses.value[k];
          var after := out.paths[p][m].responses.value[k];
          (h in after.headers.value <==> before.headers.Some? && h in before.headers.value) &&
          (h in after.headers.value ==> after.headers.value[h] == before.headers.value[h]))
  {
  }

  lemma WithProcessTimeIsIdempotent(r: Response)
    ensures WithProcessTime(WithProcessTime(r)) == WithProcessTime(r)
  {
    var once := WithProcessTime(r).headers.value;
    assert once[ProcessTimeHeaderName := ProcessTimeHeader] == once;
  }

  /** Injecting twice gives the document injecting once gives, so a rebuild would not change it. */
  lemma {:induction false} InjectSchemaIsIdempotent(s: Schema)
    ensures InjectSchema(InjectSchema(s)) == InjectSchema(s)
  {
    var once := InjectSchema(s);
    forall p, m | p in s.paths && m in s.paths[p]
      ensures InjectOperation(once.paths[p][m]) == once.paths[p][m]
    {
      var op := s.paths[p][m];
      if op.responses.Some? {
        var rs := InjectResponses(op.responses.value);
        forall k | k in rs
          ensures WithProcessTime(rs[k]) == rs[k]
        {
          WithProcessTimeIsIdempotent(op.responses.value[k]);
        }
        assert InjectResponses(rs) == rs;
      }
    }
    forall p | p in s.paths
      ensures InjectPathItem(once.paths[p]) == once.paths[p]
    {
      assert InjectPathItem(once.paths[p]) == once.paths[p];
    }
    assert InjectPaths(once.paths) == once.paths;
  }

  // ---------------------------------------------------------------------
  // The loops

  /** The innermost loop: every response of one operation. */
  method InjectResponsesLoop(rs: map<string, Response>) returns (out: map<string, Response>)
    ensures out == InjectResponses(rs)
  {
    out := rs;
    var todo := rs.Keys;
    while todo != {}
      invariant todo <= rs.Keys && out.Keys == rs.Keys
      invariant forall k :: k in rs ==> out[k] == if k in todo then rs[k] else WithProcessTime(rs[k])
      decreases |todo|
    {
      var k :| k in todo;
      out := out[k := WithProcessTime(out[k])];
      todo := todo - {k};
    }
  }

  /** The middle loop: every operation of one path item. */
  method InjectPathItemLoop(item: PathItem) returns (out: PathItem)
    ensures out == InjectPathItem(item)
  {
    out := item;
    var todo := item.Keys;
    while todo != {}
      invariant todo <= item.Keys && out.Keys == item.Keys
      invariant forall m :: m in item ==> out[m] == if m in todo then item[m] else InjectOperation(item[m])
      decreases |todo|
    {
      var m :| m in todo;
      var op := out[m];
      if op.responses.Some? {
        var rs := InjectResponsesLoop(op.responses.value);
        out := out[m := op.(responses := Some(rs))];
      }
      todo := todo - {m};
    }
  }

  /** The outer loop: every path of the document. */
  method InjectProcessTimeHeaders(schema: Schema) returns (out: Schema)
    ensures out == InjectSchema(schema)
    ensures EveryResponseTimed(out)
  {
    var paths := schema.paths;
    var todo := paths.Keys;
    while todo != {}
      invariant todo <= schema.paths.Keys && paths.Keys == schema.paths.Keys
      invariant forall p :: p in schema.paths ==>
        paths[p] == if p in todo then schema.paths[p] else InjectPathItem(schema.paths[p])
      decreases |todo|
    {
      var p :| p in todo;
      var item := InjectPathItemLoop(paths[p]);
      paths := paths[p := item];
      todo := todo - {p};
    }
    out := schema.(paths := paths);
    InjectedSchemaTimesEveryResponse(schema);
  }

  // ---------------------------------------------------------------------
  // The cache

  /** The application object, as far as the schema cache goes. */
  class App {
    var openapiSchema: Option<Schema>

    constructor ()
      ensures openapiSchema.None?
    {
      openapiSchema := None;
    }

    /**
      `custom_openapi`: with a schema already cached, serve it untouched;
      otherwise take the freshly generated document, add the headers, cache
      it and serve that. What is served is always the cached schema.
    */
    method CustomOpenapi(generated: Schema) returns (served: Schema)
      modifies this
      ensures openapiSchema == Some(served)
      ensures old(openapiSchema).Some? ==> served == old(openapiSchema).value
      ensures old(openapiSchema).None? ==> served == InjectSchema(generated)
      ensures old(openapiSchema).None? ==> EveryResponseTimed(served)
    {
      if openapiSchema.Some? {
        return openapiSchema.value;
      }
      served := InjectProcessTimeHeaders(generated);
      openapiSchema := Some(served);
    }
  }

  /** A second call serves what the first one cached, whatever the generator would produce by then. */
  method ServeTwice(app: App, first: Schema, second: Schema) returns (s1: Schema, s2: Schema)
    modifies app
    ensures s1 == s2
    ensures old(app.openapiSchema).None? ==> s1 == InjectSchema(first)
  {
    s1 := app.CustomOpenapi(first);
    s2 := app.CustomOpenapi(second);
  }
}
