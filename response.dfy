/** response.go: the response helper of a request. The underlying writer is
    modelled by its observable state (header map, body, status code); the
    renderer is an opaque collaborator whose calls are recorded. */
module Responses {
  import opened Chains
  import opened Contexts

  /** A template renderer (Go: the Renderer interface), identified by name. */
  datatype Renderer = Renderer(name: string)

  /** One call renderer.Render(response, data, fileNames). */
  datatype RenderCall = RenderCall(renderer: Renderer, data: map<string, Value>, fileNames: seq<string>)

  /** strings.Join(parts, ""): the parts concatenated with no separator. */
  function Concat(parts: seq<string>): string
  {
    if parts == [] then "" else parts[0] + Concat(parts[1..])
  }

  /** Joining is compatible with splitting the list of parts. */
  lemma {:induction false} ConcatAppend(a: seq<string>, b: seq<string>)
    ensures Concat(a + b) == Concat(a) + Concat(b)
  {
    if a == [] {
      assert a + b == b;
    } else {
      assert (a + b)[1..] == a[1..] + b;
      ConcatAppend(a[1..], b);
    }
  }

  /** Every part appears, in order, between the parts before and after it. */
  lemma ConcatAt(parts: seq<string>, i: nat)
    requires i < |parts|
    ensures Concat(parts) == Concat(parts[..i]) + parts[i] + Concat(parts[i + 1..])
  {
    assert parts == parts[..i] + parts[i..];
    ConcatAppend(parts[..i], parts[i..]);
    assert parts[i..][1..] == parts[i + 1..];
  }

  /** response_test.go: Text("first", ":second:", "last") writes "first:second:last". */
  lemma ConcatExample()
    ensures Concat(["first", ":second:", "last"]) == "first:second:last"
  {
    assert ["first", ":second:", "last"][1..] == [":second:", "last"];
    assert [":second:", "last"][1..] == ["last"];
  }

  /** The store after every entry of data has been written into it. */
  function Merge(store: map<string, Value>, data: map<string, Value>): (r: map<string, Value>)
    ensures r.Keys == store.Keys + data.Keys
    ensures forall k :: k in data ==> r[k] == data[k]
    ensures forall k :: k in store && k !in data ==> r[k] == store[k]
  {
    store + data
  }

  const ContentType: string := "Content-Type"

  class Response {
    /** The writer's header map. */
    var header: map<string, string>
    /** The bytes written to the writer so far. */
    var body: string
    /** The writer's status code (200 until one is written). */
    var status: int
    /** The configured renderer (Go: the embedded Renderer, nil until set). */
    var renderer: Option<Renderer>
    /** The Render calls made so far. */
    var renders: seq<RenderCall>
    /** The context of the request. */
    const ctx: Context

    /** newResponse: a response over an empty writer, with no renderer. */
    constructor (ctx: Context)
      ensures this.ctx == ctx
      ensures header == map[] && body == "" && status == 200
      ensures renderer == None && renders == []
    {
      header := map[];
      body := "";
      status := 200;
      renderer := None;
      renders := [];
      this.ctx := ctx;
    }

    /** Replaces the renderer; nothing else changes. */
    method SetRenderer(r: Renderer)
      modifies this`renderer
      ensures renderer == Some(r)
    {
      renderer := Some(r);
    }

    /** http.ResponseWriter.WriteHeader: records the status code. */
    method WriteHeader(code: int)
      modifies this`status
      ensures status == code
    {
      status := code;
    }

    /** Sets Content-Type to text/plain and appends the parts, joined with no separator, to the body. */
    method Text(parts: seq<string>)
      modifies this`header, this`body
      ensures header == old(header)[ContentType := "text/plain"]
      ensures body == old(body) + Concat(parts)
    {
      header := header[ContentType := "text/plain"];
      body := body + Concat(parts);
    }

    /** Writes every entry of data (when data is not nil) into the context's
        store, sets Content-Type to text/html and calls the renderer once with
        the store and the file names. Without a renderer the call panics after
        the header is set: panicked is true and no render is recorded. */
    method HTML(data: Option<map<string, Value>>, fileNames: seq<string>) returns (panicked: bool)
      modifies this`header, this`renders, ctx`data
      ensures data.Some? ==> ctx.data == Merge(old(ctx.data), data.value)
      ensures data.None? ==> ctx.data == old(ctx.data)
      ensures header == old(header)[ContentType := "text/html"]
      ensures panicked <==> renderer.None?
      ensures renders == if panicked then old(renders)
                         else old(renders) + [RenderCall(renderer.value, ctx.data, fileNames)]
    {
      if data.Some? {
        var pending := data.value.Keys;
        while pending != {}
          invariant pending <= data.value.Keys
          invariant header == old(header) && renders == old(renders)
          invariant ctx.data == Merge(old(ctx.data), map k | k in data.value.Keys - pending :: data.value[k])
          decreases pending
        {
          var k :| k in pending;
          ctx.data := ctx.data[k := data.value[k]];
          pending := pending - {k};
        }
        assert data.value.Keys - pending == data.value.Keys;
        assert (map k | k in data.value.Keys :: data.value[k]) == data.value;
      }
      header := header[ContentType := "text/html"];
      if renderer.None? {
        panicked := true;
      } else {
        panicked := false;
        renders := renders + [RenderCall(renderer.value, ctx.data, fileNames)];
      }
    }

    /** Sets Content-Type to application/json; writes no body. */
    method JSON(data: Value)
      modifies this`header
      ensures header == old(header)[ContentType := "application/json"]
    {
      header := header[ContentType := "application/json"];
    }

    /** Sets Content-Type to text/xml; writes no body. */
    method XML(data: Value)
      modifies this`header
      ensures header == old(header)[ContentType := "text/xml"]
    {
      header := header[ContentType := "text/xml"];
    }
  }
}
