/** The reference resolvers: a file resolver, an HTTP resolver, an in-memory
    resolver for tests, and the composite that tries file first, then HTTP.
    The file system and the HTTP client are oracles the resolvers are built
    with; each resolver records the references its `resolve` was called on,
    so which sub-resolver the composite consulted is observable. */
module ReferenceResolvers {
  import opened Wrappers
  import opened Json
  import Text

  // ---------------------------------------------------------------------
  // File
  // ---------------------------------------------------------------------

  /** `FileReferenceResolver.resolve`: a path that does not exist fails with
      `File not found`; otherwise the file read and parsed (or the error of
      reading or parsing it). */
  function FileResolution(pathExists: string -> bool, readJson: string -> Result<Json>, ref: string): Result<Json> {
    if !pathExists(ref) then Err("File not found: " + ref) else readJson(ref)
  }

  class FileReferenceResolver {
    /** `fs.existsSync`. */
    const pathExists: string -> bool
    /** `JSON.parse(fs.readFileSync(path, 'utf-8'))`. */
    const readJson: string -> Result<Json>
    /** The references `resolve` has been called on, oldest first. */
    var requested: seq<string>

    constructor(pathExists: string -> bool, readJson: string -> Result<Json>)
      ensures this.pathExists == pathExists && this.readJson == readJson && requested == []
    {
      this.pathExists := pathExists;
      this.readJson := readJson;
      requested := [];
    }

    /** `canResolve`: the path exists. */
    predicate CanResolve(ref: string) {
      pathExists(ref)
    }

    method Resolve(ref: string) returns (r: Result<Json>)
      modifies this
      ensures r == FileResolution(pathExists, readJson, ref)
      ensures requested == old(requested) + [ref]
    {
      requested := requested + [ref];
      if !pathExists(ref) {
        return Err("File not found: " + ref);
      }
      r := readJson(ref);
    }
  }

  /** A file resolver's answer is never a success for a path that does not
      exist, and is the parsed file for one that does. */
  lemma FileResolutionNeedsFile(pathExists: string -> bool, readJson: string -> Result<Json>, ref: string)
    ensures FileResolution(pathExists, readJson, ref).Ok? ==> pathExists(ref) && readJson(ref) == FileResolution(pathExists, readJson, ref)
    ensures !pathExists(ref) ==> FileResolution(pathExists, readJson, ref) == Err("File not found: " + ref)
  {
  }

  // ---------------------------------------------------------------------
  // In memory
  // ---------------------------------------------------------------------

  class InMemoryResolver {
    var data: map<string, Json>

    constructor(data: map<string, Json>)
      ensures this.data == data
    {
      this.data := data;
    }

    /** `ref in this.data`: the key is present, whatever its value. */
    predicate CanResolve(ref: string)
      reads this
    {
      ref in data
    }

    /** `resolve`: the value, unless it is absent or falsy. */
    function Resolve(ref: string): (r: Result<Json>)
      reads this
      ensures r.Ok? <==> ref in data && Truthy(data[ref])
      ensures r.Ok? ==> r.value == data[ref]
      ensures r.Err? ==> r.error == "Mocked reference not found: " + ref
    {
      if ref !in data || !Truthy(data[ref]) then Err("Mocked reference not found: " + ref) else Ok(data[ref])
    }
  }

  /** What the in-memory resolver resolves it also claims to resolve, but a
      key that is present with a falsy value is claimed and still fails. */
  lemma InMemoryAsymmetry(m: InMemoryResolver, ref: string)
    ensures m.Resolve(ref).Ok? ==> m.CanResolve(ref)
    ensures m.CanResolve(ref) && !Truthy(m.data[ref]) ==> m.Resolve(ref).Err?
  {
  }

  // ---------------------------------------------------------------------
  // HTTP
  // ---------------------------------------------------------------------

  /** What `axios.get` gives: the response body, an error axios raised (which
      `axios.isAxiosError` recognises), or any other error. */
  datatype HttpReply = Response(data: Json) | ClientError(message: string) | OtherError(error: string)

  /** `HttpReferenceResolver.canResolve`. */
  predicate IsHttpReference(ref: string) {
    Text.StartsWith(ref, "http://") || Text.StartsWith(ref, "https://")
  }

  /** `HttpReferenceResolver.resolve`: the body, a client error re-thrown
      with the reference in front, any other error unchanged. */
  function HttpResolution(fetch: string -> HttpReply, ref: string): Result<Json> {
    match fetch(ref)
    case Response(data) => Ok(data)
    case ClientError(message) => Err("HTTP request failed for " + ref + ": " + message)
    case OtherError(error) => Err(error)
  }

  class HttpReferenceResolver {
    /** `axios.get`. */
    const fetch: string -> HttpReply
    /** The references `resolve` has been called on, oldest first. */
    var requested: seq<string>

    constructor(fetch: string -> HttpReply)
      ensures this.fetch == fetch && requested == []
    {
      this.fetch := fetch;
      requested := [];
    }

    predicate CanResolve(ref: string) {
      IsHttpReference(ref)
    }

    method Resolve(ref: string) returns (r: Result<Json>)
      modifies this
      ensures r == HttpResolution(fetch, ref)
      ensures requested == old(requested) + [ref]
    {
      requested := requested + [ref];
      var reply := fetch(ref);
      match reply
      case Response(data) => r := Ok(data);
      case ClientError(message) => r := Err("HTTP request failed for " + ref + ": " + message);
      case OtherError(error) => r := Err(error);
    }
  }

  /** Every `http://` and `https://` reference is claimed by the HTTP
      resolver, and nothing that does not begin with `http` is. */
  lemma HttpSchemes(rest: string, ref: string)
    ensures IsHttpReference("http://" + rest) && IsHttpReference("https://" + rest)
    ensures IsHttpReference(ref) ==> |ref| >= 7 && ref[..4] == "http"
  {
    if IsHttpReference(ref) {
      if Text.StartsWith(ref, "http://") {
        assert ref[..4] == ref[..7][..4];
      } else {
        assert ref[..4] == ref[..8][..4];
      }
    }
    assert ("http://" + rest)[..7] == "http://";
    assert ("https://" + rest)[..8] == "https://";
  }

  /** The error of a failed HTTP resolution: a client error names the
      reference and keeps the client's message; any other error is the
      original one. */
  lemma HttpErrors(fetch: string -> HttpReply, ref: string)
    ensures fetch(ref).ClientError? ==>
      && HttpResolution(fetch, ref).Err?
      && Text.StartsWith(HttpResolution(fetch, ref).error, "HTTP request failed for " + ref + ": ")
      && Text.EndsWith(HttpResolution(fetch, ref).error, fetch(ref).message)
    ensures fetch(ref).OtherError? ==> HttpResolution(fetch, ref) == Err(fetch(ref).error)
    ensures HttpResolution(fetch, ref).Ok? <==> fetch(ref).Response?
  {
    if fetch(ref).ClientError? {
      var e := HttpResolution(fetch, ref).error;
      var p := "HTTP request failed for " + ref + ": ";
      assert e == p + fetch(ref).message;
      assert e[..|p|] == p;
      assert e[|e| - |fetch(ref).message|..] == fetch(ref).message;
    }
  }

  // ---------------------------------------------------------------------
  // Composite
  // ---------------------------------------------------------------------

  /** The message the composite resolver fails with. */
  function UnableToResolve(ref: string): string {
    "Composite resolver: Unable to resolve reference " + ref
  }

  /** `CompositeReferenceResolver.resolve`: the file resolution when the file
      resolver claims the reference and succeeds, else the HTTP resolution
      when the HTTP resolver claims it and succeeds, else a fixed error. */
  function CompositeResolution(pathExists: string -> bool, readJson: string -> Result<Json>, fetch: string -> HttpReply, ref: string): Result<Json> {
    if pathExists(ref) && FileResolution(pathExists, readJson, ref).Ok? then FileResolution(pathExists, readJson, ref)
    else if IsHttpReference(ref) && HttpResolution(fetch, ref).Ok? then HttpResolution(fetch, ref)
    else Err(UnableToResolve(ref))
  }

  /** Whether the composite consults the HTTP resolver at all. */
  predicate HttpAttempted(pathExists: string -> bool, readJson: string -> Result<Json>, ref: string) {
    IsHttpReference(ref) && !(pathExists(ref) && FileResolution(pathExists, readJson, ref).Ok?)
  }

  class CompositeReferenceResolver {
    const file: FileReferenceResolver
    const http: HttpReferenceResolver

    constructor(pathExists: string -> bool, readJson: string -> Result<Json>, fetch: string -> HttpReply)
      ensures fresh(file) && fresh(http) && file != http as object
      ensures file.pathExists == pathExists && file.readJson == readJson && http.fetch == fetch
      ensures file.requested == [] && http.requested == []
    {
      file := new FileReferenceResolver(pathExists, readJson);
      http := new HttpReferenceResolver(fetch);
    }

    /** `canResolve`: either sub-resolver claims the reference. */
    predicate CanResolve(ref: string) {
      file.CanResolve(ref) || http.CanResolve(ref)
    }

    /** Try file, fall back to HTTP, then fail. The file resolver is called
        only when it claims the reference, the HTTP resolver only when it
        claims it and the file resolver did not deliver. */
    method Resolve(ref: string) returns (r: Result<Json>)
      modifies file, http
      ensures r == CompositeResolution(file.pathExists, file.readJson, http.fetch, ref)
      ensures file.requested == old(file.requested) + (if file.pathExists(ref) then [ref] else [])
      ensures http.requested == old(http.requested) + (if HttpAttempted(file.pathExists, file.readJson, ref) then [ref] else [])
    {
      if file.CanResolve(ref) {
        var viaFile := file.Resolve(ref);
        if viaFile.Ok? {
          return viaFile;
        }
      }
      if http.CanResolve(ref) {
        var viaHttp := http.Resolve(ref);
        if viaHttp.Ok? {
          return viaHttp;
        }
      }
      return Err(UnableToResolve(ref));
    }
  }

  /** When the file resolver claims the reference and delivers, that is the
      answer, and HTTP is never consulted. */
  lemma CompositePrefersFile(pathExists: string -> bool, readJson: string -> Result<Json>, fetch: string -> HttpReply, ref: string)
    requires pathExists(ref) && readJson(ref).Ok?
    ensures CompositeResolution(pathExists, readJson, fetch, ref) == readJson(ref)
    ensures !HttpAttempted(pathExists, readJson, ref)
  {
  }

  /** HTTP is consulted only for a web reference the file resolver did not
      deliver, and then its success is the answer. */
  lemma CompositeFallsBackToHttp(pathExists: string -> bool, readJson: string -> Result<Json>, fetch: string -> HttpReply, ref: string)
    ensures HttpAttempted(pathExists, readJson, ref) <==> IsHttpReference(ref) && (!pathExists(ref) || readJson(ref).Err?)
    ensures HttpAttempted(pathExists, readJson, ref) && fetch(ref).Response? ==>
      CompositeResolution(pathExists, readJson, fetch, ref) == Ok(fetch(ref).data)
  {
  }

  /** The composite fails exactly when neither sub-resolver delivered, and
      then always with the same message; whatever it resolves it claims. */
  lemma CompositeFailure(pathExists: string -> bool, readJson: string -> Result<Json>, fetch: string -> HttpReply, ref: string)
    ensures CompositeResolution(pathExists, readJson, fetch, ref).Err? <==>
      !(pathExists(ref) && readJson(ref).Ok?) && !(IsHttpReference(ref) && fetch(ref).Response?)
    ensures CompositeResolution(pathExists, readJson, fetch, ref).Err? ==>
      CompositeResolution(pathExists, readJson, fetch, ref).error == UnableToResolve(ref)
    ensures CompositeResolution(pathExists, readJson, fetch, ref).Ok? ==> pathExists(ref) || IsHttpReference(ref)
  {
  }
}
