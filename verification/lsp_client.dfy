/** LspClient: a thin, stateless wrapper over the endpoint. Each operation builds the
    parameters of one request or notification, hands them to the endpoint, and, for the
    requests whose results are typed, decodes the untyped reply. */
module Client {
  import opened Results
  import opened Json
  import S = Structs
  import opened Decoders
  import opened Endpoints

  /** The client capabilities passed to initialize: a plain dict, sent as it is, or a
      typed ClientCapabilities model, sent as its alias-keyed dump (given here already
      dumped). */
  datatype Capabilities =
    | Dict(entries: Members)
    | Model(dump: Members)

  function CapabilitiesValue(c: Capabilities): Value {
    match c
    case Dict(entries) => Obj(entries)
    case Model(dump) => Obj(dump)
  }

  function OptionalInt(x: Option<int>): Value {
    match x case Some(n) => Num(n) case None => Null
  }

  function OptionalStr(x: Option<string>): Value {
    match x case Some(s) => Str(s) case None => Null
  }

  function OptionalList(x: Option<seq<Value>>): Value {
    match x case Some(xs) => Arr(xs) case None => Null
  }

  /** The names of the initialize parameters, in the order they are passed. */
  const InitializeKeys: seq<string> :=
    ["processId", "rootPath", "rootUri", "initializationOptions", "capabilities", "trace", "workspaceFolders"]

  /** The initialize parameters: all seven, in order, an omitted one as null. */
  function InitializeParams(processId: Option<int>, rootPath: Option<string>, rootUri: Option<string>,
                            initializationOptions: Value, capabilities: Capabilities,
                            trace: Option<string>, workspaceFolders: Option<seq<Value>>): (ps: Members)
    ensures |ps| == |InitializeKeys| && forall i | 0 <= i < |ps| :: ps[i].0 == InitializeKeys[i]
  {
    [("processId", OptionalInt(processId)), ("rootPath", OptionalStr(rootPath)),
     ("rootUri", OptionalStr(rootUri)), ("initializationOptions", initializationOptions),
     ("capabilities", CapabilitiesValue(capabilities)), ("trace", OptionalStr(trace)),
     ("workspaceFolders", OptionalList(workspaceFolders))]
  }

  /** What the server receives as the initialize parameters: the seven keys in order,
      each given value as it was given, an omitted one as null, and the capabilities
      exactly as given (a dict unchanged, a typed model as its dump). */
  lemma InitializeParamsSent(processId: Option<int>, rootPath: Option<string>, rootUri: Option<string>,
                             initializationOptions: Value, capabilities: Capabilities,
                             trace: Option<string>, workspaceFolders: Option<seq<Value>>)
    ensures var ps := InitializeParams(processId, rootPath, rootUri, initializationOptions, capabilities, trace, workspaceFolders);
      && Keys(ps) == InitializeKeys
      && (capabilities.Dict? ==> Get(Obj(ps), "capabilities") == Obj(capabilities.entries))
      && (capabilities.Model? ==> Get(Obj(ps), "capabilities") == Obj(capabilities.dump))
      && (processId.None? ==> Get(Obj(ps), "processId") == Null)
      && (processId.Some? ==> Get(Obj(ps), "processId") == Num(processId.value))
      && (rootPath.None? ==> Get(Obj(ps), "rootPath") == Null)
      && (rootPath.Some? ==> Get(Obj(ps), "rootPath") == Str(rootPath.value))
      && (rootUri.None? ==> Get(Obj(ps), "rootUri") == Null)
      && (rootUri.Some? ==> Get(Obj(ps), "rootUri") == Str(rootUri.value))
      && Get(Obj(ps), "initializationOptions") == initializationOptions
      && (trace.None? ==> Get(Obj(ps), "trace") == Null)
      && (trace.Some? ==> Get(Obj(ps), "trace") == Str(trace.value))
      && (workspaceFolders.None? ==> Get(Obj(ps), "workspaceFolders") == Null)
      && (workspaceFolders.Some? ==> Get(Obj(ps), "workspaceFolders") == Arr(workspaceFolders.value))
  {
    InitializeFields(InitializeParams(processId, rootPath, rootUri, initializationOptions, capabilities, trace, workspaceFolders));
  }

  /** Seven members named by the initialize keys, in order, read back as written. */
  lemma InitializeFields(ps: Members)
    requires |ps| == 7 && ps[0].0 == "processId" && ps[1].0 == "rootPath" && ps[2].0 == "rootUri"
    requires ps[3].0 == "initializationOptions" && ps[4].0 == "capabilities"
    requires ps[5].0 == "trace" && ps[6].0 == "workspaceFolders"
    ensures |ps| == |InitializeKeys| && forall i | 0 <= i < |ps| :: ps[i].0 == InitializeKeys[i]
    ensures Keys(ps) == InitializeKeys
    ensures Get(Obj(ps), "processId") == ps[0].1 && Get(Obj(ps), "rootPath") == ps[1].1
    ensures Get(Obj(ps), "rootUri") == ps[2].1 && Get(Obj(ps), "initializationOptions") == ps[3].1
    ensures Get(Obj(ps), "capabilities") == ps[4].1 && Get(Obj(ps), "trace") == ps[5].1
    ensures Get(Obj(ps), "workspaceFolders") == ps[6].1
  {
    InitializeKeysDistinct(ps);
    KeysOfDistinct(ps);
    FieldOf(ps, 0); FieldOf(ps, 1); FieldOf(ps, 2); FieldOf(ps, 3);
    FieldOf(ps, 4); FieldOf(ps, 5); FieldOf(ps, 6);
  }

  /** The seven initialize keys, in order, name seven different members. */
  lemma InitializeKeysDistinct(ps: Members)
    requires |ps| == 7 && ps[0].0 == "processId" && ps[1].0 == "rootPath" && ps[2].0 == "rootUri"
    requires ps[3].0 == "initializationOptions" && ps[4].0 == "capabilities"
    requires ps[5].0 == "trace" && ps[6].0 == "workspaceFolders"
    ensures |ps| == |InitializeKeys| && forall i | 0 <= i < |ps| :: ps[i].0 == InitializeKeys[i]
    ensures DistinctKeys(ps)
  {
  }

  /** Parameters of the requests made at a position in a document. */
  function PositionParams(textDocument: S.TextDocumentIdentifier, position: S.Position): Members {
    [("textDocument", S.EncodeTextDocumentIdentifier(textDocument)), ("position", S.EncodePosition(position))]
  }

  class LspClient {
    const endpoint: Endpoint

    constructor(endpoint: Endpoint)
      ensures this.endpoint == endpoint
    {
      this.endpoint := endpoint;
    }

    /** Refuses to start without capabilities, touching nothing; otherwise starts the
        endpoint, then sends `initialize` and returns its reply undecoded. */
    method Initialize(processId: Option<int>, rootPath: Option<string>, rootUri: Option<string>,
                      initializationOptions: Value, capabilities: Option<Capabilities>,
                      trace: Option<string>, workspaceFolders: Option<seq<Value>>)
      returns (r: Result<Value>)
      modifies endpoint
      ensures capabilities.None? ==>
        && r == Err(ValueError("capabilities is required"))
        && endpoint.trace == old(endpoint.trace) && endpoint.replies == old(endpoint.replies)
      ensures capabilities.Some? ==>
        && r == old(endpoint.NextReply())
        && endpoint.replies == old(endpoint.Remaining())
        && endpoint.trace == old(endpoint.trace) + [Started, Called("initialize",
             InitializeParams(processId, rootPath, rootUri, initializationOptions, capabilities.value, trace, workspaceFolders), r)]
    {
      match capabilities
      case None =>
        r := Err(ValueError("capabilities is required"));
      case Some(c) =>
        var params := InitializeParams(processId, rootPath, rootUri, initializationOptions, c, trace, workspaceFolders);
        endpoint.Start();
        r := endpoint.CallMethod("initialize", params);
    }

    method Initialized()
      modifies endpoint
      ensures endpoint.trace == old(endpoint.trace) + [Notified("initialized", [])]
      ensures endpoint.replies == old(endpoint.replies)
    {
      endpoint.SendNotification("initialized", []);
    }

    /** Stops the endpoint first, then sends `shutdown` and returns its reply undecoded. */
    method Shutdown() returns (r: Result<Value>)
      modifies endpoint
      ensures r == old(endpoint.NextReply())
      ensures endpoint.replies == old(endpoint.Remaining())
      ensures endpoint.trace == old(endpoint.trace) + [Stopped, Called("shutdown", [], r)]
    {
      endpoint.Stop();
      r := endpoint.CallMethod("shutdown", []);
    }

    method Exit()
      modifies endpoint
      ensures endpoint.trace == old(endpoint.trace) + [Notified("exit", [])]
      ensures endpoint.replies == old(endpoint.replies)
    {
      endpoint.SendNotification("exit", []);
    }

    method DidOpen(textDocument: S.TextDocumentItem)
      modifies endpoint
      ensures endpoint.trace == old(endpoint.trace) +
        [Notified("textDocument/didOpen", [("textDocument", S.EncodeTextDocumentItem(textDocument))])]
      ensures endpoint.replies == old(endpoint.replies)
    {
      endpoint.SendNotification("textDocument/didOpen", [("textDocument", S.EncodeTextDocumentItem(textDocument))]);
    }

    /** The content changes are passed on as given. */
    method DidChange(textDocument: S.TextDocumentItem, contentChanges: seq<Value>)
      modifies endpoint
      ensures endpoint.trace == old(endpoint.trace) +
        [Notified("textDocument/didChange",
                  [("textDocument", S.EncodeTextDocumentItem(textDocument)), ("contentChanges", Arr(contentChanges))])]
      ensures endpoint.replies == old(endpoint.replies)
    {
      endpoint.SendNotification("textDocument/didChange",
        [("textDocument", S.EncodeTextDocumentItem(textDocument)), ("contentChanges", Arr(contentChanges))]);
    }

    method DocumentSymbol(textDocument: S.TextDocumentIdentifier) returns (r: Result<SymbolsReply>)
      modifies endpoint
      ensures endpoint.replies == old(endpoint.Remaining())
      ensures endpoint.trace == old(endpoint.trace) + [Called("textDocument/documentSymbol",
        [("textDocument", S.EncodeTextDocumentIdentifier(textDocument))], old(endpoint.NextReply()))]
      ensures r == old(endpoint.NextReply()).Then(DecodeDocumentSymbols)
    {
      var reply :- endpoint.CallMethod("textDocument/documentSymbol",
        [("textDocument", S.EncodeTextDocumentIdentifier(textDocument))]);
      r := DecodeDocumentSymbols(reply);
    }

    method TypeDefinition(textDocument: S.TextDocumentIdentifier, position: S.Position)
      returns (r: Result<Option<seq<S.Location>>>)
      modifies endpoint
      ensures endpoint.replies == old(endpoint.Remaining())
      ensures endpoint.trace == old(endpoint.trace) + [Called("textDocument/typeDefinition",
        PositionParams(textDocument, position), old(endpoint.NextReply()))]
      ensures r == old(endpoint.NextReply()).Then(DecodeTypeDefinition)
    {
      var reply :- endpoint.CallMethod("textDocument/typeDefinition", PositionParams(textDocument, position));
      r := DecodeTypeDefinition(reply);
    }

    method SignatureHelp(textDocument: S.TextDocumentIdentifier, position: S.Position)
      returns (r: Result<Option<S.SignatureHelp>>)
      modifies endpoint
      ensures endpoint.replies == old(endpoint.Remaining())
      ensures endpoint.trace == old(endpoint.trace) + [Called("textDocument/signatureHelp",
        PositionParams(textDocument, position), old(endpoint.NextReply()))]
      ensures r == old(endpoint.NextReply()).Then(DecodeSignatureHelp)
    {
      var reply :- endpoint.CallMethod("textDocument/signatureHelp", PositionParams(textDocument, position));
      r := DecodeSignatureHelp(reply);
    }

    method Completion(textDocument: S.TextDocumentIdentifier, position: S.Position, context: S.CompletionContext)
      returns (r: Result<CompletionReply>)
      modifies endpoint
      ensures endpoint.replies == old(endpoint.Remaining())
      ensures endpoint.trace == old(endpoint.trace) + [Called("textDocument/completion",
        PositionParams(textDocument, position) + [("context", S.EncodeCompletionContext(context))],
        old(endpoint.NextReply()))]
      ensures r == old(endpoint.NextReply()).Then(DecodeCompletion)
    {
      var reply :- endpoint.CallMethod("textDocument/completion",
        PositionParams(textDocument, position) + [("context", S.EncodeCompletionContext(context))]);
      r := DecodeCompletion(reply);
    }

    method Declaration(textDocument: S.TextDocumentIdentifier, position: S.Position)
      returns (r: Result<LocationsReply>)
      modifies endpoint
      ensures endpoint.replies == old(endpoint.Remaining())
      ensures endpoint.trace == old(endpoint.trace) + [Called("textDocument/declaration",
        PositionParams(textDocument, position), old(endpoint.NextReply()))]
      ensures r == old(endpoint.NextReply()).Then(DecodeLocations)
    {
      var reply :- endpoint.CallMethod("textDocument/declaration", PositionParams(textDocument, position));
      r := DecodeLocations(reply);
    }

    method Definition(textDocument: S.TextDocumentIdentifier, position: S.Position)
      returns (r: Result<LocationsReply>)
      modifies endpoint
      ensures endpoint.replies == old(endpoint.Remaining())
      ensures endpoint.trace == old(endpoint.trace) + [Called("textDocument/definition",
        PositionParams(textDocument, position), old(endpoint.NextReply()))]
      ensures r == old(endpoint.NextReply()).Then(DecodeLocations)
    {
      var reply :- endpoint.CallMethod("textDocument/definition", PositionParams(textDocument, position));
      r := DecodeLocations(reply);
    }

    method Rename(textDocument: S.TextDocumentIdentifier, position: S.Position, newName: string)
      returns (r: Result<S.WorkspaceEdit>)
      modifies endpoint
      ensures endpoint.replies == old(endpoint.Remaining())
      ensures endpoint.trace == old(endpoint.trace) + [Called("textDocument/rename",
        PositionParams(textDocument, position) + [("newName", Str(newName))], old(endpoint.NextReply()))]
      ensures r == old(endpoint.NextReply()).Then(DecodeRename)
    {
      var reply :- endpoint.CallMethod("textDocument/rename",
        PositionParams(textDocument, position) + [("newName", Str(newName))]);
      r := DecodeRename(reply);
    }

    method References(textDocument: S.TextDocumentIdentifier, position: S.Position, context: S.ReferenceContext)
      returns (r: Result<seq<S.Location>>)
      modifies endpoint
      ensures endpoint.replies == old(endpoint.Remaining())
      ensures endpoint.trace == old(endpoint.trace) + [Called("textDocument/references",
        PositionParams(textDocument, position) + [("context", S.EncodeReferenceContext(context))],
        old(endpoint.NextReply()))]
      ensures r == old(endpoint.NextReply()).Then(DecodeLocationList)
    {
      var reply :- endpoint.CallMethod("textDocument/references",
        PositionParams(textDocument, position) + [("context", S.EncodeReferenceContext(context))]);
      r := DecodeLocationList(reply);
    }
  }
}
