# pylspclient LspClient in Dafny

This project models `LspClient`, the request layer of pylspclient. The client turns typed
Language Server Protocol calls into JSON-RPC requests and notifications on an
`LspEndpoint`. It turns the server's untyped JSON replies back into typed values. Most of its
logic is in the decoders. Each decoder tries the shapes a reply may have in a fixed order, and
falls back to the next shape only when a Pydantic `ValidationError` is raised.

The model has these modules:

- `Results` (results.dfy): `Option` and `Result`, and the Python exceptions an operation can
  raise. `MapAll` is a list comprehension whose element function may raise.
- `Json` (json.dfy): parsed JSON values. Objects keep their members in order, as a Python dict
  keeps insertion order. The Python operations the client applies to a reply are spelled out:
  `k in v`, `for x in v`, `v[k]`, dict lookup and `items()`, and truthiness. `Get` is the field
  read of model validation, where a missing field or a non-dict reads as null.
- `Structs` (lsp_structs.dfy): the protocol structures the client builds. Each has a
  validator with the structural check that `model_validate` makes: required fields present
  with the right primitive types, unknown fields ignored. Each also has its wire form.
- `Decoders` (decoders.dfy): the reply decoding of documentSymbol, typeDefinition,
  signatureHelp, completion, declaration, definition, rename and references, as pure functions.
- `DecoderLaws` (decoder_laws.dfy): the decoders on the replies a conforming server sends.
  Each shape comes back as itself, and the shapes that must be told apart are told apart.
- `Endpoints` (endpoint.dfy): the endpoint as the client sees it. It holds a queue of
  replies and records, as a ghost trace, what the client asked of it.
- `Client` (lsp_client.dfy): the `LspClient` class. Each method changes the endpoint's trace
  and queue, and its contract states the new state and the decoded result.

The endpoint's transport is outside the model: framing, the reader thread, and matching
replies to request ids. Its `call_method` is given by the queue of replies. An exhausted
queue stands for a closed connection, and the request then raises.

Three facts about pylspclient/lsp_client.py shape the model:

- The client keeps no lifecycle state. It forwards document requests in any state.
- A reply that fits no candidate shape raises Pydantic's `ValidationError`. No separate
  malformed-response error exists.
- `signatureHelp` and `definition` accept `workDoneToken` and `partialResultToken`
  (lines 178-179 and 248-249), but never send them.

## Model

| member | source | states |
|---|---|---|
| Results.MapAll | pylspclient/lsp_client.py:154 | a comprehension succeeds iff every element converts; then it keeps length and order, element by element; otherwise it fails with the first failing element's exception |
| Results.MapAllOk | pylspclient/lsp_client.py:154 | when every element converts to the matching given value, the comprehension yields exactly those values |
| Results.MapAllFailsWith | pylspclient/lsp_client.py:154-156 | when some element fails and every failing element raises the same exception, the comprehension raises exactly that exception |
| Json.Lookup | pylspclient/lsp_client.py:294 | a key is found iff the object holds it, and the last binding of the key wins |
| Json.FirstIndex | pylspclient/lsp_client.py:294 | the position of a key's first occurrence among the members, or the member count when absent |
| Json.Keys | pylspclient/lsp_client.py:294 | a dict's keys are exactly the keys the object holds, each once |
| Json.FirstIndexOfExtension | pylspclient/lsp_client.py:294 | appending members does not move the first occurrence of a key already present |
| Json.KeysInFirstOccurrenceOrder | pylspclient/lsp_client.py:294 | for any members, repeated keys included, the dict's keys come in the order of their first occurrence |
| Json.Items | pylspclient/lsp_client.py:294 | `items()` pairs each key, in key order, with the value a lookup gives for it |
| Json.Contains | pylspclient/lsp_client.py:212 | `in` works iff the reply is a dict, list or string; it is key presence on a dict and element equality on a list |
| Json.Iterate | pylspclient/lsp_client.py:154 | iteration works iff the reply is a dict, list or string; a list gives its items, a dict its keys one for one in key order, a string its characters one for one |
| Json.Get | pylspclient/lsp_client.py:237 | model validation reads field `k` as the dict's value for `k`, and as null when the field is missing or the value is not a dict |
| Json.Truthy | pylspclient/lsp_client.py:190 | a value is falsy iff it is null, false, 0, the empty string, the empty list or the empty dict |
| Json.Subscript | pylspclient/lsp_client.py:288-290 | `v[k]` works iff `v` is a dict holding `k`, and it gives the value at path `[k]` |
| Json.AtExtend | pylspclient/lsp_client.py:288-290 | subscripting once more after a path reaches a value gives that value's field when it is a dict holding the key, and nothing otherwise |
| Json.LookupIgnoresOtherKeys | pylspclient/lsp_client.py:237 | appending members with other keys does not change a lookup |
| Json.KeysOfDistinct | pylspclient/lsp_client.py:294 | with distinct keys, the dict's keys are the member keys in order |
| Json.ItemsOfDistinct | pylspclient/lsp_client.py:294 | with distinct keys, `items()` gives back the members themselves |
| Json.ItemOfDistinct | pylspclient/lsp_client.py:294 | with distinct keys, the i-th item of `items()` is the i-th member |
| Structs.ValidatePosition | pylspclient/lsp_client.py:288 | a Position is accepted iff line and character are integers, and they are kept |
| Structs.ValidateRange | pylspclient/lsp_client.py:237 | a Range is accepted iff start and end are Positions, and both are kept |
| Structs.ValidateLocation | pylspclient/lsp_client.py:237 | a Location is accepted iff uri is a string and range is a Range; otherwise ValidationError |
| Structs.ValidateLocationLink | pylspclient/lsp_client.py:242 | a LocationLink is accepted iff targetUri is a string and both ranges are Ranges |
| Structs.ValidateDocumentSymbol | pylspclient/lsp_client.py:154 | a DocumentSymbol is accepted iff name, kind, range and selectionRange are well typed |
| Structs.ValidateSymbolInformation | pylspclient/lsp_client.py:156 | a SymbolInformation is accepted iff name, kind and location are well typed |
| Structs.ValidateCompletionItem | pylspclient/lsp_client.py:215 | a CompletionItem is accepted iff label is a string |
| Structs.ValidateCompletionList | pylspclient/lsp_client.py:213 | a CompletionList is accepted iff isIncomplete is a boolean and items is a list of CompletionItems; the items keep their order |
| Structs.ValidateSignatureInformation | pylspclient/lsp_client.py:190 | a SignatureInformation is accepted iff label is a string, and the label is kept |
| Structs.ValidateSignatureHelp | pylspclient/lsp_client.py:190 | a SignatureHelp is accepted iff signatures is a list of labelled entries; the entries keep their order |
| Structs.EncodePosition | pylspclient/lsp_client.py:288 | a Position's wire form validates back to it |
| Structs.EncodeRange | pylspclient/lsp_client.py:237 | a Range's wire form validates back to it |
| Structs.EncodeLocation | pylspclient/lsp_client.py:237 | a Location's wire form validates back to it, and it is never a LocationLink |
| Structs.EncodeLocationLink | pylspclient/lsp_client.py:242 | a LocationLink's wire form validates back to it, and it is never a Location |
| Structs.EncodeDocumentSymbol | pylspclient/lsp_client.py:154 | a DocumentSymbol's wire form validates back to it, and it is never a SymbolInformation |
| Structs.EncodeSymbolInformation | pylspclient/lsp_client.py:156 | a SymbolInformation's wire form validates back to it, and it is never a DocumentSymbol |
| Structs.EncodeCompletionItem | pylspclient/lsp_client.py:215 | a CompletionItem's wire form validates back to it |
| Structs.EncodeCompletionList | pylspclient/lsp_client.py:213 | a CompletionList's wire form validates back to it |
| Structs.EncodeSignatureInformation | pylspclient/lsp_client.py:190 | a SignatureInformation's wire form validates back to it |
| Structs.EncodeSignatureHelp | pylspclient/lsp_client.py:190 | a SignatureHelp's wire form validates back to it |
| Structs.LocationIgnoresUnknownFields | pylspclient/lsp_client.py:237 | extra fields after a Location's own do not change its validation |
| Structs.DocumentSymbolIgnoresUnknownFields | pylspclient/lsp_client.py:154 | extra fields (children, detail, tags, ...) do not change a DocumentSymbol's validation |
| Decoders.DecodeDocumentSymbols | pylspclient/lsp_client.py:150-156 | DocumentSymbols iff every element is one; otherwise SymbolInformations iff every element is one; otherwise ValidationError; never mixed; length and order kept; a non-iterable reply raises TypeError |
| Decoders.DecodeLocationList | pylspclient/lsp_client.py:312-315 | references succeeds iff every element is a Location, keeping length and order; there is no null case, and a null reply raises TypeError |
| Decoders.DecodeTypeDefinition | pylspclient/lsp_client.py:167-172 | null, and only null, gives None; anything else is decoded as a Location list, succeeding exactly when that does and otherwise failing with its error (TypeError for a non-iterable reply, ValidationError for a bad element) |
| Decoders.DecodeSignatureHelp | pylspclient/lsp_client.py:187-190 | every falsy reply gives None; a truthy reply gives Some iff it validates as SignatureHelp, else ValidationError |
| Decoders.DecodeCompletion | pylspclient/lsp_client.py:206-215 | the wrapper is chosen iff the reply is a dict holding isIncomplete; otherwise the reply's elements must all be CompletionItems, kept in order; `in` on a non-dict is modelled as Python does it |
| Decoders.DecodeLocationsOrLinks | pylspclient/lsp_client.py:239-242 | Locations iff every element is a Location; otherwise Links iff every element is a LocationLink; otherwise ValidationError; order and length kept |
| Decoders.DecodeLocations | pylspclient/lsp_client.py:230-242 | null, and only null, gives no location; then a top-level uri selects a single Location; then the list branch; a non-iterable reply raises TypeError |
| Decoders.PositionFromKwargs | pylspclient/lsp_client.py:288-289 | `Position(**v)` succeeds iff `v` is a dict holding integer line and character, and then builds the Position validation gives; a non-dict raises TypeError |
| Decoders.DecodeTextEdit | pylspclient/lsp_client.py:287-291 | an edit decodes iff its range.start, range.end and newText have the wire shape; every number and the text are kept exactly, zero included |
| Decoders.TextEditOf | pylspclient/lsp_client.py:286-291 | any edit whose range.start and range.end are dicts validating as Positions and whose newText is a string decodes to exactly that TextEdit |
| Decoders.PositionAt | pylspclient/lsp_client.py:288-289 | once `edit["range"]["start"]` (or `["end"]`) validates as a Position, its line and character sit one subscript further |
| Decoders.DecodeUriEdits | pylspclient/lsp_client.py:286-293 | one URI's edits decode iff each is a wire edit; the URI is kept, and the edits keep their order one for one |
| Decoders.DecodeRename | pylspclient/lsp_client.py:285-296 | a non-dict reply raises AttributeError; a missing changes key gives an empty edit; a changes value that is no dict raises AttributeError; otherwise success iff changes is a dict of wire edit lists, with the same URIs in the same order |
| Decoders.EncodeTextEdit | pylspclient/lsp_client.py:287-291 | an edit's wire form decodes back to it |
| Decoders.EncodeTextEdits | pylspclient/lsp_client.py:286-293 | a list of edits' wire forms decodes back one for one |
| DecoderLaws.DocumentSymbolsRoundTrip | pylspclient/lsp_client.py:154 | a DocumentSymbol list, the empty one included, comes back as DocumentSymbols |
| DecoderLaws.SymbolInformationRoundTrip | pylspclient/lsp_client.py:155-156 | a non-empty SymbolInformation list comes back as SymbolInformations |
| DecoderLaws.SymbolInformationDecoded | pylspclient/lsp_client.py:150-156 | a non-empty list whose first element is no DocumentSymbol and whose elements all validate as SymbolInformation comes back as exactly that SymbolInformation |
| DecoderLaws.SymbolProbes | pylspclient/lsp_client.py:153-156 | on such a list the DocumentSymbol comprehension raises ValidationError and the SymbolInformation comprehension yields exactly the given entries |
| DecoderLaws.NeitherShape | pylspclient/lsp_client.py:153-156 | a list that is neither all DocumentSymbols nor all SymbolInformation raises ValidationError |
| DecoderLaws.DocumentSymbolsNeverMix | pylspclient/lsp_client.py:153-156 | a list holding one symbol of each shape raises ValidationError |
| DecoderLaws.SymbolShapesDisjoint | pylspclient/lsp_client.py:153-156 | DocumentSymbol and SymbolInformation wire forms are each of their own shape only |
| DecoderLaws.ReferencesRoundTrip | pylspclient/lsp_client.py:315 | a Location list comes back as the same locations |
| DecoderLaws.TypeDefinitionRoundTrip | pylspclient/lsp_client.py:170-172 | a Location list, the empty one included, gives Some, distinct from None for null |
| DecoderLaws.TypeDefinitionSingleLocationRejected | pylspclient/lsp_client.py:172 | a single Location object is iterated over its keys, so it raises ValidationError instead of coming back as one location |
| DecoderLaws.ObjectTypeDefinitionRejected | pylspclient/lsp_client.py:170-172 | any non-empty object given as a typeDefinition reply is iterated over its keys and raises ValidationError |
| DecoderLaws.SingleLocationRoundTrip | pylspclient/lsp_client.py:267-268 | a single Location object comes back as that Location |
| DecoderLaws.LocationsRoundTrip | pylspclient/lsp_client.py:270-271 | a Location list, the empty one included, comes back as Locations, not as no location |
| DecoderLaws.LinksDecoded | pylspclient/lsp_client.py:270-273 | a non-empty list of values that are links and not locations comes back as those links |
| DecoderLaws.LinksRoundTrip | pylspclient/lsp_client.py:270-273 | a non-empty LocationLink list comes back as Links |
| DecoderLaws.NeitherLocationShape | pylspclient/lsp_client.py:270-273 | a list that is neither all Locations nor all LocationLinks raises ValidationError |
| DecoderLaws.LocationsNeverMix | pylspclient/lsp_client.py:270-273 | a list holding a Location and a LocationLink raises ValidationError |
| DecoderLaws.LocationShapesDisjoint | pylspclient/lsp_client.py:267-273 | Location and LocationLink wire forms are each of their own shape only |
| DecoderLaws.UnknownObjectRejected | pylspclient/lsp_client.py:264-273 | a non-empty object without uri, such as `{"foo": "bar"}`, is iterated over its keys and raises ValidationError rather than returning nothing |
| DecoderLaws.EmptyObjectGivesEmptyLocations | pylspclient/lsp_client.py:264-273 | the empty object `{}` has no keys to iterate, so it decodes as an empty Location list |
| DecoderLaws.CompletionListRoundTrip | pylspclient/lsp_client.py:212-213 | a CompletionList comes back wrapped |
| DecoderLaws.CompletionItemsRoundTrip | pylspclient/lsp_client.py:215 | a bare CompletionItem list comes back as the same items |
| DecoderLaws.SignatureHelpRoundTrip | pylspclient/lsp_client.py:190 | a SignatureHelp, even one with no signatures, comes back as itself |
| DecoderLaws.RenameRoundTrip | pylspclient/lsp_client.py:285-296 | changes naming each URI once come back with the same URIs in the same order, each with its edits, every number kept |
| DecoderLaws.ChangesDecoded | pylspclient/lsp_client.py:285-295 | a `changes` dict of distinct URIs decodes entry by entry back to the same URIs and edits, in order |
| DecoderLaws.UriEditsRoundTrip | pylspclient/lsp_client.py:286-294 | one URI with its wire edits comes back as the same URI with the same edits, in order |
| Endpoints.Endpoint.constructor | pylspclient/lsp_client.py:24-30 | a fresh endpoint has an empty trace and the given replies |
| Endpoints.Endpoint.Start | pylspclient/lsp_client.py:69 | starting records Started and leaves the queue unchanged |
| Endpoints.Endpoint.Stop | pylspclient/lsp_client.py:95 | stopping records Stopped and leaves the queue unchanged |
| Endpoints.Endpoint.CallMethod | pylspclient/lsp_client.py:70-79 | a request returns the next reply, consumes it, and records the call with its parameters and reply |
| Endpoints.Endpoint.SendNotification | pylspclient/lsp_client.py:87 | a notification is recorded and consumes no reply |
| Client.InitializeParams | pylspclient/lsp_client.py:70-79 | the seven initialize parameters are all present, named in the order they are passed |
| Client.InitializeParamsSent | pylspclient/lsp_client.py:70-79 | the server receives the seven keys in order; each given parameter is sent with its value and an omitted one as null; dict capabilities go through unchanged and a typed model as its dump |
| Client.InitializeFields | pylspclient/lsp_client.py:70-79 | the seven initialize members read back as written, and their keys are the seven names in order |
| Client.LspClient.constructor | pylspclient/lsp_client.py:24-30 | the client keeps the endpoint it is given |
| Client.LspClient.Initialize | pylspclient/lsp_client.py:67-79 | without capabilities it raises ValueError and records nothing; otherwise it records Started, then the initialize call, and returns the reply undecoded |
| Client.LspClient.Initialized | pylspclient/lsp_client.py:81-87 | sends the initialized notification with no parameters |
| Client.LspClient.Shutdown | pylspclient/lsp_client.py:89-96 | records Stopped before the shutdown call, and returns the reply undecoded |
| Client.LspClient.Exit | pylspclient/lsp_client.py:98-104 | sends the exit notification with no parameters |
| Client.LspClient.DidOpen | pylspclient/lsp_client.py:106-123 | sends didOpen with the document item |
| Client.LspClient.DidChange | pylspclient/lsp_client.py:125-139 | sends didChange with the document and the content changes as given |
| Client.LspClient.DocumentSymbol | pylspclient/lsp_client.py:141-156 | one documentSymbol call; the result is the reply decoded by DecodeDocumentSymbols, or the endpoint's error |
| Client.LspClient.TypeDefinition | pylspclient/lsp_client.py:158-172 | one typeDefinition call; the result is the reply decoded by DecodeTypeDefinition |
| Client.LspClient.SignatureHelp | pylspclient/lsp_client.py:174-190 | one signatureHelp call; the result is the reply decoded by DecodeSignatureHelp |
| Client.LspClient.Completion | pylspclient/lsp_client.py:192-215 | one completion call with the context; the result is the reply decoded by DecodeCompletion |
| Client.LspClient.Declaration | pylspclient/lsp_client.py:217-242 | one declaration call; the result is the reply decoded by DecodeLocations |
| Client.LspClient.Definition | pylspclient/lsp_client.py:244-273 | one definition call; the result is the reply decoded by DecodeLocations |
| Client.LspClient.Rename | pylspclient/lsp_client.py:275-296 | one rename call with the new name; the result is the reply decoded by DecodeRename |
| Client.LspClient.References | pylspclient/lsp_client.py:298-315 | one references call with the context; the result is the reply decoded by DecodeLocationList |

## Left out

- The endpoint's transport (JSON-RPC framing, the reader thread, request ids, server-initiated messages) is not part of this model. Its `call_method` is modelled by a queue of replies, and an error reply or an empty queue is raised unchanged.
- Pydantic's coercions are not modelled. Validation is strict structural checking: lax-mode conversions such as a numeric string to an int, `by_alias` dumping and enum ranges (SymbolKind, CompletionTriggerKind) are out. Only the required fields of each structure are modelled, and optional fields such as DocumentSymbol's children are ignored as unknown fields.
- JSON numbers are integers, and floating point is not modelled.
- `ClientCapabilities.model_dump(by_alias=True)` is taken as already computed: `Capabilities.Model` carries its dump.
- The parameter objects typed as Pydantic models (`textDocument`, `position`, `context`) are sent in their wire form, and the endpoint's own serialisation of them is not modelled.
- `workDoneToken` and `partialResultToken` are not parameters of the model, because the client accepts them and never sends them.
