/** How LspClient turns each untyped reply into a typed result. Every decoder is a
    fixed, order-sensitive sequence of probes over the parsed reply; a probe that fails
    with a ValidationError inside a try/except falls through to the next candidate
    shape, and every other failure escapes. */
module Decoders {
  import opened Results
  import opened Json
  import opened Structs

  /** documentSymbol: one shape for the whole reply. */
  datatype SymbolsReply =
    | DocumentSymbols(symbols: seq<DocumentSymbol>)
    | SymbolInformations(infos: seq<SymbolInformation>)

  /** completion: the wrapper object, or the bare list. */
  datatype CompletionReply =
    | WrappedList(list: CompletionList)
    | BareItems(items: seq<CompletionItem>)

  /** declaration and definition. */
  datatype LocationsReply =
    | NoLocation
    | SingleLocation(location: Location)
    | Locations(locations: seq<Location>)
    | Links(links: seq<LocationLink>)

  predicate AllDocumentSymbols(xs: seq<Value>) {
    forall i | 0 <= i < |xs| :: IsDocumentSymbol(xs[i])
  }

  predicate AllSymbolInformation(xs: seq<Value>) {
    forall i | 0 <= i < |xs| :: IsSymbolInformation(xs[i])
  }

  predicate AllLocations(xs: seq<Value>) {
    forall i | 0 <= i < |xs| :: IsLocation(xs[i])
  }

  predicate AllLocationLinks(xs: seq<Value>) {
    forall i | 0 <= i < |xs| :: IsLocationLink(xs[i])
  }

  predicate AllCompletionItems(xs: seq<Value>) {
    forall i | 0 <= i < |xs| :: IsCompletionItem(xs[i])
  }

  // ---------------------------------------------------------------------------------
  // documentSymbol

  /** The whole reply is validated as DocumentSymbol[]; if any element fails, the whole
      reply is validated again as SymbolInformation[]; if that fails too, the call fails.
      The result never mixes the two shapes and keeps the reply's length and order. */
  function DecodeDocumentSymbols(reply: Value): (r: Result<SymbolsReply>)
    ensures !Iterable(reply) ==> r.Err? && r.error.TypeError?
    ensures Iterable(reply) ==>
      var xs := Iterate(reply).value;
      && (r.Ok? && r.value.DocumentSymbols? <==> AllDocumentSymbols(xs))
      && (r.Ok? && r.value.SymbolInformations? <==> !AllDocumentSymbols(xs) && AllSymbolInformation(xs))
      && (r.Err? ==> r.error == ValidationError)
      && (r.Ok? && r.value.DocumentSymbols? ==>
            && |r.value.symbols| == |xs|
            && forall i | 0 <= i < |xs| :: ValidateDocumentSymbol(xs[i]) == Ok(r.value.symbols[i]))
      && (r.Ok? && r.value.SymbolInformations? ==>
            && |r.value.infos| == |xs|
            && forall i | 0 <= i < |xs| :: ValidateSymbolInformation(xs[i]) == Ok(r.value.infos[i]))
  {
    var xs :- Iterate(reply);
    match MapAll(xs, ValidateDocumentSymbol)
    case Ok(symbols) => Ok(DocumentSymbols(symbols))
    case Err(e) =>
      if e == ValidationError then
        var infos :- MapAll(xs, ValidateSymbolInformation);
        Ok(SymbolInformations(infos))
      else
        Err(e)
  }

  // ---------------------------------------------------------------------------------
  // typeDefinition and references

  /** Every element of the reply validated as a Location, in order. */
  function DecodeLocationList(reply: Value): (r: Result<seq<Location>>)
    ensures r.Ok? <==> Iterable(reply) && AllLocations(Iterate(reply).value)
    ensures !Iterable(reply) ==> r.Err? && r.error.TypeError?
    ensures r.Ok? ==>
      && |r.value| == |Iterate(reply).value|
      && forall i | 0 <= i < |r.value| :: ValidateLocation(Iterate(reply).value[i]) == Ok(r.value[i])
  {
    var xs :- Iterate(reply);
    MapAll(xs, ValidateLocation)
  }

  /** A null reply means "no type definition", distinct from an empty list; anything
      else is decoded as a Location list. */
  function DecodeTypeDefinition(reply: Value): (r: Result<Option<seq<Location>>>)
    ensures r == Ok(None) <==> reply.Null?
    ensures !reply.Null? ==>
      && (r.Ok? <==> Iterable(reply) && AllLocations(Iterate(reply).value))
      && (r.Ok? ==> r.value.Some? && Ok(r.value.value) == DecodeLocationList(reply))
      && (r.Err? ==> DecodeLocationList(reply) == Err(r.error))
  {
    if reply.Null? then Ok(None)
    else
      var locations :- DecodeLocationList(reply);
      Ok(Some(locations))
  }

  // ---------------------------------------------------------------------------------
  // signatureHelp

  /** Any falsy reply (null, an empty object, an empty list, ...) means "no signature
      help"; anything else must validate as SignatureHelp. */
  function DecodeSignatureHelp(reply: Value): (r: Result<Option<SignatureHelp>>)
    ensures !Truthy(reply) ==> r == Ok(None)
    ensures Truthy(reply) ==>
      && (r.Ok? <==> IsSignatureHelp(reply))
      && (r.Ok? ==> r.value.Some? && Ok(r.value.value) == ValidateSignatureHelp(reply))
      && (r.Err? ==> r.error == ValidationError)
  {
    if Truthy(reply) then
      var help :- ValidateSignatureHelp(reply);
      Ok(Some(help))
    else
      Ok(None)
  }

  // ---------------------------------------------------------------------------------
  // completion

  /** The key "isIncomplete" alone selects the CompletionList wrapper; otherwise the
      reply is a list of CompletionItems, kept in order. */
  function DecodeCompletion(reply: Value): (r: Result<CompletionReply>)
    ensures !Iterable(reply) ==> r.Err? && r.error.TypeError?
    ensures r.Ok? ==> (r.value.WrappedList? <==> reply.Obj? && Has(reply.members, "isIncomplete"))
    ensures reply.Obj? && Has(reply.members, "isIncomplete") ==>
      && (r.Ok? <==> IsCompletionList(reply))
      && (r.Ok? ==> Ok(r.value.list) == ValidateCompletionList(reply))
    ensures Contains(reply, "isIncomplete") == Ok(true) && !reply.Obj? ==> r == Err(ValidationError)
    ensures Contains(reply, "isIncomplete") == Ok(false) ==>
      var xs := Iterate(reply).value;
      && (r.Ok? <==> AllCompletionItems(xs))
      && (r.Ok? ==>
            && |r.value.items| == |xs|
            && forall i | 0 <= i < |xs| :: ValidateCompletionItem(xs[i]) == Ok(r.value.items[i]))
    ensures Iterable(reply) && r.Err? ==> r.error == ValidationError
  {
    var wrapped :- Contains(reply, "isIncomplete");
    if wrapped then
      var list :- ValidateCompletionList(reply);
      Ok(WrappedList(list))
    else
      var items :- MapAll(Iterate(reply).value, ValidateCompletionItem);
      Ok(BareItems(items))
  }

  // ---------------------------------------------------------------------------------
  // declaration and definition

  /** The list branch of declaration and definition: the whole list validated as
      Location[] and, failing that, as LocationLink[]; never a mixture of the two. */
  function DecodeLocationsOrLinks(xs: seq<Value>): (r: Result<LocationsReply>)
    ensures r.Ok? ==> r.value.Locations? || r.value.Links?
    ensures r.Ok? && r.value.Locations? <==> AllLocations(xs)
    ensures r.Ok? && r.value.Links? <==> !AllLocations(xs) && AllLocationLinks(xs)
    ensures r.Err? ==> r.error == ValidationError
    ensures r.Ok? && r.value.Locations? ==>
      && |r.value.locations| == |xs|
      && forall i | 0 <= i < |xs| :: ValidateLocation(xs[i]) == Ok(r.value.locations[i])
    ensures r.Ok? && r.value.Links? ==>
      && |r.value.links| == |xs|
      && forall i | 0 <= i < |xs| :: ValidateLocationLink(xs[i]) == Ok(r.value.links[i])
  {
    match MapAll(xs, ValidateLocation)
    case Ok(locations) => Ok(Locations(locations))
    case Err(e) =>
      if e == ValidationError then
        var links :- MapAll(xs, ValidateLocationLink);
        Ok(Links(links))
      else
        Err(e)
  }

  /** Null short-circuits to "no location"; a top-level "uri" selects a single Location;
      otherwise the whole reply goes to the list branch; failing both list shapes, the
      call fails. */
  function DecodeLocations(reply: Value): (r: Result<LocationsReply>)
    ensures r == Ok(NoLocation) <==> reply.Null?
    ensures !reply.Null? && !Iterable(reply) ==> r.Err? && r.error.TypeError?
    ensures reply.Obj? && Has(reply.members, "uri") ==>
      && (r.Ok? <==> IsLocation(reply))
      && (r.Ok? ==> r.value.SingleLocation? && Ok(r.value.location) == ValidateLocation(reply))
    ensures Contains(reply, "uri") == Ok(true) && !reply.Obj? ==> r == Err(ValidationError)
    ensures Contains(reply, "uri") == Ok(false) ==> r == DecodeLocationsOrLinks(Iterate(reply).value)
    ensures Iterable(reply) && r.Err? ==> r.error == ValidationError
  {
    if reply.Null? then Ok(NoLocation)
    else
      var single :- Contains(reply, "uri");
      if single then
        var location :- ValidateLocation(reply);
        Ok(SingleLocation(location))
      else
        DecodeLocationsOrLinks(Iterate(reply).value)
  }

  // ---------------------------------------------------------------------------------
  // rename

  /** `Position(**v)`: keyword arguments need a dict, which the model then validates. */
  function PositionFromKwargs(v: Value): (r: Result<Position>)
    ensures r.Ok? <==> IsPosition(v) && v.Obj?
    ensures r.Ok? ==> r == ValidatePosition(v)
    ensures !v.Obj? ==> r.Err? && r.error.TypeError?
  {
    if v.Obj? then ValidatePosition(v) else Err(TypeError("argument after ** must be a mapping"))
  }

  /** The wire shape of one edit that rename accepts. */
  predicate IsWireTextEdit(edit: Value) {
    && At(edit, ["range", "start"]).Some? && At(edit, ["range", "start"]).value.Obj?
    && IsPosition(At(edit, ["range", "start"]).value)
    && At(edit, ["range", "end"]).Some? && At(edit, ["range", "end"]).value.Obj?
    && IsPosition(At(edit, ["range", "end"]).value)
    && At(edit, ["newText"]).Some? && At(edit, ["newText"]).value.Str?
  }

  /** One wire edit rebuilt as a TextEdit: start and end positions from `range.start`
      and `range.end`, text from `newText`, every number kept exactly. */
  function DecodeTextEdit(edit: Value): (r: Result<TextEdit>)
    ensures r.Ok? <==> IsWireTextEdit(edit)
    ensures r.Ok? ==>
      && At(edit, ["range", "start", "line"]) == Some(Num(r.value.rangeStart.line))
      && At(edit, ["range", "start", "character"]) == Some(Num(r.value.rangeStart.character))
      && At(edit, ["range", "end", "line"]) == Some(Num(r.value.rangeEnd.line))
      && At(edit, ["range", "end", "character"]) == Some(Num(r.value.rangeEnd.character))
      && At(edit, ["newText"]) == Some(Str(r.value.newText))
  {
    var range :- Subscript(edit, "range");
    var start :- Subscript(range, "start");
    var rangeStart :- PositionFromKwargs(start);
    var end :- Subscript(range, "end");
    var rangeEnd :- PositionFromKwargs(end);
    var newText :- Subscript(edit, "newText");
    AtExtend(edit, ["range"], "start", range);
    AtExtend(edit, ["range"], "end", range);
    PositionAt(edit, "range", "start", start, rangeStart);
    PositionAt(edit, "range", "end", end, rangeEnd);
    if newText.Str? then Ok(TextEdit(rangeStart, rangeEnd, newText.s)) else Err(ValidationError)
  }

  /** The line and character of a Position reached by two subscripts are one subscript
      further. */
  lemma PositionAt(v: Value, k0: string, k1: string, position: Value, p: Position)
    requires At(v, [k0, k1]) == Some(position) && ValidatePosition(position) == Ok(p)
    ensures At(v, [k0, k1, "line"]) == Some(Num(p.line))
    ensures At(v, [k0, k1, "character"]) == Some(Num(p.character))
  {
    AtExtend(v, [k0, k1], "line", position);
    assert [k0, k1] + ["line"] == [k0, k1, "line"];
    AtExtend(v, [k0, k1], "character", position);
    assert [k0, k1] + ["character"] == [k0, k1, "character"];
  }

  /** The edits under one URI were decoded from the wire list `wire`, one for one and in
      order. */
  predicate EditsDecodedFrom(edits: seq<TextEdit>, wire: Value) {
    && Iterable(wire)
    && |edits| == |Iterate(wire).value|
    && forall j | 0 <= j < |edits| :: DecodeTextEdit(Iterate(wire).value[j]) == Ok(edits[j])
  }

  /** A list of wire edits rename accepts. */
  predicate IsWireEditList(wire: Value) {
    Iterable(wire) && forall j | 0 <= j < |Iterate(wire).value| :: IsWireTextEdit(Iterate(wire).value[j])
  }

  /** One entry of the `changes` dict comprehension. */
  function DecodeUriEdits(entry: (string, Value)): (r: Result<(string, seq<TextEdit>)>)
    ensures r.Ok? <==> IsWireEditList(entry.1)
    ensures r.Ok? ==> r.value.0 == entry.0 && EditsDecodedFrom(r.value.1, entry.1)
  {
    var wireEdits :- Iterate(entry.1);
    var edits :- MapAll(wireEdits, DecodeTextEdit);
    Ok((entry.0, edits))
  }

  /** The reply's `changes` dict, or an empty one when the key is absent, rebuilt into a
      WorkspaceEdit with exactly the same URIs, in the same order. */
  function DecodeRename(reply: Value): (r: Result<WorkspaceEdit>)
    ensures !reply.Obj? ==> r.Err? && r.error.AttributeError?
    ensures reply.Obj? && !Has(reply.members, "changes") ==> r == Ok(WorkspaceEdit([]))
    ensures reply.Obj? && Has(reply.members, "changes") && !Get(reply, "changes").Obj? ==>
      r.Err? && r.error.AttributeError?
    ensures reply.Obj? && Has(reply.members, "changes") ==>
      var changes := Get(reply, "changes");
      && (r.Ok? <==>
            changes.Obj? && forall i | 0 <= i < |Items(changes.members)| :: IsWireEditList(Items(changes.members)[i].1))
      && (r.Ok? ==>
            && |r.value.changes| == |Keys(changes.members)|
            && forall i | 0 <= i < |r.value.changes| ::
                 && r.value.changes[i].0 == Keys(changes.members)[i]
                 && EditsDecodedFrom(r.value.changes[i].1, Items(changes.members)[i].1))
  {
    if !reply.Obj? then Err(AttributeError("get"))
    else
      var changes := match Lookup(reply.members, "changes") case Some(c) => c case None => Obj([]);
      if !changes.Obj? then Err(AttributeError("items"))
      else
        var entries :- MapAll(Items(changes.members), DecodeUriEdits);
        Ok(WorkspaceEdit(entries))
  }

  // ---------------------------------------------------------------------------------
  // Wire forms of rename replies.

  /** One edit as a server sends it: `{"range": {"start": .., "end": ..}, "newText": ..}`. */
  function EncodeTextEdit(e: TextEdit): (v: Value)
    ensures DecodeTextEdit(v) == Ok(e)
  {
    var start, end := EncodePosition(e.rangeStart), EncodePosition(e.rangeEnd);
    var range := Obj([("start", start), ("end", end)]);
    var v := Obj([("range", range), ("newText", Str(e.newText))]);
    Fields2("range", range, "newText", Str(e.newText));
    Fields2("start", start, "end", end);
    TextEditOf(v, range, start, end, e);
    v
  }

  /** Any value whose range.start, range.end and newText read as these validates as this
      edit. */
  lemma TextEditOf(v: Value, range: Value, start: Value, end: Value, e: TextEdit)
    requires Get(v, "range") == range && Get(v, "newText") == Str(e.newText)
    requires Get(range, "start") == start && Get(range, "end") == end
    requires ValidatePosition(start) == Ok(e.rangeStart) && ValidatePosition(end) == Ok(e.rangeEnd)
    requires range.Obj? && start.Obj? && end.Obj?
    ensures DecodeTextEdit(v) == Ok(e)
  {
  }

  /** No URI occurs twice among the changes. */
  predicate DistinctUris(w: WorkspaceEdit) {
    forall i, j | 0 <= i < j < |w.changes| :: w.changes[i].0 != w.changes[j].0
  }

  /** The `changes` dict as a server sends it: one member per URI, each a list of wire
      edits. */
  function EncodeChanges(w: WorkspaceEdit): Value {
    Obj(seq(|w.changes|, i requires 0 <= i < |w.changes| => (w.changes[i].0, Arr(EncodeTextEdits(w.changes[i].1)))))
  }

  function EncodeTextEdits(edits: seq<TextEdit>): (vs: seq<Value>)
    ensures |vs| == |edits| && forall j | 0 <= j < |edits| :: DecodeTextEdit(vs[j]) == Ok(edits[j])
  {
    seq(|edits|, j requires 0 <= j < |edits| => EncodeTextEdit(edits[j]))
  }
}
