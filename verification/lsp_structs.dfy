/** The protocol structures the client builds from replies, the structural check each
    one's model validation makes (required fields present with the right primitive
    types; unknown fields ignored), and their wire forms. Only required fields are
    modelled. */
module Structs {
  import opened Results
  import opened Json

  datatype Position = Position(line: int, character: int)
  datatype Range = Range(start: Position, end: Position)
  datatype Location = Location(uri: string, range: Range)
  datatype LocationLink = LocationLink(targetUri: string, targetRange: Range, targetSelectionRange: Range)
  datatype DocumentSymbol = DocumentSymbol(name: string, kind: int, range: Range, selectionRange: Range)
  datatype SymbolInformation = SymbolInformation(name: string, kind: int, location: Location)
  datatype CompletionItem = CompletionItem(labelText: string)
  datatype CompletionList = CompletionList(isIncomplete: bool, items: seq<CompletionItem>)
  datatype SignatureInformation = SignatureInformation(labelText: string)
  datatype SignatureHelp = SignatureHelp(signatures: seq<SignatureInformation>)

  /** pylspclient's TextEdit: one replacement, its range split into two positions. */
  datatype TextEdit = TextEdit(rangeStart: Position, rangeEnd: Position, newText: string)

  /** URI to the edits for that document, in the order of the reply. */
  datatype WorkspaceEdit = WorkspaceEdit(changes: seq<(string, seq<TextEdit>)>)

  // Request arguments.
  datatype TextDocumentIdentifier = TextDocumentIdentifier(uri: string)
  datatype TextDocumentItem = TextDocumentItem(uri: string, languageId: string, version: int, text: string)
  datatype CompletionContext = CompletionContext(triggerKind: int, triggerCharacter: Option<string>)
  datatype ReferenceContext = ReferenceContext(includeDeclaration: bool)

  // ---------------------------------------------------------------------------------
  // Structural shapes: what model validation accepts.

  predicate IsPosition(v: Value) {
    Get(v, "line").Num? && Get(v, "character").Num?
  }

  predicate IsRange(v: Value) {
    IsPosition(Get(v, "start")) && IsPosition(Get(v, "end"))
  }

  predicate IsLocation(v: Value) {
    Get(v, "uri").Str? && IsRange(Get(v, "range"))
  }

  predicate IsLocationLink(v: Value) {
    Get(v, "targetUri").Str? && IsRange(Get(v, "targetRange")) && IsRange(Get(v, "targetSelectionRange"))
  }

  predicate IsDocumentSymbol(v: Value) {
    Get(v, "name").Str? && Get(v, "kind").Num? && IsRange(Get(v, "range")) && IsRange(Get(v, "selectionRange"))
  }

  predicate IsSymbolInformation(v: Value) {
    Get(v, "name").Str? && Get(v, "kind").Num? && IsLocation(Get(v, "location"))
  }

  predicate IsCompletionItem(v: Value) {
    Get(v, "label").Str?
  }

  predicate IsCompletionList(v: Value) {
    && Get(v, "isIncomplete").Bool?
    && Get(v, "items").Arr?
    && forall i | 0 <= i < |Get(v, "items").items| :: IsCompletionItem(Get(v, "items").items[i])
  }

  predicate IsSignatureHelp(v: Value) {
    && Get(v, "signatures").Arr?
    && forall i | 0 <= i < |Get(v, "signatures").items| :: Get(Get(v, "signatures").items[i], "label").Str?
  }

  // ---------------------------------------------------------------------------------
  // Model validation: builds the structure, or fails with ValidationError.

  function StrField(v: Value, k: string): Result<string> {
    if Get(v, k).Str? then Ok(Get(v, k).s) else Err(ValidationError)
  }

  function IntField(v: Value, k: string): Result<int> {
    if Get(v, k).Num? then Ok(Get(v, k).n) else Err(ValidationError)
  }

  function BoolField(v: Value, k: string): Result<bool> {
    if Get(v, k).Bool? then Ok(Get(v, k).b) else Err(ValidationError)
  }

  function ListField(v: Value, k: string): Result<seq<Value>> {
    if Get(v, k).Arr? then Ok(Get(v, k).items) else Err(ValidationError)
  }

  function ValidatePosition(v: Value): (r: Result<Position>)
    ensures r.Ok? <==> IsPosition(v)
    ensures r.Err? ==> r.error == ValidationError
    ensures r.Ok? ==> Get(v, "line") == Num(r.value.line) && Get(v, "character") == Num(r.value.character)
  {
    var line :- IntField(v, "line");
    var character :- IntField(v, "character");
    Ok(Position(line, character))
  }

  function ValidateRange(v: Value): (r: Result<Range>)
    ensures r.Ok? <==> IsRange(v)
    ensures r.Err? ==> r.error == ValidationError
    ensures r.Ok? ==>
      ValidatePosition(Get(v, "start")) == Ok(r.value.start) && ValidatePosition(Get(v, "end")) == Ok(r.value.end)
  {
    var start :- ValidatePosition(Get(v, "start"));
    var end :- ValidatePosition(Get(v, "end"));
    Ok(Range(start, end))
  }

  function ValidateLocation(v: Value): (r: Result<Location>)
    ensures r.Ok? <==> IsLocation(v)
    ensures r.Err? ==> r.error == ValidationError
    ensures r.Ok? ==> Get(v, "uri") == Str(r.value.uri) && ValidateRange(Get(v, "range")) == Ok(r.value.range)
  {
    var uri :- StrField(v, "uri");
    var range :- ValidateRange(Get(v, "range"));
    Ok(Location(uri, range))
  }

  function ValidateLocationLink(v: Value): (r: Result<LocationLink>)
    ensures r.Ok? <==> IsLocationLink(v)
    ensures r.Err? ==> r.error == ValidationError
    ensures r.Ok? ==>
      && Get(v, "targetUri") == Str(r.value.targetUri)
      && ValidateRange(Get(v, "targetRange")) == Ok(r.value.targetRange)
      && ValidateRange(Get(v, "targetSelectionRange")) == Ok(r.value.targetSelectionRange)
  {
    var targetUri :- StrField(v, "targetUri");
    var targetRange :- ValidateRange(Get(v, "targetRange"));
    var targetSelectionRange :- ValidateRange(Get(v, "targetSelectionRange"));
    Ok(LocationLink(targetUri, targetRange, targetSelectionRange))
  }

  function ValidateDocumentSymbol(v: Value): (r: Result<DocumentSymbol>)
    ensures r.Ok? <==> IsDocumentSymbol(v)
    ensures r.Err? ==> r.error == ValidationError
    ensures r.Ok? ==>
      && Get(v, "name") == Str(r.value.name)
      && Get(v, "kind") == Num(r.value.kind)
      && ValidateRange(Get(v, "range")) == Ok(r.value.range)
      && ValidateRange(Get(v, "selectionRange")) == Ok(r.value.selectionRange)
  {
    var name :- StrField(v, "name");
    var kind :- IntField(v, "kind");
    var range :- ValidateRange(Get(v, "range"));
    var selectionRange :- ValidateRange(Get(v, "selectionRange"));
    Ok(DocumentSymbol(name, kind, range, selectionRange))
  }

  function ValidateSymbolInformation(v: Value): (r: Result<SymbolInformation>)
    ensures r.Ok? <==> IsSymbolInformation(v)
    ensures r.Err? ==> r.error == ValidationError
    ensures r.Ok? ==>
      && Get(v, "name") == Str(r.value.name)
      && Get(v, "kind") == Num(r.value.kind)
      && ValidateLocation(Get(v, "location")) == Ok(r.value.location)
  {
    var name :- StrField(v, "name");
    var kind :- IntField(v, "kind");
    var location :- ValidateLocation(Get(v, "location"));
    Ok(SymbolInformation(name, kind, location))
  }

  function ValidateCompletionItem(v: Value): (r: Result<CompletionItem>)
    ensures r.Ok? <==> IsCompletionItem(v)
    ensures r.Err? ==> r.error == ValidationError
    ensures r.Ok? ==> Get(v, "label") == Str(r.value.labelText)
  {
    var labelText :- StrField(v, "label");
    Ok(CompletionItem(labelText))
  }

  function ValidateCompletionList(v: Value): (r: Result<CompletionList>)
    ensures r.Ok? <==> IsCompletionList(v)
    ensures r.Err? ==> r.error == ValidationError
    ensures r.Ok? ==>
      && Get(v, "isIncomplete") == Bool(r.value.isIncomplete)
      && |r.value.items| == |Get(v, "items").items|
      && forall i | 0 <= i < |r.value.items| :: Get(Get(v, "items").items[i], "label") == Str(r.value.items[i].labelText)
  {
    var isIncomplete :- BoolField(v, "isIncomplete");
    var wireItems :- ListField(v, "items");
    var items :- MapAll(wireItems, ValidateCompletionItem);
    Ok(CompletionList(isIncomplete, items))
  }

  function ValidateSignatureInformation(v: Value): (r: Result<SignatureInformation>)
    ensures r.Ok? <==> Get(v, "label").Str?
    ensures r.Err? ==> r.error == ValidationError
    ensures r.Ok? ==> Get(v, "label") == Str(r.value.labelText)
  {
    var labelText :- StrField(v, "label");
    Ok(SignatureInformation(labelText))
  }

  function ValidateSignatureHelp(v: Value): (r: Result<SignatureHelp>)
    ensures r.Ok? <==> IsSignatureHelp(v)
    ensures r.Err? ==> r.error == ValidationError
    ensures r.Ok? ==>
      && |r.value.signatures| == |Get(v, "signatures").items|
      && forall i | 0 <= i < |r.value.signatures| ::
           Get(Get(v, "signatures").items[i], "label") == Str(r.value.signatures[i].labelText)
  {
    var wireSignatures :- ListField(v, "signatures");
    var signatures :- MapAll(wireSignatures, ValidateSignatureInformation);
    Ok(SignatureHelp(signatures))
  }

  // ---------------------------------------------------------------------------------
  // Wire forms, as a server sends them; validation gives each value back.

  function EncodePosition(p: Position): (v: Value)
    ensures ValidatePosition(v) == Ok(p)
  {
    Fields2("line", Num(p.line), "character", Num(p.character));
    Obj([("line", Num(p.line)), ("character", Num(p.character))])
  }

  function EncodeRange(r: Range): (v: Value)
    ensures ValidateRange(v) == Ok(r)
  {
    var start, end := EncodePosition(r.start), EncodePosition(r.end);
    Fields2("start", start, "end", end);
    Obj([("start", start), ("end", end)])
  }

  /** A Location has no `targetUri` field, so it never passes for a LocationLink. */
  function EncodeLocation(l: Location): (v: Value)
    ensures ValidateLocation(v) == Ok(l)
    ensures !IsLocationLink(v)
  {
    var range := EncodeRange(l.range);
    LocationFields(l.uri, range);
    Obj([("uri", Str(l.uri)), ("range", range)])
  }

  lemma LocationFields(uri: string, range: Value)
    ensures var v := Obj([("uri", Str(uri)), ("range", range)]);
      Get(v, "uri") == Str(uri) && Get(v, "range") == range && Get(v, "targetUri") == Null
  {
    Fields2("uri", Str(uri), "range", range);
  }

  /** A link has no `uri` field, so it never passes for a Location. */
  function EncodeLocationLink(l: LocationLink): (v: Value)
    ensures ValidateLocationLink(v) == Ok(l)
    ensures !IsLocation(v)
  {
    var targetRange, targetSelectionRange := EncodeRange(l.targetRange), EncodeRange(l.targetSelectionRange);
    LocationLinkFields(l.targetUri, targetRange, targetSelectionRange);
    Obj([("targetUri", Str(l.targetUri)), ("targetRange", targetRange), ("targetSelectionRange", targetSelectionRange)])
  }

  lemma LocationLinkFields(targetUri: string, targetRange: Value, targetSelectionRange: Value)
    ensures var v := Obj([("targetUri", Str(targetUri)), ("targetRange", targetRange), ("targetSelectionRange", targetSelectionRange)]);
      && Get(v, "targetUri") == Str(targetUri) && Get(v, "targetRange") == targetRange
      && Get(v, "targetSelectionRange") == targetSelectionRange && Get(v, "uri") == Null
  {
    Fields3("targetUri", Str(targetUri), "targetRange", targetRange, "targetSelectionRange", targetSelectionRange);
  }

  /** A DocumentSymbol has no `location` field, so it never passes for SymbolInformation. */
  function EncodeDocumentSymbol(s: DocumentSymbol): (v: Value)
    ensures ValidateDocumentSymbol(v) == Ok(s)
    ensures !IsSymbolInformation(v)
  {
    var range, selectionRange := EncodeRange(s.range), EncodeRange(s.selectionRange);
    var v := Obj([("name", Str(s.name)), ("kind", Num(s.kind)), ("range", range), ("selectionRange", selectionRange)]);
    DocumentSymbolFields(s.name, s.kind, range, selectionRange);
    DocumentSymbolOf(v, s.name, s.kind, range, selectionRange);
    v
  }

  /** Any value with these field reads validates as this DocumentSymbol only. */
  lemma DocumentSymbolOf(v: Value, name: string, kind: int, range: Value, selectionRange: Value)
    requires ValidateRange(range).Ok? && ValidateRange(selectionRange).Ok?
    requires Get(v, "name") == Str(name) && Get(v, "kind") == Num(kind)
    requires Get(v, "range") == range && Get(v, "selectionRange") == selectionRange
    requires Get(v, "location") == Null
    ensures ValidateDocumentSymbol(v) ==
      Ok(DocumentSymbol(name, kind, ValidateRange(range).value, ValidateRange(selectionRange).value))
    ensures !IsSymbolInformation(v)
  {
  }

  lemma DocumentSymbolFields(name: string, kind: int, range: Value, selectionRange: Value)
    ensures var v := Obj([("name", Str(name)), ("kind", Num(kind)), ("range", range), ("selectionRange", selectionRange)]);
      && Get(v, "name") == Str(name) && Get(v, "kind") == Num(kind)
      && Get(v, "range") == range && Get(v, "selectionRange") == selectionRange
      && Get(v, "location") == Null
  {
    Fields4("name", Str(name), "kind", Num(kind), "range", range, "selectionRange", selectionRange);
  }

  /** Symbol information has no `range` field, so it never passes for a DocumentSymbol. */
  function EncodeSymbolInformation(s: SymbolInformation): (v: Value)
    ensures ValidateSymbolInformation(v) == Ok(s)
    ensures !IsDocumentSymbol(v)
  {
    var location := EncodeLocation(s.location);
    var v := Obj([("name", Str(s.name)), ("kind", Num(s.kind)), ("location", location)]);
    SymbolInformationFields(s.name, s.kind, location);
    SymbolInformationOf(v, s.name, s.kind, location);
    v
  }

  lemma SymbolInformationFields(name: string, kind: int, location: Value)
    ensures var v := Obj([("name", Str(name)), ("kind", Num(kind)), ("location", location)]);
      && Get(v, "name") == Str(name) && Get(v, "kind") == Num(kind)
      && Get(v, "location") == location && Get(v, "range") == Null
  {
    Fields3("name", Str(name), "kind", Num(kind), "location", location);
  }

  /** Any value with these field reads validates as this SymbolInformation only. */
  lemma SymbolInformationOf(v: Value, name: string, kind: int, location: Value)
    requires ValidateLocation(location).Ok?
    requires Get(v, "name") == Str(name) && Get(v, "kind") == Num(kind)
    requires Get(v, "location") == location && Get(v, "range") == Null
    ensures ValidateSymbolInformation(v) == Ok(SymbolInformation(name, kind, ValidateLocation(location).value))
    ensures !IsDocumentSymbol(v)
  {
  }

  function EncodeCompletionItem(c: CompletionItem): (v: Value)
    ensures ValidateCompletionItem(v) == Ok(c)
  {
    var ms := [("label", Str(c.labelText))];
    FieldOf(ms, 0);
    Obj(ms)
  }

  function EncodeCompletionList(l: CompletionList): (v: Value)
    ensures ValidateCompletionList(v) == Ok(l)
  {
    var items := seq(|l.items|, i requires 0 <= i < |l.items| => EncodeCompletionItem(l.items[i]));
    Fields2("isIncomplete", Bool(l.isIncomplete), "items", Arr(items));
    MapAllOk(items, ValidateCompletionItem, l.items);
    Obj([("isIncomplete", Bool(l.isIncomplete)), ("items", Arr(items))])
  }

  function EncodeSignatureInformation(s: SignatureInformation): (v: Value)
    ensures ValidateSignatureInformation(v) == Ok(s)
  {
    var ms := [("label", Str(s.labelText))];
    FieldOf(ms, 0);
    Obj(ms)
  }

  function EncodeSignatureHelp(h: SignatureHelp): (v: Value)
    ensures ValidateSignatureHelp(v) == Ok(h)
  {
    var signatures := seq(|h.signatures|, i requires 0 <= i < |h.signatures| => EncodeSignatureInformation(h.signatures[i]));
    var ms := [("signatures", Arr(signatures))];
    FieldOf(ms, 0);
    MapAllOk(signatures, ValidateSignatureInformation, h.signatures);
    Obj(ms)
  }

  // Request arguments in their wire form.

  function EncodeTextDocumentIdentifier(d: TextDocumentIdentifier): Value {
    Obj([("uri", Str(d.uri))])
  }

  function EncodeTextDocumentItem(d: TextDocumentItem): Value {
    Obj([("uri", Str(d.uri)), ("languageId", Str(d.languageId)), ("version", Num(d.version)), ("text", Str(d.text))])
  }

  function EncodeCompletionContext(c: CompletionContext): Value {
    Obj([("triggerKind", Num(c.triggerKind)),
         ("triggerCharacter", match c.triggerCharacter case Some(t) => Str(t) case None => Null)])
  }

  function EncodeReferenceContext(c: ReferenceContext): Value {
    Obj([("includeDeclaration", Bool(c.includeDeclaration))])
  }

  // ---------------------------------------------------------------------------------
  // Unknown fields are ignored.

  lemma GetIgnoresOtherKeys(ms: Members, extra: Members, k: string)
    requires !Has(extra, k)
    ensures Get(Obj(ms + extra), k) == Get(Obj(ms), k)
  {
    LookupIgnoresOtherKeys(ms, extra, k);
  }

  /** A Location followed by fields the structure does not know validates to the same
      Location. */
  lemma LocationIgnoresUnknownFields(ms: Members, extra: Members)
    requires !Has(extra, "uri") && !Has(extra, "range")
    ensures ValidateLocation(Obj(ms + extra)) == ValidateLocation(Obj(ms))
  {
    GetIgnoresOtherKeys(ms, extra, "uri");
    GetIgnoresOtherKeys(ms, extra, "range");
  }

  /** The same for a DocumentSymbol, whose optional fields (children, detail, tags, ...)
      are among the ignored ones. */
  lemma DocumentSymbolIgnoresUnknownFields(ms: Members, extra: Members)
    requires !Has(extra, "name") && !Has(extra, "kind") && !Has(extra, "range") && !Has(extra, "selectionRange")
    ensures ValidateDocumentSymbol(Obj(ms + extra)) == ValidateDocumentSymbol(Obj(ms))
  {
    GetIgnoresOtherKeys(ms, extra, "name");
    GetIgnoresOtherKeys(ms, extra, "kind");
    GetIgnoresOtherKeys(ms, extra, "range");
    GetIgnoresOtherKeys(ms, extra, "selectionRange");
  }
}
