/** What the decoders give back for the replies a conforming server sends: each shape
    the protocol allows comes back as that shape, with the same elements in the same
    order, and the shapes the decoders must tell apart (null and the empty list, a
    Location list and a LocationLink list, DocumentSymbol and SymbolInformation) are told
    apart. */
module DecoderLaws {
  import opened Results
  import opened Json
  import opened Structs
  import opened Decoders

  /** A list of structures in wire form. */
  function EncodeAll<T>(xs: seq<T>, f: T -> Value): seq<Value> {
    seq(|xs|, i requires 0 <= i < |xs| => f(xs[i]))
  }

  /** A list of objects holds no string, so `"key" in reply` is false for it. */
  lemma ObjectListHasNoKey(xs: seq<Value>, k: string)
    requires forall i | 0 <= i < |xs| :: xs[i].Obj?
    ensures Contains(Arr(xs), k) == Ok(false)
  {
  }

  // ---------------------------------------------------------------------------------
  // documentSymbol

  /** A list of DocumentSymbols comes back as DocumentSymbols, including the empty list. */
  lemma DocumentSymbolsRoundTrip(symbols: seq<DocumentSymbol>)
    ensures DecodeDocumentSymbols(Arr(EncodeAll(symbols, EncodeDocumentSymbol))) == Ok(DocumentSymbols(symbols))
  {
    var xs := EncodeAll(symbols, EncodeDocumentSymbol);
    MapAllOk(xs, ValidateDocumentSymbol, symbols);
  }

  /** A non-empty list of SymbolInformation fails the first probe and comes back as
      SymbolInformation. */
  lemma SymbolInformationRoundTrip(infos: seq<SymbolInformation>)
    requires infos != []
    ensures DecodeDocumentSymbols(Arr(EncodeAll(infos, EncodeSymbolInformation))) == Ok(SymbolInformations(infos))
  {
    var xs := EncodeAll(infos, EncodeSymbolInformation);
    forall i | 0 <= i < |xs| ensures ValidateSymbolInformation(xs[i]) == Ok(infos[i]) {
      assert xs[i] == EncodeSymbolInformation(infos[i]);
    }
    assert xs[0] == EncodeSymbolInformation(infos[0]);
    SymbolInformationDecoded(xs, infos);
  }

  /** A non-empty list whose first element is no DocumentSymbol and whose every element
      is valid SymbolInformation comes back as that SymbolInformation. */
  lemma SymbolInformationDecoded(xs: seq<Value>, infos: seq<SymbolInformation>)
    requires xs != [] && |xs| == |infos| && !IsDocumentSymbol(xs[0])
    requires forall i | 0 <= i < |xs| :: ValidateSymbolInformation(xs[i]) == Ok(infos[i])
    ensures DecodeDocumentSymbols(Arr(xs)) == Ok(SymbolInformations(infos))
  {
    SymbolProbes(xs, infos);
  }

  /** The two probes of documentSymbol on such a list: the first fails with a
      ValidationError, the second yields the SymbolInformation. */
  lemma SymbolProbes(xs: seq<Value>, infos: seq<SymbolInformation>)
    requires xs != [] && |xs| == |infos| && !IsDocumentSymbol(xs[0])
    requires forall i | 0 <= i < |xs| :: ValidateSymbolInformation(xs[i]) == Ok(infos[i])
    ensures MapAll(xs, ValidateDocumentSymbol) == Err(ValidationError)
    ensures MapAll(xs, ValidateSymbolInformation) == Ok(infos)
  {
    MapAllFailsWith(xs, ValidateDocumentSymbol, 0, ValidationError);
    MapAllOk(xs, ValidateSymbolInformation, infos);
  }

  /** A list holding a DocumentSymbol that is no SymbolInformation and a
      SymbolInformation that is no DocumentSymbol is neither shape, and the call fails. */
  lemma DocumentSymbolsNeverMix(xs: seq<Value>, i: nat, j: nat)
    requires i < |xs| && j < |xs|
    requires IsDocumentSymbol(xs[i]) && !IsSymbolInformation(xs[i])
    requires IsSymbolInformation(xs[j]) && !IsDocumentSymbol(xs[j])
    ensures DecodeDocumentSymbols(Arr(xs)) == Err(ValidationError)
  {
    NeitherShape(xs);
  }

  /** A list that is neither all DocumentSymbols nor all SymbolInformation fails. */
  lemma NeitherShape(xs: seq<Value>)
    requires !AllDocumentSymbols(xs) && !AllSymbolInformation(xs)
    ensures DecodeDocumentSymbols(Arr(xs)) == Err(ValidationError)
  {
  }

  /** Every DocumentSymbol and SymbolInformation a server sends meets the conditions of
      DocumentSymbolsNeverMix. */
  lemma SymbolShapesDisjoint(symbol: DocumentSymbol, info: SymbolInformation)
    ensures IsDocumentSymbol(EncodeDocumentSymbol(symbol)) && !IsSymbolInformation(EncodeDocumentSymbol(symbol))
    ensures IsSymbolInformation(EncodeSymbolInformation(info)) && !IsDocumentSymbol(EncodeSymbolInformation(info))
  {
  }

  // ---------------------------------------------------------------------------------
  // typeDefinition and references

  /** references: a Location list comes back as it was sent. */
  lemma ReferencesRoundTrip(locations: seq<Location>)
    ensures DecodeLocationList(Arr(EncodeAll(locations, EncodeLocation))) == Ok(locations)
  {
    MapAllOk(EncodeAll(locations, EncodeLocation), ValidateLocation, locations);
  }

  /** typeDefinition: a Location list, even an empty one, is some result; only null is
      none. */
  lemma TypeDefinitionRoundTrip(locations: seq<Location>)
    ensures DecodeTypeDefinition(Arr(EncodeAll(locations, EncodeLocation))) == Ok(Some(locations))
  {
    ReferencesRoundTrip(locations);
  }

  /** typeDefinition iterates a single Location object over its keys, which are strings,
      not Locations: such a reply fails rather than coming back as one location. */
  lemma TypeDefinitionSingleLocationRejected(location: Location)
    ensures DecodeTypeDefinition(EncodeLocation(location)) == Err(ValidationError)
  {
    var v := EncodeLocation(location);
    assert Get(v, "uri") == Str(location.uri);
    ObjectTypeDefinitionRejected(v.members);
  }

  /** Any non-empty object given as a typeDefinition reply is iterated over its keys and
      fails. */
  lemma ObjectTypeDefinitionRejected(ms: Members)
    requires ms != []
    ensures DecodeTypeDefinition(Obj(ms)) == Err(ValidationError)
  {
    assert Has(ms, ms[0].0);
    assert ms[0].0 in Keys(ms);
    var xs := Iterate(Obj(ms)).value;
    assert !IsLocation(xs[0]);
  }

  // ---------------------------------------------------------------------------------
  // declaration and definition

  /** A single Location object comes back as that Location. */
  lemma SingleLocationRoundTrip(location: Location)
    ensures DecodeLocations(EncodeLocation(location)) == Ok(SingleLocation(location))
  {
    var v := EncodeLocation(location);
    assert Get(v, "uri") == Str(location.uri);
    assert Has(v.members, "uri");
  }

  /** A Location list, even an empty one, comes back as Locations; an empty list is not
      "no location". */
  lemma LocationsRoundTrip(locations: seq<Location>)
    ensures DecodeLocations(Arr(EncodeAll(locations, EncodeLocation))) == Ok(Locations(locations))
  {
    var xs := EncodeAll(locations, EncodeLocation);
    forall i | 0 <= i < |xs| ensures xs[i].Obj? {
      assert Get(xs[i], "uri").Str?;
    }
    ObjectListHasNoKey(xs, "uri");
    MapAllOk(xs, ValidateLocation, locations);
  }

  /** A non-empty list of values that are LocationLinks and not Locations fails the
      Location probe and comes back as those links. */
  lemma LinksDecoded(xs: seq<Value>, links: seq<LocationLink>)
    requires xs != [] && |xs| == |links|
    requires forall i | 0 <= i < |xs| ::
      xs[i].Obj? && !IsLocation(xs[i]) && ValidateLocationLink(xs[i]) == Ok(links[i])
    ensures DecodeLocations(Arr(xs)) == Ok(Links(links))
  {
    ObjectListHasNoKey(xs, "uri");
    assert !AllLocations(xs) by { assert !IsLocation(xs[0]); }
    MapAllOk(xs, ValidateLocationLink, links);
  }

  /** A non-empty LocationLink list as a server sends it comes back as Links. */
  lemma LinksRoundTrip(links: seq<LocationLink>)
    requires links != []
    ensures DecodeLocations(Arr(EncodeAll(links, EncodeLocationLink))) == Ok(Links(links))
  {
    var xs := EncodeAll(links, EncodeLocationLink);
    forall i | 0 <= i < |xs| ensures xs[i].Obj? {
      assert Get(xs[i], "targetUri").Str?;
    }
    LinksDecoded(xs, links);
  }

  /** A list holding a Location that is no LocationLink and a LocationLink that is no
      Location is neither shape, and the call fails. */
  lemma LocationsNeverMix(xs: seq<Value>, i: nat, j: nat)
    requires i < |xs| && j < |xs|
    requires forall k | 0 <= k < |xs| :: xs[k].Obj?
    requires IsLocation(xs[i]) && !IsLocationLink(xs[i])
    requires IsLocationLink(xs[j]) && !IsLocation(xs[j])
    ensures DecodeLocations(Arr(xs)) == Err(ValidationError)
  {
    ObjectListHasNoKey(xs, "uri");
    NeitherLocationShape(xs);
  }

  /** A list without "uri" that is neither all Locations nor all LocationLinks fails. */
  lemma NeitherLocationShape(xs: seq<Value>)
    requires Contains(Arr(xs), "uri") == Ok(false)
    requires !AllLocations(xs) && !AllLocationLinks(xs)
    ensures DecodeLocations(Arr(xs)) == Err(ValidationError)
  {
  }

  /** Every Location and LocationLink a server sends meets the conditions of
      LocationsNeverMix. */
  lemma LocationShapesDisjoint(location: Location, link: LocationLink)
    ensures var v := EncodeLocation(location); v.Obj? && IsLocation(v) && !IsLocationLink(v)
    ensures var v := EncodeLocationLink(link); v.Obj? && IsLocationLink(v) && !IsLocation(v)
  {
    assert Get(EncodeLocation(location), "uri").Str?;
    assert Get(EncodeLocationLink(link), "targetUri").Str?;
  }

  /** A non-empty object without "uri" is iterated over its keys, which are strings, not
      locations: the call fails rather than returning nothing. */
  lemma UnknownObjectRejected(ms: Members)
    requires ms != [] && !Has(ms, "uri")
    ensures DecodeLocations(Obj(ms)) == Err(ValidationError)
  {
    assert Has(ms, ms[0].0);
    assert ms[0].0 in Keys(ms);
    var xs := Iterate(Obj(ms)).value;
    assert !IsLocation(xs[0]) && !IsLocationLink(xs[0]);
  }

  /** The empty object has no keys to iterate over, so it decodes as an empty Location
      list, not as "no location". */
  lemma EmptyObjectGivesEmptyLocations()
    ensures DecodeLocations(Obj([])) == Ok(Locations([]))
  {
    assert Keys([]) == [];
    assert Iterate(Obj([])).value == [];
  }

  // ---------------------------------------------------------------------------------
  // completion

  /** A CompletionList comes back wrapped, whether or not it is incomplete. */
  lemma CompletionListRoundTrip(list: CompletionList)
    ensures DecodeCompletion(EncodeCompletionList(list)) == Ok(WrappedList(list))
  {
    var v := EncodeCompletionList(list);
    assert Get(v, "isIncomplete").Bool?;
    assert Has(v.members, "isIncomplete");
  }

  /** A bare list of CompletionItems comes back as the same items. */
  lemma CompletionItemsRoundTrip(items: seq<CompletionItem>)
    ensures DecodeCompletion(Arr(EncodeAll(items, EncodeCompletionItem))) == Ok(BareItems(items))
  {
    var xs := EncodeAll(items, EncodeCompletionItem);
    forall i | 0 <= i < |xs| ensures xs[i].Obj? {
      assert Get(xs[i], "label").Str?;
    }
    ObjectListHasNoKey(xs, "isIncomplete");
    MapAllOk(xs, ValidateCompletionItem, items);
  }

  // ---------------------------------------------------------------------------------
  // signatureHelp

  /** A SignatureHelp, even one with no signatures, is a non-empty object and comes back
      as itself. */
  lemma SignatureHelpRoundTrip(help: SignatureHelp)
    ensures DecodeSignatureHelp(EncodeSignatureHelp(help)) == Ok(Some(help))
  {
    var v := EncodeSignatureHelp(help);
    assert Get(v, "signatures").Arr?;
    assert v.members != [];
  }

  // ---------------------------------------------------------------------------------
  // rename

  /** A rename reply whose `changes` name each URI once comes back with the same URIs in
      the same order, each with its edits, every position and text kept exactly (zero
      included). */
  lemma RenameRoundTrip(w: WorkspaceEdit)
    requires DistinctUris(w)
    ensures DecodeRename(Obj([("changes", EncodeChanges(w))])) == Ok(w)
  {
    var changes := EncodeChanges(w);
    assert Lookup([("changes", changes)], "changes") == Some(changes);
    ChangesDecoded(w);
  }

  /** The `changes` dict of distinct URIs decodes entry by entry back to the changes. */
  lemma ChangesDecoded(w: WorkspaceEdit)
    requires DistinctUris(w)
    ensures EncodeChanges(w).Obj? && MapAll(Items(EncodeChanges(w).members), DecodeUriEdits) == Ok(w.changes)
  {
    var ms := EncodeChanges(w).members;
    assert DistinctKeys(ms) by {
      forall i, j | 0 <= i < j < |ms| ensures ms[i].0 != ms[j].0 {
        assert ms[i].0 == w.changes[i].0 && ms[j].0 == w.changes[j].0;
      }
    }
    ItemsOfDistinct(ms);
    forall i | 0 <= i < |ms| ensures DecodeUriEdits(ms[i]) == Ok(w.changes[i]) {
      UriEditsRoundTrip(w.changes[i]);
    }
    MapAllOk(ms, DecodeUriEdits, w.changes);
  }

  /** One URI with its edits in wire form comes back as the same URI and edits. */
  lemma UriEditsRoundTrip(entry: (string, seq<TextEdit>))
    ensures DecodeUriEdits((entry.0, Arr(EncodeTextEdits(entry.1)))) == Ok(entry)
  {
    MapAllOk(EncodeTextEdits(entry.1), DecodeTextEdit, entry.1);
  }
}
