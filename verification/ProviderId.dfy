/** pkg/provider/instancesv2.go: the provider ID printer and parser, and the looser split that the
    target-group attachment code applies to the same text. */
module ProviderId {
  import opened GoText

  const PROVIDER_NAME := "thalassacloud"

  predicate InAlphabet(c: char) {
    '0' <= c <= '9' || 'A' <= c <= 'Z' || 'a' <= c <= 'z' || c == '_' || c == '-'
  }

  /** The capture group of the provider ID regular expression. */
  predicate WellFormedIdentity(id: string) {
    id != "" && forall c | c in id :: InAlphabet(c)
  }

  function GetProviderID(machineIdentity: string): string {
    PROVIDER_NAME + "://" + machineIdentity
  }

  function InstanceIDFromProviderID(providerID: string): Result<string> {
    var prefix := PROVIDER_NAME + "://";
    if |prefix| <= |providerID| && providerID[..|prefix|] == prefix && WellFormedIdentity(providerID[|prefix|..])
    then Ok(providerID[|prefix|..])
    else Err
  }

  /** What upgradeTargetGroupAttachments reads off a node: nothing unless "://" cuts the text in two. */
  function AttachmentIdentity(providerID: string): Option<string> {
    var parts := Split(providerID, "://");
    if providerID == "" || |parts| != 2 then None else Some(parts[1])
  }

  /** The text is cut in two by the one "://" in it, and the identity is what follows. */
  ghost predicate CutInTwo(text: string, id: string) {
    exists front :: text == front + "://" + id && !Has(front, "://") && !Has(id, "://")
  }

  lemma CutsThere(front: string, id: string)
    requires !Has(front, "://") && !Has(id, "://")
    ensures Split(front + "://" + id, "://") == [front, id]
  {
    var text := front + "://" + id;
    assert OccursAt(text, "://", |front|);
    forall j | 0 <= j < |front|
      ensures !OccursAt(text, "://", j)
    {
      if j + 3 <= |front| {
        assert text[j..j + 3] == front[j..j + 3] && !OccursAt(front, "://", j);
      } else {
        assert text[|front|] == ':' && text[|front|] == text[j..j + 3][|front| - j];
      }
    }
    assert Index(text, "://") == |front| && text[..|front|] == front && text[|front| + 3..] == id;
    assert Index(id, "://") == -1;
  }

  /** The looser reading finds an identity exactly in the texts that the separator cuts in two. */
  lemma AttachmentExactly(text: string, id: string)
    ensures AttachmentIdentity(text) == Some(id) <==> CutInTwo(text, id)
  {
    if front :| text == front + "://" + id && !Has(front, "://") && !Has(id, "://") {
      CutsThere(front, id);
    }
    if AttachmentIdentity(text) == Some(id) {
      var parts := Split(text, "://");
      JoinSplit(text, "://");
      SplitPieces(text, "://");
      assert parts[1..] == [id] && text == parts[0] + "://" + id;
      assert parts[0] in parts && id in parts;
    }
  }

  /** The parser undoes the printer on the identities of the regular expression's alphabet, and on no others. */
  lemma ParserUndoesPrinter(id: string)
    ensures InstanceIDFromProviderID(GetProviderID(id)) == Ok(id) <==> WellFormedIdentity(id)
    ensures InstanceIDFromProviderID(GetProviderID(id)) == Err <==> !WellFormedIdentity(id)
  {
    var prefix := PROVIDER_NAME + "://";
    assert GetProviderID(id)[..|prefix|] == prefix && GetProviderID(id)[|prefix|..] == id;
  }

  lemma PrinterUndoesParser(providerID: string)
    requires InstanceIDFromProviderID(providerID).Ok?
    ensures GetProviderID(InstanceIDFromProviderID(providerID).value) == providerID
  {
    var prefix := PROVIDER_NAME + "://";
    assert providerID == providerID[..|prefix|] + providerID[|prefix|..];
  }

  /** On every provider ID the regular expression accepts, the split gives two parts and the same identity. */
  lemma SplitAgreesWithParser(providerID: string)
    requires InstanceIDFromProviderID(providerID).Ok?
    ensures Split(providerID, "://") == [PROVIDER_NAME, InstanceIDFromProviderID(providerID).value]
    ensures AttachmentIdentity(providerID) == Some(InstanceIDFromProviderID(providerID).value)
  {
    var id := InstanceIDFromProviderID(providerID).value;
    PrinterUndoesParser(providerID);
    assert ':' !in id;
    SplitAfter(PROVIDER_NAME, "://", id);
    SplitAbsent(id, "://");
  }

  /** The two readings give the same identity exactly on the printed form of a well-formed identity. */
  lemma ReadingsAgreeExactly(providerID: string, id: string)
    ensures AttachmentIdentity(providerID) == Some(id) && InstanceIDFromProviderID(providerID) == Ok(id)
       <==> WellFormedIdentity(id) && providerID == GetProviderID(id)
  {
    if WellFormedIdentity(id) && providerID == GetProviderID(id) {
      ParserUndoesPrinter(id);
      SplitAgreesWithParser(providerID);
    } else if InstanceIDFromProviderID(providerID) == Ok(id) {
      PrinterUndoesParser(providerID);
    }
  }

  /** The split is looser than the parser: it attaches a server for another provider's node,
      whatever that provider is called. */
  lemma SplitAcceptsForeignProviders(provider: string, id: string)
    requires ':' !in provider && ':' !in id && provider != PROVIDER_NAME
    ensures AttachmentIdentity(provider + "://" + id) == Some(id)
    ensures InstanceIDFromProviderID(provider + "://" + id) == Err
  {
    var text := provider + "://" + id;
    SplitAfter(provider, "://", id);
    SplitAbsent(id, "://");
    assert Split(text, "://")[0] == provider;
    if InstanceIDFromProviderID(text).Ok? {
      SplitAgreesWithParser(text);
    }
  }
}
