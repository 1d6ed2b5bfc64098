/** What the texts of pending completion say when they are read: the keys, and the JSON inside a signature. */
module PendingReading {
  import opened Wrappers
  import opened Numerals
  import opened CanonicalJson
  import opened CanonicalReading
  import opened PendingText

  /** The object has the field. */
  predicate Says(v: Json, name: string, value: Json) {
    v.Obj? && Live(name, value) in v.fields
  }

  predicate SaysLine(v: Json, l: CargoLine) {
    && Says(v, "containerRecordId", Str(l.containerRecordId)) && Says(v, "productNumber", Str(l.productNumber))
    && Says(v, "quantity", Str(l.quantity)) && Says(v, "quantityUnit", Str(l.quantityUnit))
  }

  /** A text, or null where there is none. */
  predicate IsText(v: Json, t: Option<string>) {
    if t.None? then v.Null? else v == Str(t.value)
  }

  predicate AreTexts(v: Json, ts: seq<Option<string>>) {
    v.Arr? && |v.items| == |ts| && forall i | 0 <= i < |ts| :: IsText(v.items[i], ts[i])
  }

  ghost predicate SaysDocument(v: Json, d: Document) {
    && Says(v, "documentType", Str(d.documentType)) && Says(v, "documentNumber", Str(d.documentNumber))
    && (exists scac :: Says(v, "scac", scac) && IsText(scac, d.scac))
    && exists ids :: Says(v, "containerRecordIds", ids) && AreTexts(ids, d.containerRecordIds)
  }

  /** The text reads as the list of the lines or documents, or is the cargo line and its version. */
  ghost predicate PayloadSays(c: Command, payload: string) {
    match c
    case Sku(_, id, version) => payload == id + ":" + Decimal(version)
    case Cargo(_, lines) => exists w :: ReadValue(payload) == Some((w, "")) && ListsLines(w, lines)
    case Documents(_, documents) => exists w :: ReadValue(payload) == Some((w, "")) && ListsDocuments(w, documents)
  }

  predicate ListsLines(w: Json, lines: seq<CargoLine>) {
    w.Arr? && |w.items| == |lines| && forall k | 0 <= k < |lines| :: SaysLine(w.items[k], lines[k])
  }

  ghost predicate ListsDocuments(w: Json, documents: seq<Document>) {
    w.Arr? && |w.items| == |documents| && forall k | 0 <= k < |documents| :: SaysDocument(w.items[k], documents[k])
  }

  lemma LineSays(l: CargoLine)
    ensures SaysLine(LineJson(l), l)
  {
    var fields := LineJson(l).fields;
    assert fields[0] in fields && fields[1] in fields && fields[2] in fields && fields[3] in fields;
  }

  lemma DocumentSays(d: Document)
    ensures SaysDocument(DocumentJson(d), d)
  {
    var v := DocumentJson(d);
    assert v.fields[0] in v.fields && v.fields[1] in v.fields;
    assert v.fields[2] in v.fields && v.fields[3] in v.fields;
    assert Says(v, "scac", TextJson(d.scac)) && IsText(TextJson(d.scac), d.scac);
    assert Says(v, "containerRecordIds", IdsJson(d.containerRecordIds));
    assert AreTexts(IdsJson(d.containerRecordIds), d.containerRecordIds);
  }

  lemma CargoReads(lines: seq<CargoLine>)
    ensures ReadValue(Print(LinesJson(lines))) == Some((LinesJson(lines), "")) && ListsLines(LinesJson(lines), lines)
  {
    LinesDefined(lines);
    DefinedIsVisible(LinesJson(lines));
    PrintedReadsBack(LinesJson(lines));
    forall k | 0 <= k < |lines| ensures SaysLine(LinesJson(lines).items[k], lines[k]) {
      LineSays(lines[k]);
    }
  }

  lemma DocumentsRead(ds: seq<Document>)
    ensures ReadValue(Print(DocumentsJson(ds))) == Some((DocumentsJson(ds), ""))
    ensures ListsDocuments(DocumentsJson(ds), ds)
  {
    DocumentsDefined(ds);
    DefinedIsVisible(DocumentsJson(ds));
    PrintedReadsBack(DocumentsJson(ds));
    forall k | 0 <= k < |ds| ensures SaysDocument(DocumentsJson(ds).items[k], ds[k]) {
      DocumentSays(ds[k]);
    }
  }

  /** A signature is the shipment, its version and the command: read as JSON, exactly what was entered. */
  lemma SignatureReads(c: Command) returns (payload: string)
    ensures Signature(c) == c.shipment.id + ":" + Decimal(c.shipment.relationshipVersion) + ":" + payload
    ensures PayloadSays(c, payload)
  {
    payload := Payload(c);
    var id, version := c.shipment.id, Decimal(c.shipment.relationshipVersion);
    assert id + ":" + (version + ":" + payload) == id + ":" + version + ":" + payload;
    match c
    case Cargo(_, lines) => CargoReads(lines);
    case Documents(_, documents) => DocumentsRead(documents);
    case Sku(_, _, _) =>
  }

  /** A new key names what it was drawn for, the shipment, and the UUID. */
  lemma KeyReads(c: Command, uuid: Uuid)
    ensures
      var purpose := match c
        case Cargo(_, _) => "shipment-pending-cargo"
        case Sku(_, _, _) => "shipment-pending-sku"
        case Documents(_, _) => "shipment-pending-document";
      KeyOf(c, uuid) == purpose + ":" + c.shipment.id + ":" + uuid
  {
    assert "shipment-pending-cargo:" == "shipment-pending-cargo" + ":";
    assert "shipment-pending-sku:" == "shipment-pending-sku" + ":";
    assert "shipment-pending-document:" == "shipment-pending-document" + ":";
  }
}
