/**
 The texts pending completion works with: the command of each kind, the signature its saved
 operation is filed under, and the idempotency key drawn for it.
 */
module PendingText {
  import opened Wrappers
  import opened CanonicalJson
  import CanonicalPrinting
  import opened Numerals
  import opened Text

  /** A UUID in text form. */
  type Uuid = s: string | ':' !in s witness ""

  datatype Shipment = Shipment(id: Uuid, relationshipVersion: nat)
  datatype CargoLine = CargoLine(containerRecordId: string, productNumber: string, quantity: string,
      quantityUnit: string)
  datatype DocumentDraft = DocumentDraft(documentType: string, documentNumber: string, scac: string,
      containerRecordIds: seq<string>)

  /** A normalised document; None in `containerRecordIds` is the `undefined` of an empty list. */
  datatype Document = Document(documentType: string, documentNumber: string, scac: Option<string>,
      containerRecordIds: seq<Option<string>>)

  datatype Kind = CargoKind | SkuKind | DocumentKind

  datatype Command =
    | Cargo(shipment: Shipment, lines: seq<CargoLine>)
    | Sku(shipment: Shipment, cargoLineId: Uuid, cargoLineVersion: nat)
    | Documents(shipment: Shipment, documents: seq<Document>)
  {
    function Kind(): Kind {
      match this case Cargo(_, _) => CargoKind case Sku(_, _, _) => SkuKind case Documents(_, _) => DocumentKind
    }
  }

  // ---------------------------------------------------------------------------------------
  // Normalisation
  // ---------------------------------------------------------------------------------------

  function Normalize(d: DocumentDraft): Document {
    var ids, scac := Unique(d.containerRecordIds), ToUpper(Trim(d.scac));
    Document(d.documentType, Trim(d.documentNumber), if scac == "" then None else Some(scac),
             if ids == [] then [None] else seq(|ids|, i requires 0 <= i < |ids| => Some(ids[i])))
  }

  /** The container ids of the draft, each once, in the order of their first occurrences; never an empty list. */
  ghost predicate SaysIds(ids: seq<string>, sent: seq<Option<string>>) {
    if ids == [] then sent == [None]
    else (forall i | 0 <= i < |sent| :: sent[i].Some?) && OnceEach(ids, Values(sent))
  }

  function Values(ids: seq<Option<string>>): seq<string> {
    seq(|ids|, i requires 0 <= i < |ids| => ids[i].GetOr(""))
  }

  /** No SCAC exactly for a blank one, else the trimmed one in upper case. */
  ghost predicate SaysScac(scac: string, sent: Option<string>) {
    && (sent.None? <==> Blank(scac))
    && (sent.Some? ==> exists t :: TrimmedTo(scac, t) && UpperOf(t, sent.value))
  }

  /** The document says what was entered: trimmed, its SCAC in upper case or absent, its containers once each. */
  ghost predicate SaysDraft(d: DocumentDraft, e: Document) {
    && e.documentType == d.documentType && TrimmedTo(d.documentNumber, e.documentNumber)
    && SaysScac(d.scac, e.scac) && SaysIds(d.containerRecordIds, e.containerRecordIds)
  }

  lemma IdsSayDraft(d: DocumentDraft)
    ensures SaysIds(d.containerRecordIds, Normalize(d).containerRecordIds)
  {
    var ids, sent := Unique(d.containerRecordIds), Normalize(d).containerRecordIds;
    UniqueIsOnceEach(d.containerRecordIds);
    if d.containerRecordIds == [] {
      assert ids == [];
    } else {
      assert d.containerRecordIds[0] in ids;
      assert Values(sent) == ids;
    }
  }

  lemma ToUpperIs(s: string)
    ensures UpperOf(s, ToUpper(s))
  {
  }

  lemma ScacSaysDraft(scac: string)
    ensures var upper := ToUpper(Trim(scac)); SaysScac(scac, if upper == "" then None else Some(upper))
  {
    TrimIs(scac, Trim(scac));
    TrimmedAwayExactly(scac);
    ToUpperIs(Trim(scac));
  }

  lemma NormalizeSaysDraft(d: DocumentDraft)
    ensures SaysDraft(d, Normalize(d))
  {
    TrimIs(d.documentNumber, Trim(d.documentNumber));
    ScacSaysDraft(d.scac);
    IdsSayDraft(d);
  }

  // ---------------------------------------------------------------------------------------
  // Signatures and keys
  // ---------------------------------------------------------------------------------------

  function LineJson(l: CargoLine): Json {
    Obj([Live("containerRecordId", Str(l.containerRecordId)), Live("productNumber", Str(l.productNumber)),
         Live("quantity", Str(l.quantity)), Live("quantityUnit", Str(l.quantityUnit))])
  }

  function TextJson(t: Option<string>): Json {
    if t.None? then Null else Str(t.value)
  }

  function IdsJson(ids: seq<Option<string>>): Json {
    Arr(seq(|ids|, i requires 0 <= i < |ids| => TextJson(ids[i])))
  }

  function DocumentJson(d: Document): Json {
    Obj([Live("documentType", Str(d.documentType)), Live("documentNumber", Str(d.documentNumber)),
         Live("scac", TextJson(d.scac)), Live("containerRecordIds", IdsJson(d.containerRecordIds))])
  }

  function LinesJson(ls: seq<CargoLine>): Json {
    Arr(seq(|ls|, i requires 0 <= i < |ls| => LineJson(ls[i])))
  }

  function DocumentsJson(ds: seq<Document>): Json {
    Arr(seq(|ds|, i requires 0 <= i < |ds| => DocumentJson(ds[i])))
  }

  /** What follows the shipment and its version. */
  function Payload(c: Command): string {
    match c
    case Cargo(_, lines) => Print(LinesJson(lines))
    case Sku(_, id, version) => id + ":" + Decimal(version)
    case Documents(_, documents) => Print(DocumentsJson(documents))
  }

  function Signature(c: Command): string {
    c.shipment.id + ":" + (Decimal(c.shipment.relationshipVersion) + ":" + Payload(c))
  }

  function KeyPrefix(c: Command): string {
    match c.Kind()
    case CargoKind => "shipment-pending-cargo:" + c.shipment.id
    case SkuKind => "shipment-pending-sku:" + c.shipment.id
    case DocumentKind => "shipment-pending-document:" + c.shipment.id
  }

  function KeyOf(c: Command, uuid: Uuid): string {
    KeyPrefix(c) + ":" + uuid
  }

  // ---------------------------------------------------------------------------------------
  // They decide what they stand for
  // ---------------------------------------------------------------------------------------

  lemma NoColonInDigits(k: string)
    requires Digits(k)
    ensures ':' !in k
  {
  }

  lemma LinesDefined(ls: seq<CargoLine>)
    ensures CanonicalPrinting.Defined(LinesJson(ls))
  {
    forall i | 0 <= i < |ls| ensures CanonicalPrinting.Defined(LineJson(ls[i])) {
    }
  }

  lemma DocumentDefined(d: Document)
    ensures CanonicalPrinting.Defined(DocumentJson(d))
  {
    assert CanonicalPrinting.Defined(IdsJson(d.containerRecordIds));
  }

  lemma DocumentsDefined(ds: seq<Document>)
    ensures CanonicalPrinting.Defined(DocumentsJson(ds))
  {
    forall i | 0 <= i < |ds| ensures CanonicalPrinting.Defined(DocumentJson(ds[i])) {
      DocumentDefined(ds[i]);
    }
  }

  lemma LineJsonInjective(a: CargoLine, b: CargoLine)
    requires LineJson(a) == LineJson(b)
    ensures a == b
  {
    assert forall i | 0 <= i < 4 :: LineJson(a).fields[i] == LineJson(b).fields[i];
    assert LineJson(a).fields[0].value == LineJson(b).fields[0].value
        && LineJson(a).fields[1].value == LineJson(b).fields[1].value;
    assert LineJson(a).fields[2].value == LineJson(b).fields[2].value
        && LineJson(a).fields[3].value == LineJson(b).fields[3].value;
  }

  lemma IdsJsonInjective(a: seq<Option<string>>, b: seq<Option<string>>)
    requires IdsJson(a) == IdsJson(b)
    ensures a == b
  {
    assert |a| == |IdsJson(a).items| == |b|;
    forall i | 0 <= i < |a| ensures a[i] == b[i] {
      assert IdsJson(a).items[i] == TextJson(a[i]) && IdsJson(b).items[i] == TextJson(b[i]);
    }
  }

  lemma DocumentJsonInjective(a: Document, b: Document)
    requires DocumentJson(a) == DocumentJson(b)
    ensures a == b
  {
    var xs, ys := DocumentJson(a).fields, DocumentJson(b).fields;
    assert xs[0].value == ys[0].value && xs[1].value == ys[1].value;
    assert xs[2].value == ys[2].value && xs[3].value == ys[3].value;
    IdsJsonInjective(a.containerRecordIds, b.containerRecordIds);
  }

  lemma LinesTextDecides(a: seq<CargoLine>, b: seq<CargoLine>)
    requires Print(LinesJson(a)) == Print(LinesJson(b))
    ensures a == b
  {
    LinesDefined(a);
    LinesDefined(b);
    CanonicalPrinting.PrintInjective(LinesJson(a), LinesJson(b));
    assert |a| == |LinesJson(a).items| == |b|;
    forall i | 0 <= i < |a| ensures a[i] == b[i] {
      assert LinesJson(a).items[i] == LinesJson(b).items[i];
      LineJsonInjective(a[i], b[i]);
    }
  }

  lemma DocumentsTextDecides(a: seq<Document>, b: seq<Document>)
    requires Print(DocumentsJson(a)) == Print(DocumentsJson(b))
    ensures a == b
  {
    DocumentsDefined(a);
    DocumentsDefined(b);
    CanonicalPrinting.PrintInjective(DocumentsJson(a), DocumentsJson(b));
    assert |a| == |DocumentsJson(a).items| == |b|;
    forall i | 0 <= i < |a| ensures a[i] == b[i] {
      assert DocumentsJson(a).items[i] == DocumentsJson(b).items[i];
      DocumentJsonInjective(a[i], b[i]);
    }
  }

  lemma PayloadDecides(c: Command, d: Command)
    requires c.Kind() == d.Kind() && c.shipment == d.shipment && Payload(c) == Payload(d)
    ensures c == d
  {
    match c
    case Cargo(_, lines) => LinesTextDecides(lines, d.lines);
    case Documents(_, documents) => DocumentsTextDecides(documents, d.documents);
    case Sku(_, id, version) =>
      FirstCut(':', id, Decimal(version), d.cargoLineId, Decimal(d.cargoLineVersion));
      DecimalInjective(version, d.cargoLineVersion);
  }

  /** Within a kind, two commands share a signature exactly when they are the same command. */
  lemma SignatureDecides(c: Command, d: Command)
    requires c.Kind() == d.Kind()
    ensures Signature(c) == Signature(d) <==> c == d
  {
    if Signature(c) == Signature(d) {
      var (v, w) := (Decimal(c.shipment.relationshipVersion), Decimal(d.shipment.relationshipVersion));
      assert c.shipment.id + ":" + (v + ":" + Payload(c)) == d.shipment.id + ":" + (w + ":" + Payload(d));
      FirstCut(':', c.shipment.id, v + ":" + Payload(c), d.shipment.id, w + ":" + Payload(d));
      NoColonInDigits(v);
      NoColonInDigits(w);
      FirstCut(':', v, Payload(c), w, Payload(d));
      DecimalInjective(c.shipment.relationshipVersion, d.shipment.relationshipVersion);
      PayloadDecides(c, d);
    }
  }

  /** Keys drawn with different UUIDs differ, whatever they were drawn for. */
  lemma KeysDiffer(c: Command, u: Uuid, d: Command, v: Uuid)
    requires KeyOf(c, u) == KeyOf(d, v)
    ensures u == v
  {
    AfterLastOf(':', KeyPrefix(c), u);
    AfterLastOf(':', KeyPrefix(d), v);
  }
}
