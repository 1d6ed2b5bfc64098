/**
 `savePendingShipmentCargo`, `bindPendingShipmentSku` and `savePendingShipmentDocuments`, each cut
 at its two awaits: the command, then the reload of the pending list. Nothing keeps a second
 call from starting while the first one waits. `uuid` and `now` are what the code would draw for
 a new operation.
 */
module PendingCompletion {
  import opened Wrappers
  import opened PendingText

  datatype Operation = Operation(idempotencyKey: string, occurredAt: nat)
  datatype Request = Request(key: string, occurredAt: nat, command: Command)

  type Operations = map<string, Operation>

  /** The saved operations of one kind and what its panel shows. */
  datatype Desk = Desk(ops: Operations, busy: bool, failed: bool, noticed: bool, result: Option<nat>)

  datatype Workbench = Workbench(cargo: Desk, sku: Desk, documents: Desk) {
    function Of(k: Kind): Desk {
      match k case CargoKind => cargo case SkuKind => sku case DocumentKind => documents
    }

    function With(k: Kind, d: Desk): Workbench {
      match k
      case CargoKind => this.(cargo := d)
      case SkuKind => this.(sku := d)
      case DocumentKind => this.(documents := d)
    }
  }

  const IDLE := Desk(map[], false, false, false, None)
  const EMPTY := Workbench(IDLE, IDLE, IDLE)

  function OperationFor(ops: Operations, c: Command, uuid: Uuid, now: nat): Operation {
    if Signature(c) in ops then ops[Signature(c)] else Operation(KeyOf(c, uuid), now)
  }

  /** An empty list of lines or documents sends nothing. */
  predicate NothingEntered(c: Command) {
    (c.Cargo? && c.lines == []) || (c.Documents? && c.documents == [])
  }

  /** From the call to the request. */
  function Send(d: Desk, c: Command, uuid: Uuid, now: nat): (Desk, Option<Request>) {
    if NothingEntered(c) then (d.(failed := false, noticed := true, result := None), None)
    else
      var op := OperationFor(d.ops, c, uuid, now);
      (Desk(d.ops[Signature(c) := op], true, false, false, None), Some(Request(op.idempotencyKey, op.occurredAt, c)))
  }

  /** The reply, or None for an error. After a success the list is still to be reloaded. */
  function Replied(d: Desk, c: Command, reply: Option<nat>): Desk {
    match reply
    case None => d.(busy := false, failed := true)
    case Some(n) =>
      d.(ops := d.ops - {Signature(c)}, result := reply, noticed := if c.Cargo? && n == 0 then d.noticed else true)
  }

  /** The `finally`, once the list was reloaded. */
  function Reloaded(d: Desk): Desk {
    d.(busy := false)
  }

  /** The request carries the operation saved for its command, or one drawn now, which is then saved. */
  predicate Filed(before: Operations, after: Operations, r: Request, uuid: Uuid, now: nat) {
    var signature, op := Signature(r.command), Operation(r.key, r.occurredAt);
    && after == before[signature := op]
    && (if signature in before then op == before[signature] else op == Operation(KeyOf(r.command, uuid), now))
  }

  // ---------------------------------------------------------------------------------------
  // The composable
  // ---------------------------------------------------------------------------------------

  class PendingCompletionWorkbench {
    var pendingCargoIdempotency: Operations
    var savingPendingCargo: bool
    var pendingCargoSaveError: bool
    var pendingCargoSaveNotice: bool
    var pendingCargoSaveResult: Option<nat>
    var pendingSkuIdempotency: Operations
    var bindingPendingSku: bool
    var pendingSkuBindingError: bool
    var pendingSkuBindingNotice: bool
    var pendingSkuBindingResult: Option<nat>
    var pendingDocumentIdempotency: Operations
    var savingPendingDocuments: bool
    var pendingDocumentSaveError: bool
    var pendingDocumentSaveNotice: bool
    var pendingDocumentSaveResult: Option<nat>

    constructor ()
      ensures View() == EMPTY
    {
      pendingCargoIdempotency, pendingSkuIdempotency, pendingDocumentIdempotency := map[], map[], map[];
      savingPendingCargo, bindingPendingSku, savingPendingDocuments := false, false, false;
      pendingCargoSaveError, pendingSkuBindingError, pendingDocumentSaveError := false, false, false;
      pendingCargoSaveNotice, pendingSkuBindingNotice, pendingDocumentSaveNotice := false, false, false;
      pendingCargoSaveResult, pendingSkuBindingResult, pendingDocumentSaveResult := None, None, None;
    }

    function CargoDesk(): Desk
      reads this`pendingCargoIdempotency, this`savingPendingCargo, this`pendingCargoSaveError,
            this`pendingCargoSaveNotice, this`pendingCargoSaveResult
    {
      Desk(pendingCargoIdempotency, savingPendingCargo, pendingCargoSaveError, pendingCargoSaveNotice,
          pendingCargoSaveResult)
    }

    function SkuDesk(): Desk
      reads this`pendingSkuIdempotency, this`bindingPendingSku, this`pendingSkuBindingError,
            this`pendingSkuBindingNotice, this`pendingSkuBindingResult
    {
      Desk(pendingSkuIdempotency, bindingPendingSku, pendingSkuBindingError, pendingSkuBindingNotice,
          pendingSkuBindingResult)
    }

    function DocumentDesk(): Desk
      reads this`pendingDocumentIdempotency, this`savingPendingDocuments, this`pendingDocumentSaveError,
            this`pendingDocumentSaveNotice, this`pendingDocumentSaveResult
    {
      Desk(pendingDocumentIdempotency, savingPendingDocuments, pendingDocumentSaveError, pendingDocumentSaveNotice,
           pendingDocumentSaveResult)
    }

    function View(): Workbench
      reads this
    {
      Workbench(CargoDesk(), SkuDesk(), DocumentDesk())
    }

    method SavePendingShipmentCargo(current: Option<Shipment>, lines: seq<CargoLine>, uuid: Uuid, now: nat)
      returns (sent: Option<Request>)
      modifies this`pendingCargoIdempotency, this`savingPendingCargo, this`pendingCargoSaveError,
               this`pendingCargoSaveNotice, this`pendingCargoSaveResult
      ensures current.None? ==> sent.None? && CargoDesk() == old(CargoDesk())
      ensures current.Some? ==>
        (CargoDesk(), sent) == Send(old(CargoDesk()), Cargo(current.value, lines), uuid, now)
      ensures sent.Some? <==> current.Some? && lines != []
      ensures sent.Some? ==> sent.value.command == Cargo(current.value, lines)
      ensures sent.Some? ==> Filed(old(pendingCargoIdempotency), pendingCargoIdempotency, sent.value, uuid, now)
      ensures sent.Some? ==> CargoDesk() == Desk(pendingCargoIdempotency, true, false, false, None)
      ensures current.Some? && lines == [] ==>
        CargoDesk() == Desk(old(pendingCargoIdempotency), old(savingPendingCargo), false, true, None)
    {
      if current.None? { return None; }
      pendingCargoSaveError, pendingCargoSaveNotice, pendingCargoSaveResult := false, false, None;
      if |lines| == 0 {
        pendingCargoSaveNotice := true;
        return None;
      }
      savingPendingCargo := true;
      var c := Cargo(current.value, lines);
      var operation := OperationFor(pendingCargoIdempotency, c, uuid, now);
      pendingCargoIdempotency := pendingCargoIdempotency[Signature(c) := operation];
      sent := Some(Request(operation.idempotencyKey, operation.occurredAt, c));
    }

    /** `reply` holds the number of SKUs without master data. */
    method OnCargoReply(c: Command, reply: Option<nat>)
      requires c.Cargo?
      modifies this`pendingCargoIdempotency, this`savingPendingCargo, this`pendingCargoSaveError,
               this`pendingCargoSaveNotice, this`pendingCargoSaveResult
      ensures CargoDesk() == Replied(old(CargoDesk()), c, reply)
      ensures reply.None? ==> CargoDesk() == old(CargoDesk()).(busy := false, failed := true)
      ensures reply.Some? ==>
        && Signature(c) !in pendingCargoIdempotency && pendingCargoSaveResult == reply
        && pendingCargoSaveNotice == (reply.value > 0 || old(pendingCargoSaveNotice))
        && savingPendingCargo == old(savingPendingCargo) && pendingCargoSaveError == old(pendingCargoSaveError)
    {
      if reply.None? {
        pendingCargoSaveError, savingPendingCargo := true, false;
      } else {
        pendingCargoSaveResult := reply;
        if reply.value > 0 {
          pendingCargoSaveNotice := true;
        }
        pendingCargoIdempotency := pendingCargoIdempotency - {Signature(c)};
      }
    }

    method BindPendingShipmentSku(current: Option<Shipment>, cargoLineId: Uuid, cargoLineVersion: nat, uuid: Uuid,
            now: nat)
      returns (sent: Option<Request>)
      modifies this`pendingSkuIdempotency, this`bindingPendingSku, this`pendingSkuBindingError,
               this`pendingSkuBindingNotice, this`pendingSkuBindingResult
      ensures current.None? ==> sent.None? && SkuDesk() == old(SkuDesk())
      ensures current.Some? ==>
        (SkuDesk(), sent) == Send(old(SkuDesk()), Sku(current.value, cargoLineId, cargoLineVersion), uuid, now)
      ensures sent.Some? <==> current.Some?
      ensures sent.Some? ==> sent.value.command == Sku(current.value, cargoLineId, cargoLineVersion)
      ensures sent.Some? ==> Filed(old(pendingSkuIdempotency), pendingSkuIdempotency, sent.value, uuid, now)
      ensures sent.Some? ==> SkuDesk() == Desk(pendingSkuIdempotency, true, false, false, None)
    {
      if current.None? { return None; }
      bindingPendingSku, pendingSkuBindingError, pendingSkuBindingNotice := true, false, false;
      pendingSkuBindingResult := None;
      var c := Sku(current.value, cargoLineId, cargoLineVersion);
      var operation := OperationFor(pendingSkuIdempotency, c, uuid, now);
      pendingSkuIdempotency := pendingSkuIdempotency[Signature(c) := operation];
      sent := Some(Request(operation.idempotencyKey, operation.occurredAt, c));
    }

    method OnSkuReply(c: Command, reply: Option<nat>)
      requires c.Sku?
      modifies this`pendingSkuIdempotency, this`bindingPendingSku, this`pendingSkuBindingError,
               this`pendingSkuBindingNotice, this`pendingSkuBindingResult
      ensures SkuDesk() == Replied(old(SkuDesk()), c, reply)
      ensures reply.None? ==> SkuDesk() == old(SkuDesk()).(busy := false, failed := true)
      ensures reply.Some? ==>
        && Signature(c) !in pendingSkuIdempotency && pendingSkuBindingResult == reply && pendingSkuBindingNotice
        && bindingPendingSku == old(bindingPendingSku) && pendingSkuBindingError == old(pendingSkuBindingError)
    {
      if reply.None? {
        pendingSkuBindingError, bindingPendingSku := true, false;
      } else {
        pendingSkuBindingResult, pendingSkuBindingNotice := reply, true;
        pendingSkuIdempotency := pendingSkuIdempotency - {Signature(c)};
      }
    }

    method SavePendingShipmentDocuments(current: Option<Shipment>, drafts: seq<DocumentDraft>, uuid: Uuid, now: nat)
      returns (sent: Option<Request>)
      modifies this`pendingDocumentIdempotency, this`savingPendingDocuments, this`pendingDocumentSaveError,
               this`pendingDocumentSaveNotice, this`pendingDocumentSaveResult
      ensures current.None? ==> sent.None? && DocumentDesk() == old(DocumentDesk())
      ensures current.Some? ==>
        (DocumentDesk(), sent) == Send(old(DocumentDesk()), Documents(current.value, NormalizeAll(drafts)), uuid, now)
      ensures sent.Some? <==> current.Some? && drafts != []
      ensures sent.Some? ==>
        var c := sent.value.command;
        && c.Documents? && c.shipment == current.value && |c.documents| == |drafts|
        && forall i | 0 <= i < |drafts| :: SaysDraft(drafts[i], c.documents[i])
      ensures sent.Some? ==> Filed(old(pendingDocumentIdempotency), pendingDocumentIdempotency, sent.value, uuid, now)
      ensures sent.Some? ==> DocumentDesk() == Desk(pendingDocumentIdempotency, true, false, false, None)
      ensures current.Some? && drafts == [] ==>
        DocumentDesk() == Desk(old(pendingDocumentIdempotency), old(savingPendingDocuments), false, true, None)
    {
      forall i | 0 <= i < |drafts| ensures SaysDraft(drafts[i], Normalize(drafts[i])) {
        NormalizeSaysDraft(drafts[i]);
      }

      if current.None? { return None; }
      pendingDocumentSaveError, pendingDocumentSaveNotice, pendingDocumentSaveResult := false, false, None;
      if |drafts| == 0 {
        pendingDocumentSaveNotice := true;
        return None;
      }
      savingPendingDocuments := true;
      var c := Documents(current.value, NormalizeAll(drafts));
      var operation := OperationFor(pendingDocumentIdempotency, c, uuid, now);
      pendingDocumentIdempotency := pendingDocumentIdempotency[Signature(c) := operation];
      sent := Some(Request(operation.idempotencyKey, operation.occurredAt, c));
    }

    method OnDocumentReply(c: Command, reply: Option<nat>)
      requires c.Documents?
      modifies this`pendingDocumentIdempotency, this`savingPendingDocuments, this`pendingDocumentSaveError,
               this`pendingDocumentSaveNotice, this`pendingDocumentSaveResult
      ensures DocumentDesk() == Replied(old(DocumentDesk()), c, reply)
      ensures reply.None? ==> DocumentDesk() == old(DocumentDesk()).(busy := false, failed := true)
      ensures reply.Some? ==>
        && Signature(c) !in pendingDocumentIdempotency
        && pendingDocumentSaveResult == reply && pendingDocumentSaveNotice
        && savingPendingDocuments == old(savingPendingDocuments)
        && pendingDocumentSaveError == old(pendingDocumentSaveError)
    {
      if reply.None? {
        pendingDocumentSaveError, savingPendingDocuments := true, false;
      } else {
        pendingDocumentSaveResult, pendingDocumentSaveNotice := reply, true;
        pendingDocumentIdempotency := pendingDocumentIdempotency - {Signature(c)};
      }
    }

    method OnReload(k: Kind)
      modifies this
      ensures View() == old(View()).With(k, Reloaded(old(View()).Of(k)))
      ensures savingPendingCargo == (old(savingPendingCargo) && !k.CargoKind?)
      ensures bindingPendingSku == (old(bindingPendingSku) && !k.SkuKind?)
      ensures savingPendingDocuments == (old(savingPendingDocuments) && !k.DocumentKind?)
    {
      match k
      case CargoKind => savingPendingCargo := false;
      case SkuKind => bindingPendingSku := false;
      case DocumentKind => savingPendingDocuments := false;
    }
  }

  function NormalizeAll(drafts: seq<DocumentDraft>): seq<Document> {
    seq(|drafts|, i requires 0 <= i < |drafts| => Normalize(drafts[i]))
  }
}
