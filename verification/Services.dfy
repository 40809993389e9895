/** The services as they run: entities loaded, assigned and saved in place, messages sent in order.

    Calls to other systems take their outcome as a parameter. Each method is the uninterrupted case of the
    lifecycle's steps; `HandlingIsARun` and `ChargingIsARun` place these cases among the runs. */
module Services {
  import opened Results
  import opened Text
  import opened Packages
  import opened TransactionTables
  import opened Sources
  import opened Validation
  import opened Notifications
  import opened Lifecycle
  import opened CallbackHandling
  import opened ChargeHandling
  import opened Repository
  import opened History

  class SqsService {
    var sent: seq<SqsMessage>

    constructor ()
      ensures sent == []
    {
      sent := [];
    }

    method SendSampleProcessorEvent(msg: SqsMessage, fails: bool) returns (ok: bool)
      modifies this
      ensures ok == !fails
      ensures sent == old(sent) + if ok then [msg] else []
    {
      ok := !fails;
      if ok {
        sent := sent + [msg];
      }
    }
  }

  class NotificationService {
    var pushed: seq<Push>

    constructor ()
      ensures pushed == []
    {
      pushed := [];
    }

    /** Refuses a null payload before it posts anything. */
    method PushNotification(payload: Option<Push>, fails: bool) returns (r: Result<(), PushError>)
      modifies this
      ensures r == if payload.None? then Err(NoTagFound) else if fails then Err(PostFailed) else Ok(())
      ensures pushed == old(pushed) + if r.Ok? then [payload.value] else []
    {
      if payload.None? {
        return Err(NoTagFound);
      }
      if fails {
        return Err(PostFailed);
      }
      pushed := pushed + [payload.value];
      r := Ok(());
    }
  }

  /** What can be thrown while a callback is handled. */
  datatype CallbackError = QueryFailed | RecordFailed | NoCoinCount | SendFailed | NotNotified

  /** An outcome with everything that is due for a status. */
  ghost predicate Whole(status: string, o: Outcome) {
    && o.saved.Some?
    && |o.sent| == (if status == SUCCESSFUL then 1 else 0)
    && |o.pushed| == (if status == SUCCESSFUL || status == FAILED then 1 else 0)
  }

  /** Nothing stands in the way of a callback: no call fails, its row is found and may be saved, and its message can be
      composed. */
  ghost predicate Undisturbed(rows: seq<Row>, charge: Charge, fault: Fault) {
    var found := FindBySource(rows, charge.sourceId);
    && fault == NoFault
    && found.Some? && !SourceTaken(rows, found.value, Some(charge.sourceId)) && Composable(rows[found.value].metadata.terms)
  }

  /** Between `before` and `after` exactly what is due was posted to the user of the charge, about the terms of its row. */
  ghost predicate PostedWhatIsDue(rows: seq<Row>, charge: Charge, status: string, before: seq<Push>, after: seq<Push>)
    requires FindBySource(rows, charge.sourceId).Some?
  {
    var tx := FindBySource(rows, charge.sourceId).value;
    var terms := rows[tx].metadata.terms;
    && before <= after
    && if (status == "successful" || status == "failed") && charge.userRefId != "" then
         && |after| == |before| + 1
         && DueTo(after[|before|], charge.userRefId, tx, status, terms.tokenSymbol, terms.tokenAmount)
       else after == before
  }

  class CallbackService {
    const db: Database
    const sqsService: SqsService
    const notificationService: NotificationService

    constructor (db: Database, sqsService: SqsService, notificationService: NotificationService)
      ensures this.db == db && this.sqsService == sqsService && this.notificationService == notificationService
    {
      this.db, this.sqsService, this.notificationService := db, sqsService, notificationService;
    }

    /** Loads the row of a delivered charge's source, null if there is none. */
    method Load(charge: Charge, fails: bool) returns (r: Result<TransactionStatus?, CallbackError>)
      ensures r.Err? <==> fails
      ensures r.Ok? && r.value == null ==> FindBySource(db.rows, charge.sourceId).None?
      ensures r.Ok? && r.value != null ==>
                && fresh(r.value)
                && r.value.id < |db.rows|
                && FindBySource(db.rows, charge.sourceId) == Some(r.value.id)
                && r.value.ToRow() == db.rows[r.value.id]
                && r.value.transactionLogs == Repository.Loaded(Attached(db.logs, r.value.id))
    {
      if fails {
        return Err(QueryFailed);
      }
      var found := FindBySource(db.rows, charge.sourceId);
      if found.None? {
        return Ok(null);
      }
      var info := new TransactionStatus.Load(found.value, db.rows[found.value], Attached(db.logs, found.value));
      r := Ok(info);
    }

    /** Appends the webhook log, assigns status, provider reference and timestamp, and saves. */
    method Record(info: TransactionStatus, ghost kept: seq<nat>, charge: Charge, status: string, eventKey: string,
                  fails: bool, now: int)
      returns (r: Result<(), CallbackError>)
      requires info.id < |db.rows|
      requires info.transactionLogs == Repository.Loaded(kept)
      modifies db, info
      ensures info.ToRow() == CalledBackRow(old(info.ToRow()), charge, status, now)
      ensures info.transactionLogs == old(info.transactionLogs) + [Unsaved(Log(status, WEBHOOK, eventKey, now, None))]
      ensures
        var saved := Save(old(db.Contents()), info.id, info.ToRow(), kept, Log(status, WEBHOOK, eventKey, now, None));
        && r == (if saved.Ok? && !fails then Ok(()) else Err(RecordFailed))
        && db.Contents() == if r.Ok? then saved.value else old(db.Contents())
    {
      var log := Log(status, WEBHOOK, eventKey, now, None);
      info.transactionLogs := info.transactionLogs + [Unsaved(log)];
      info.status := status;
      info.providerRefId := Some(charge.id);
      info.updatedAt := Some(now);
      if fails {
        return Err(RecordFailed);
      }
      var ok := db.SaveEntity(info, kept, log);
      r := if ok then Ok(()) else Err(RecordFailed);
    }

    /** Sends the credit and the notification due for a status; the first exception ends it. */
    method Announce(msg: SqsMessage, status: string, fault: Fault) returns (r: Result<(), CallbackError>)
      requires status == SUCCESSFUL || status == FAILED
      modifies sqsService, notificationService
      ensures
        var sent := if status == SUCCESSFUL && fault != QueueFails then [msg] else [];
        var pushed := if status == SUCCESSFUL && fault == QueueFails then [] else Notified(status, msg, fault);
        && sqsService.sent == old(sqsService.sent) + sent
        && notificationService.pushed == old(notificationService.pushed) + pushed
        && (r.Ok? <==> pushed != [])
    {
      if status == SUCCESSFUL {
        var ok := sqsService.SendSampleProcessorEvent(msg, fault == QueueFails);
        if !ok {
          return Err(SendFailed);
        }
      }
      var payload := BuildNotificationPayload(status, msg);
      if payload.Err? {
        return Err(NotNotified);
      }
      var done := notificationService.PushNotification(payload.value, fault == PushFails);
      r := if done.Err? then Err(NotNotified) else Ok(());
    }

    /** The work on a callback, ended by the first exception. It returns normally only when it has found no row or done all
        that is due; what it throws has left something undone, or is the failed derivation of a message. */
    method Process(charge: Charge, status: string, eventKey: string, now: int, fault: Fault)
      returns (r: Result<(), CallbackError>)
      modifies db, sqsService, notificationService
      ensures
        var o := HandleCallback(old(db.Contents()), charge, status, eventKey, now, fault);
        && db.Contents() == o.db
        && sqsService.sent == old(sqsService.sent) + o.sent
        && notificationService.pushed == old(notificationService.pushed) + o.pushed
        && (r.Ok? ==> FindBySource(old(db.rows), charge.sourceId).None? || Whole(status, o))
        && (r.Err? && Whole(status, o) ==> r == Err(NoCoinCount))
      ensures Undisturbed(old(db.rows), charge, fault) ==>
        (r.Ok? <==> (status == "successful" || status == "failed" ==> charge.userRefId != ""))
    {
      ghost var rows := db.rows;
      if Undisturbed(rows, charge, fault) {
        UndisturbedOutcome(db.Contents(), charge, status, eventKey, now, FindBySource(rows, charge.sourceId).value);
      }
      var loaded := Load(charge, fault == ReadFails);
      if loaded.Err? {
        return Err(loaded.error);
      }
      var info := loaded.value;
      if info == null {
        return Ok(());
      }
      var saved := Record(info, Attached(db.logs, info.id), charge, status, eventKey, fault == SaveFails, now);
      if saved.Err? {
        return saved;
      }
      var composed := Compose(info.id, info.productId, info.metadata.terms, charge.userRefId, charge.id);
      if composed.Err? {
        return Err(NoCoinCount);
      }
      if status == SUCCESSFUL || status == FAILED {
        r := Announce(composed.value, status, fault);
      } else {
        r := Ok(());
      }
    }

    /** Whatever is thrown is dropped and the method returns normally; tables, credits and notifications are those of
        `HandleCallback`. */
    method CreateTransactionLog(charge: Charge, status: string, eventKey: string, now: int, fault: Fault)
      modifies db, sqsService, notificationService
      ensures
        var o := HandleCallback(old(db.Contents()), charge, status, eventKey, now, fault);
        && db.Contents() == o.db
        && sqsService.sent == old(sqsService.sent) + o.sent
        && notificationService.pushed == old(notificationService.pushed) + o.pushed
      ensures Undisturbed(old(db.rows), charge, fault) ==>
        && |sqsService.sent| == |old(sqsService.sent)| + (if status == "successful" then 1 else 0)
        && PostedWhatIsDue(old(db.rows), charge, status, old(notificationService.pushed), notificationService.pushed)
    {
      ghost var rows := db.rows;
      if Undisturbed(rows, charge, fault) {
        UndisturbedOutcome(db.Contents(), charge, status, eventKey, now, FindBySource(rows, charge.sourceId).value);
      }
      var thrown := Process(charge, status, eventKey, now, fault);
    }
  }

  class CallbackController {
    const callbackService: CallbackService
    const version: string

    constructor (callbackService: CallbackService, version: string)
      ensures this.callbackService == callbackService && this.version == version
    {
      this.callbackService, this.version := callbackService, version;
    }

    /** A body that is not a charge is acknowledged and ignored; a charge is validated before anything is written, and
        only validation errors reach the provider. `charge` is the provider's charge with the delivered id. */
    method HandleOmiseCallBack(isCharge: bool, charge: Charge, status: string, eventKey: Option<string>, agent: Option<string>,
                               found: bool, now: int, fault: Fault)
      returns (r: Result<bool, ValidationError>)
      modifies callbackService.db, callbackService.sqsService, callbackService.notificationService
      ensures
        var valid := ValidateChargeEvent(Some(charge.id), agent, eventKey, version, found);
        var o := if isCharge && valid.Ok? then
                   HandleCallback(old(callbackService.db.Contents()), charge, status, eventKey.value, now, fault)
                 else Outcome(old(callbackService.db.Contents()), None, [], []);
        && r == (if isCharge && valid.Err? then Err(valid.error) else Ok(true))
        && callbackService.db.Contents() == o.db
        && callbackService.sqsService.sent == old(callbackService.sqsService.sent) + o.sent
        && callbackService.notificationService.pushed == old(callbackService.notificationService.pushed) + o.pushed
    {
      if isCharge {
        var valid := ValidateChargeEvent(Some(charge.id), agent, eventKey, version, found);
        if valid.Err? {
          return Err(valid.error);
        }
        callbackService.CreateTransactionLog(charge, status, eventKey.value, now, fault);
      }
      r := Ok(true);
    }
  }

  datatype PaymentError = InvalidProduct | InsertFailed

  class PaymentService {
    const db: Database

    constructor (db: Database)
      ensures this.db == db
    {
      this.db := db;
    }

    /** Inserts a pending row holding the package's terms; the catalogue's failure and the repository's are the client's
        errors. */
    method CreatePaymentTransaction(userRefId: string, productId: int, paymentType: string, package: Option<Package>,
                                    insertFails: bool, now: int)
      returns (r: Result<nat, PaymentError>)
      modifies db
      ensures match package
              case None => r == Err(InvalidProduct) && db.Contents() == old(db.Contents())
              case Some(p) =>
                if insertFails then r == Err(InsertFailed) && db.Contents() == old(db.Contents())
                else
                  && r == Ok(old(|db.rows|))
                  && db.Contents() == Insert(old(db.Contents()), NewRow(Origin(userRefId, productId, paymentType, p, now)))
    {
      if package.None? {
        return Err(InvalidProduct);
      }
      var p := package.value;
      var tokenBonus := OrZero(p.bonus);
      var paymentBonus := FirstBonus(p.paymentBonus, paymentType);
      tokenBonus := tokenBonus + BonusAmount(paymentBonus);
      var amount := OrZero(p.price) * 100;
      var terms := Terms(p.tokenName, p.tokenSymbol, p.noOfCoins, tokenBonus,
                         if p.currency.Some? then p.currency.value else "", OrZero(p.price));
      if insertFails {
        return Err(InsertFailed);
      }
      var id := db.InsertRow(Row(paymentType, OMISE, userRefId, amount, "THB", ToText(productId), now,
                                 None, None, PENDING, Metadata(terms, None, None), None));
      r := Ok(id);
    }

    /** Saves source, provider reference, metadata and one API log; all other columns keep their stored value. */
    method SaveTransactionStatus(txId: nat, source: string, providerRefId: string, metadata: Metadata, fails: bool, now: int)
      returns (ok: bool)
      requires txId < |db.rows|
      modifies db
      ensures
        var row := old(db.rows)[txId].(source := Some(source), providerRefId := Some(providerRefId), metadata := metadata);
        var saved := Save(old(db.Contents()), txId, row, [], ApiLog(now));
        && ok == (saved.Ok? && !fails)
        && db.Contents() == if ok then saved.value else old(db.Contents())
    {
      if fails {
        return false;
      }
      var stored := db.rows[txId];
      var log := Log(PENDING, API, CHARGE_CREATE, now, None);
      ok := db.SaveRow(txId, stored.(source := Some(source), providerRefId := Some(providerRefId), metadata := metadata), [], log);
    }

    method Charge(txId: nat, source: string, retrieved: Option<string>, reply: Option<Reply>, saveFails: bool, now: int)
      returns (r: Result<ChargeResponse, ChargeError>)
      modifies db
      ensures
        var o := HandleCharge(old(db.Contents()), txId, source, retrieved, reply, saveFails, now);
        db.Contents() == o.db && r == o.result
    {
      var paymentType := FindPaymentType(source, retrieved);
      if paymentType.None? || paymentType.value !in PAYMENT_TYPES {
        return Err(InvalidPaymentType);
      }
      if txId >= |db.rows| {
        return Err(TransactionNotFound);
      }
      var chargingTransaction := db.rows[txId];
      if reply.None? {
        return Err(ProviderFailed);
      }
      var chargeResult := reply.value;
      var ok := SaveTransactionStatus(txId, source, chargeResult.id,
        chargingTransaction.metadata.(qrCode := chargeResult.qrCode, card := chargeResult.card), saveFails, now);
      if !ok {
        return Err(SaveFailed);
      }
      r := Ok(ChargeResponse(chargeResult.status, txId, source, chargeResult.id,
                             chargeResult.image, chargeResult.authorizeUri, chargeResult.returnUri));
    }

    /** One window of the user's history, newest first; the defaults are the first ten. */
    method FindTransactionsByUserRefId(userRefId: string, offset: nat := 0, limit: nat := 10) returns (page: seq<Row>)
      ensures var all := HistoryIds(db.rows, userRefId);
              && |page| == (if offset + limit <= |all| then limit else if offset <= |all| then |all| - offset else 0)
              && forall i :: 0 <= i < |page| ==> all[offset + i] < |db.rows| && page[i] == db.rows[all[offset + i]]
      ensures forall i :: 0 <= i < |page| ==> page[i].userRefId == userRefId && page[i].status != "pending"
      ensures forall i, j :: 0 <= i < j < |page| ==> page[i].createdAt >= page[j].createdAt
    {
      var rows := db.rows;
      var ids := HistoryPage(rows, userRefId, offset, limit);
      WindowOfHistory(rows, userRefId, offset, limit);
      page := seq(|ids|, i requires 0 <= i < |ids| => rows[ids[i]]);
    }
  }
}
