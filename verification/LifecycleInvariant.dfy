/** The invariant of the lifecycle and its preservation by every step.

    A loaded row and log list may be stale, so everything required of them is stated against the
    parts of the state that only grow: the origins, the provider's charges and the ledger. What holds of a
    snapshot when it is taken then still holds when it is written back. */
module LifecycleInvariant {
  import opened Results
  import opened Text
  import opened Packages
  import opened TransactionTables
  import opened Sources
  import opened Validation
  import opened Counting
  import opened Lifecycle

  /* ---------- predicates over the growing parts ---------- */

  /** The columns fixed at pay time are those of the origin. */
  ghost predicate FixedBy(o: Origin, row: Row) {
    && row.paymentType == o.paymentType
    && row.provider == OMISE
    && row.userRefId == o.userRefId
    && row.amount == ChargeAmount(o.package)
    && row.currency == "THB"
    && row.productId == ToText(o.productId)
    && row.createdAt == o.createdAt
    && row.metadata.terms == TermsOf(o.package, o.paymentType)
  }

  ghost predicate ChargeOk(origins: seq<Origin>, c: Charge) {
    && c.txId < |origins|
    && c.amount == ChargeAmount(origins[c.txId].package)
    && c.currency == "THB"
    && c.userRefId == origins[c.txId].userRefId
    && c.id != ""
    && RecognisedSource(c.sourceId)
  }

  ghost predicate DistinctCharges(charges: seq<Charge>) {
    forall j, k :: 0 <= j < k < |charges| ==>
      charges[j].id != charges[k].id && charges[j].sourceId != charges[k].sourceId
  }

  ghost predicate EntryOk(charges: seq<Charge>, e: Entry) {
    && e.charge < |charges|
    && charges[e.charge].txId == e.tx
    && ((e.channel == API && e.status == PENDING && e.eventKey == CHARGE_CREATE)
        || (e.channel == WEBHOOK && IsChargeEvent(e.eventKey)))
  }

  /** Source, provider reference, code, card and all logs come from charge `k` of this transaction; the API log is first. */
  ghost predicate AboutCharge(charges: seq<Charge>, ledger: seq<Entry>, tx: nat, row: Row, ids: seq<nat>, k: nat) {
    && k < |charges|
    && charges[k].txId == tx
    && row.source == Some(charges[k].sourceId)
    && row.providerRefId == Some(charges[k].id)
    && row.metadata.qrCode == charges[k].qrCode
    && row.metadata.card == charges[k].card
    && forall j :: 0 <= j < |ids| ==>
         && ids[j] < |ledger|
         && ledger[ids[j]].tx == tx
         && ledger[ids[j]].charge == k
         && ledger[ids[j]].channel == if j == 0 then API else WEBHOOK
  }

  ghost predicate Coherent(charges: seq<Charge>, ledger: seq<Entry>, tx: nat, row: Row, ids: seq<nat>) {
    && Increasing(ids)
    && if ids == [] then
         row.source.None? && row.providerRefId.None? && row.metadata.qrCode.None? && row.metadata.card.None?
       else ids[0] < |ledger| && AboutCharge(charges, ledger, tx, row, ids, ledger[ids[0]].charge)
  }

  ghost predicate LogsMatch(logs: seq<Log>, ledger: seq<Entry>) {
    && |logs| == |ledger|
    && forall i :: 0 <= i < |logs| ==>
         && logs[i].status == ledger[i].status
         && logs[i].channel == ledger[i].channel
         && logs[i].eventKey == ledger[i].eventKey
         && (logs[i].link.Some? ==> logs[i].link.value == ledger[i].tx)
  }

  ghost predicate CallOk(charges: seq<Charge>, call: Call) {
    call.charge < |charges| && IsChargeEvent(call.eventKey)
  }

  /** The call belongs to this transaction and its log has been written. */
  ghost predicate CallSaved(charges: seq<Charge>, ledger: seq<Entry>, call: Call, tx: nat) {
    && CallOk(charges, call)
    && charges[call.charge].txId == tx
    && Entry(tx, call.charge, WEBHOOK, call.status, call.eventKey) in ledger
  }

  /** The message is the one composed from the origin of the charge's transaction. */
  ghost predicate MessageOf(origins: seq<Origin>, charge: Charge, tx: nat, msg: SqsMessage) {
    && tx == charge.txId < |origins|
    && var o := origins[tx];
       Compose(tx, ToText(o.productId), TermsOf(o.package, o.paymentType), o.userRefId, charge.id) == Ok(msg)
  }

  ghost predicate FlightOk(origins: seq<Origin>, charges: seq<Charge>, ledger: seq<Entry>, fl: Flight) {
    match fl
    case Charging(tx, sourceId, row) =>
      tx < |origins| && FixedBy(origins[tx], row) && RecognisedSource(sourceId)
    case Opened(tx, row, k) =>
      tx < |origins| && FixedBy(origins[tx], row) && k < |charges| && charges[k].txId == tx
    case ChargeEnded => true
    case Received(call) => CallOk(charges, call)
    case Ignored(call) => CallOk(charges, call)
    case Loaded(call, tx, row, ids) =>
      && CallOk(charges, call)
      && tx < |origins| && FixedBy(origins[tx], row)
      && charges[call.charge].txId == tx
      && row.source == Some(charges[call.charge].sourceId)
      && Coherent(charges, ledger, tx, row, ids)
    case Crediting(call, tx, msg) =>
      && CallSaved(charges, ledger, call, tx) && call.status == SUCCESSFUL
      && MessageOf(origins, charges[call.charge], tx, msg)
    case Notifying(call, tx, msg) =>
      && CallSaved(charges, ledger, call, tx) && (call.status == SUCCESSFUL || call.status == FAILED)
      && MessageOf(origins, charges[call.charge], tx, msg)
    case Uncredited(call, tx) => CallSaved(charges, ledger, call, tx) && call.status == SUCCESSFUL
    case Unnotified(call, tx) =>
      CallSaved(charges, ledger, call, tx) && (call.status == SUCCESSFUL || call.status == FAILED)
    case Completed(call, tx) => CallSaved(charges, ledger, call, tx)
  }

  ghost predicate HookEntry(entry: Entry, tx: nat, status: string) {
    entry.tx == tx && entry.channel == WEBHOOK && entry.status == status
  }

  /** The coins a notification names: the package's own, without any bonus. */
  function CoinsText(p: Package): string {
    ToText(OrZero(p.noOfCoins))
  }

  ghost predicate EffectOk(origins: seq<Origin>, charges: seq<Charge>, ledger: seq<Entry>, e: Effect) {
    match e.deed
    case Saved(status) =>
      exists i :: 0 <= i < |ledger| && HookEntry(ledger[i], e.tx, status)
    case Sent(msg) =>
      exists i :: 0 <= i < |ledger| && CreditedBy(origins, charges, ledger[i], e.tx, msg)
    case Pushed(push) =>
      && e.tx < |origins|
      && push.transactionId == e.tx
      && push.userRef == origins[e.tx].userRefId != ""
      && push.coinName == origins[e.tx].package.tokenSymbol
      && push.coinValue == CoinsText(origins[e.tx].package)
      && (push.status == SUCCESSFUL || push.status == FAILED)
      && exists i :: 0 <= i < |ledger| && HookEntry(ledger[i], e.tx, push.status)
  }

  /** A successful webhook log of the transaction, for the charge the message is about. */
  ghost predicate CreditedBy(origins: seq<Origin>, charges: seq<Charge>, entry: Entry, tx: nat, msg: SqsMessage) {
    && entry.tx == tx && entry.channel == WEBHOOK && entry.status == SUCCESSFUL
    && entry.charge < |charges|
    && MessageOf(origins, charges[entry.charge], tx, msg)
  }

  /* ---------- the invariant, part by part ---------- */

  ghost predicate History(s: State) {
    && |s.origins| == |s.db.rows|
    && LogsMatch(s.db.logs, s.ledger)
    && DistinctCharges(s.charges)
    && (forall k :: 0 <= k < |s.charges| ==> ChargeOk(s.origins, s.charges[k]))
    && (forall i :: 0 <= i < |s.ledger| ==> EntryOk(s.charges, s.ledger[i]))
  }

  ghost predicate RowsCoherent(s: State) {
    forall tx :: 0 <= tx < |s.db.rows| ==> RowCoherent(s, tx)
  }

  ghost predicate RowCoherent(s: State, tx: nat)
    requires tx < |s.db.rows|
  {
    && tx < |s.origins|
    && FixedBy(s.origins[tx], s.db.rows[tx])
    && Coherent(s.charges, s.ledger, tx, s.db.rows[tx], Attached(s.db.logs, tx))
  }

  ghost predicate StatusesRecorded(s: State) {
    forall tx :: 0 <= tx < |s.db.rows| ==> StatusRecorded(s, tx)
  }

  ghost predicate StatusRecorded(s: State, tx: nat)
    requires tx < |s.db.rows|
  {
    && s.db.rows[tx].status == LastStatus(s.ledger, tx)
    && (s.db.rows[tx].updatedAt.Some? <==> CalledBack(s.ledger, tx))
    && var ids := Attached(s.db.logs, tx);
       |ids| > 1 ==> s.db.rows[tx].status == s.db.logs[ids[|ids| - 1]].status
  }

  ghost predicate FlightsOk(s: State) {
    forall f :: 0 <= f < |s.flights| ==> FlightOk(s.origins, s.charges, s.ledger, s.flights[f])
  }

  ghost predicate TraceOk(s: State) {
    forall i :: 0 <= i < |s.trace| ==> EffectOk(s.origins, s.charges, s.ledger, s.trace[i])
  }

  /** How far along its plan a flight is. */
  ghost function Progress(fl: Flight): seq<Stage> {
    match fl
    case Crediting(_, _, _) => [ToSave]
    case Uncredited(_, _) => [ToSave]
    case Notifying(call, _, _) => if call.status == SUCCESSFUL then [ToSave, ToCredit] else [ToSave]
    case Unnotified(call, _) => if call.status == SUCCESSFUL then [ToSave, ToCredit] else [ToSave]
    case Completed(call, _) => Plan(call.status)
    case _ => []
  }

  ghost predicate StagesOk(s: State) {
    && (forall f :: 0 <= f < |s.flights| ==> StagesOf(s.trace, f) == Progress(s.flights[f]))
    && (forall i :: 0 <= i < |s.trace| ==> s.trace[i].flight < |s.flights|)
  }

  /** Conservation: nothing successful disappears between the log, the credit and the notification. */
  ghost predicate Balanced(s: State, tx: nat) {
    && SuccessfulLogs(s, tx) == Credits(s, tx) + Count(s.flights, AwaitsCredit(tx))
    && Credits(s, tx) == SuccessPushes(s, tx) + Count(s.flights, AwaitsPush(tx))
  }

  ghost predicate AllBalanced(s: State) {
    forall tx: nat :: Balanced(s, tx)
  }

  ghost predicate Inv(s: State) {
    && History(s)
    && RowsCoherent(s)
    && StatusesRecorded(s)
    && FlightsOk(s)
    && TraceOk(s)
    && StagesOk(s)
    && AllBalanced(s)
  }

  /* ---------- growth ---------- */

  ghost predicate Grows(s: State, t: State) {
    s.origins <= t.origins && s.charges <= t.charges && s.ledger <= t.ledger
  }

  lemma CoherentGrows(s: State, t: State, tx: nat, row: Row, ids: seq<nat>)
    requires Grows(s, t) && Coherent(s.charges, s.ledger, tx, row, ids)
    ensures Coherent(t.charges, t.ledger, tx, row, ids)
  {
  }

  /** Growth keeps every flight and effect in order; only changed flights and new effects remain to be checked. */
  lemma GrowthKeeps(s: State, t: State)
    requires Grows(s, t) && FlightsOk(s) && TraceOk(s)
    ensures forall f :: 0 <= f < |s.flights| ==> FlightOk(t.origins, t.charges, t.ledger, s.flights[f])
    ensures forall i :: 0 <= i < |s.trace| ==> EffectOk(t.origins, t.charges, t.ledger, s.trace[i])
  {
  }

  /* ---------- the tables ---------- */

  /** In the presence of single-use sources a charge's source can only ever sit on the charge's own row. */
  lemma SourceSitsOnItsRow(s: State, k: nat, tx: nat)
    requires History(s) && RowsCoherent(s)
    requires k < |s.charges| && tx < |s.db.rows| && s.db.rows[tx].source == Some(s.charges[k].sourceId)
    ensures s.charges[k].txId == tx
    ensures Attached(s.db.logs, tx) != [] && s.ledger[Attached(s.db.logs, tx)[0]].charge == k
  {
    assert RowCoherent(s, tx);
    var k' := s.ledger[Attached(s.db.logs, tx)[0]].charge;
    assert s.charges[k'].sourceId == s.charges[k].sourceId;
    assert !(k < k') && !(k' < k);
  }

  /** So the unique index never refuses the save of a charge's source on the charge's row. */
  lemma NoSourceConflict(s: State, k: nat)
    requires History(s) && RowsCoherent(s) && k < |s.charges|
    ensures !SourceTaken(s.db.rows, s.charges[k].txId, Some(s.charges[k].sourceId))
  {
    var source := Some(s.charges[k].sourceId);
    forall i | 0 <= i < |s.db.rows| && s.db.rows[i].source == source ensures i == s.charges[k].txId {
      SourceSitsOnItsRow(s, k, i);
    }
  }

  lemma LastStatusSnoc(ledger: seq<Entry>, e: Entry, tx: nat)
    ensures LastStatus(ledger + [e], tx)
      == if e.tx == tx && e.channel == WEBHOOK then e.status else LastStatus(ledger, tx)
    ensures CalledBack(ledger + [e], tx) <==> CalledBack(ledger, tx) || (e.tx == tx && e.channel == WEBHOOK)
  {
  }

  /** One save by either service: `entry` describes the log it adds. */
  ghost predicate SavedInto(s: State, t: State, tx: nat, row: Row, kept: seq<nat>, added: Log, entry: Entry) {
    && tx < |s.db.rows|
    && entry.tx == tx
    && added.status == entry.status && added.channel == entry.channel && added.eventKey == entry.eventKey
    && Save(s.db, tx, row, kept, added) == Ok(t.db)
    && t.ledger == s.ledger + [entry]
    && t.charges == s.charges && t.origins == s.origins
  }

  lemma SaveKeepsHistory(s: State, t: State, tx: nat, row: Row, kept: seq<nat>, added: Log, entry: Entry)
    requires History(s) && SavedInto(s, t, tx, row, kept, added, entry)
    requires EntryOk(s.charges, entry)
    requires forall i :: i in kept ==> i < |s.ledger| && s.ledger[i].tx == tx
    ensures History(t)
  {
  }

  lemma SaveKeepsRows(s: State, t: State, tx: nat, row: Row, kept: seq<nat>, added: Log, entry: Entry)
    requires History(s) && RowsCoherent(s) && SavedInto(s, t, tx, row, kept, added, entry)
    requires forall i :: i in kept ==> i < |s.ledger| && s.ledger[i].tx == tx
    requires Increasing(kept)
    requires FixedBy(s.origins[tx], row)
    requires AboutCharge(s.charges, t.ledger, tx, row, kept + [|s.ledger|], entry.charge)
    ensures Attached(t.db.logs, tx) == kept + [|s.ledger|]
    ensures forall i :: 0 <= i < |s.db.rows| && i != tx ==> Attached(t.db.logs, i) == Attached(s.db.logs, i)
    ensures RowsCoherent(t)
  {
    SaveAttaches(s.db, tx, row, kept, added);
    forall i | 0 <= i < |s.db.rows| && i != tx
      ensures Attached(t.db.logs, i) == Attached(s.db.logs, i) && RowCoherent(t, i)
    {
      SaveKeepsOthers(s.db, tx, row, kept, added, i);
      assert RowCoherent(s, i);
      CoherentGrows(s, t, i, s.db.rows[i], Attached(s.db.logs, i));
    }
    AttachedAreTheLinked(t.db.logs, tx);
    var ids := kept + [|s.ledger|];
    assert t.ledger[ids[0]].charge == entry.charge;
    assert RowCoherent(t, tx);
  }

  lemma StatusOfSaved(s: State, t: State, tx: nat, row: Row, kept: seq<nat>, added: Log, entry: Entry)
    requires |s.ledger| == |s.db.logs| && SavedInto(s, t, tx, row, kept, added, entry) && StatusRecorded(s, tx)
    requires Attached(t.db.logs, tx) == kept + [|s.ledger|]
    requires SetsStatus(s.db.rows[tx], row, kept, entry)
    ensures StatusRecorded(t, tx)
  {
  }

  lemma StatusOfOther(s: State, t: State, tx: nat, row: Row, kept: seq<nat>, added: Log, entry: Entry, other: nat)
    requires |s.ledger| == |s.db.logs| && SavedInto(s, t, tx, row, kept, added, entry)
    requires other < |s.db.rows| && other != tx && StatusRecorded(s, other)
    requires Attached(t.db.logs, other) == Attached(s.db.logs, other)
    ensures StatusRecorded(t, other)
  {
  }

  /** A callback's save sets status and timestamp; a charge's save leaves both and detaches every log. */
  ghost predicate SetsStatus(stored: Row, row: Row, kept: seq<nat>, entry: Entry) {
    if entry.channel == WEBHOOK then row.status == entry.status && row.updatedAt.Some?
    else kept == [] && row.status == stored.status && row.updatedAt == stored.updatedAt
  }

  lemma SaveKeepsStatuses(s: State, t: State, tx: nat, row: Row, kept: seq<nat>, added: Log, entry: Entry)
    requires |s.ledger| == |s.db.logs| && StatusesRecorded(s) && SavedInto(s, t, tx, row, kept, added, entry)
    requires Attached(t.db.logs, tx) == kept + [|s.ledger|]
    requires forall i :: 0 <= i < |s.db.rows| && i != tx ==> Attached(t.db.logs, i) == Attached(s.db.logs, i)
    requires SetsStatus(s.db.rows[tx], row, kept, entry)
    ensures StatusesRecorded(t)
  {
    forall i | 0 <= i < |t.db.rows| ensures StatusRecorded(t, i) {
      assert StatusRecorded(s, i);
      if i == tx {
        StatusOfSaved(s, t, tx, row, kept, added, entry);
      } else {
        StatusOfOther(s, t, tx, row, kept, added, entry, i);
      }
    }
  }
}
