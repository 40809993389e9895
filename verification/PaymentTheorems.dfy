/** The whole path of a payment, from any reachable state: pay, charge, successful callback. */
module PaymentTheorems {
  import opened Results
  import opened Text
  import opened Packages
  import opened TransactionTables
  import opened Sources
  import opened Validation
  import opened Counting
  import opened Lifecycle
  import opened LifecycleInvariant
  import opened LifecycleSteps
  import opened CallbackHandling
  import opened CallbackTheorems
  import opened ChargeHandling

  /** A transaction that has just been created. */
  ghost predicate JustPaid(s: State, tx: nat, o: Origin) {
    && Inv(s)
    && tx < |s.db.rows| == |s.origins| && s.origins[tx] == o
    && Credits(s, tx) == 0 && CoinsSent(s.trace, tx) == 0
  }

  lemma PayCreates(s: State, o: Origin)
    requires Inv(s)
    ensures JustPaid(DoPay(s, o), |s.db.rows|, o)
  {
    PayKeepsInv(s, o);
    NothingSent(s, |s.db.rows|);
  }

  /** Nothing has been credited to an id no row has. */
  lemma NothingSent(s: State, tx: nat)
    requires History(s) && TraceOk(s) && tx >= |s.db.rows|
    ensures Credits(s, tx) == 0 && CoinsSent(s.trace, tx) == 0
  {
    forall i | 0 <= i < |s.trace| ensures !(s.trace[i].tx == tx && s.trace[i].deed.Sent?) {
      assert EffectOk(s.origins, s.charges, s.ledger, s.trace[i]);
    }
    NoCredit(s.trace, tx);
  }

  lemma {:induction false} NoCredit(trace: seq<Effect>, tx: nat)
    requires forall i :: 0 <= i < |trace| ==> !(trace[i].tx == tx && trace[i].deed.Sent?)
    ensures Count(trace, CreditEffect(tx)) == 0 && CoinsSent(trace, tx) == 0
  {
    if trace != [] {
      NoCredit(trace[..|trace| - 1], tx);
    }
  }

  /** An id that no charge has and a source that no charge was made for. */
  ghost predicate Unused(charges: seq<Charge>, id: string, sourceId: string) {
    id != "" && !exists k :: 0 <= k < |charges| && (charges[k].id == id || charges[k].sourceId == sourceId)
  }

  /** A source the provider has not charged is on no row. */
  lemma FreshSourceIsFree(s: State, tx: nat, id: string, sourceId: string)
    requires Inv(s) && ProviderAccepts(s.charges, id, sourceId)
    ensures !SourceTaken(s.db.rows, tx, Some(sourceId))
  {
    forall i | 0 <= i < |s.db.rows| ensures s.db.rows[i].source != Some(sourceId) {
      assert RowCoherent(s, i);
    }
  }

  /** What a successful uninterrupted charge of transaction `tx` leaves. */
  ghost predicate JustCharged(s: State, t: State, tx: nat, sourceId: string, reply: Reply) {
    && tx < |s.db.rows| && tx < |t.db.rows|
    && t.charges == s.charges + [ChargeFor(tx, s.db.rows[tx], reply.id, sourceId, reply.qrCode, reply.card)]
    && t.trace == s.trace && t.version == s.version && s.origins <= t.origins
    && t.db.rows[tx].source == Some(sourceId) && t.db.rows[tx].providerRefId == Some(reply.id)
    && t.db.rows[tx].status == s.db.rows[tx].status
    && t.db.rows[tx].metadata.qrCode == reply.qrCode && t.db.rows[tx].metadata.card == reply.card
    && t.db.rows[tx].metadata.terms == s.db.rows[tx].metadata.terms
    && t.db.rows[tx].updatedAt == s.db.rows[tx].updatedAt
    && Attached(t.db.logs, tx) == [|s.db.logs|]
  }

  /** The answer to a successful charge: every field is the provider's, the transaction's or the request's own. */
  ghost predicate Tells(r: Result<ChargeResponse, ChargeError>, tx: nat, sourceId: string, reply: Reply) {
    && r.Ok?
    && r.value.status == reply.status
    && r.value.id == tx
    && r.value.source == sourceId
    && r.value.providerRefId == reply.id
    && r.value.image == reply.image
    && r.value.authorizeUri == reply.authorizeUri
    && r.value.returnUri == reply.returnUri
  }

  /** The tables and the answer of a charge whose source is free. */
  lemma FreeSourceIsSaved(db: Tables, tx: nat, sourceId: string, retrieved: Option<string>, reply: Reply, now: int)
    requires tx < |db.rows| && Chargeable(sourceId, retrieved) && !SourceTaken(db.rows, tx, Some(sourceId))
    ensures
      var o := HandleCharge(db, tx, sourceId, retrieved, Some(reply), false, now);
      var row := o.db.rows[tx];
      && |o.db.rows| == |db.rows| && |o.db.logs| == |db.logs| + 1
      && (forall i :: 0 <= i < |db.rows| && i != tx ==> o.db.rows[i] == db.rows[i])
      && o.db.logs[|db.logs|] == Log("pending", "api", "charge.create", now, Some(tx))
      && Tells(o.result, tx, sourceId, reply)
      && o.charged == Some(ChargeFor(tx, db.rows[tx], reply.id, sourceId, reply.qrCode, reply.card))
      && row.source == Some(sourceId) && row.providerRefId == Some(reply.id) && row.status == db.rows[tx].status
      && row.metadata.qrCode == reply.qrCode && row.metadata.card == reply.card
      && row.metadata.terms == db.rows[tx].metadata.terms && row.updatedAt == db.rows[tx].updatedAt
      && row == db.rows[tx].(source := row.source, providerRefId := row.providerRefId, metadata := row.metadata)
      && Attached(o.db.logs, tx) == [|db.logs|]
  {
    var charge := ChargeFor(tx, db.rows[tx], reply.id, sourceId, reply.qrCode, reply.card);
    SaveAttaches(db, tx, ChargedRow(db.rows[tx], db.rows[tx], charge), [], ApiLog(now));
  }

  /** A fresh supported source is always charged and saved, and the client is told so. */
  lemma ChargeSucceeds(s: State, tx: nat, sourceId: string, retrieved: Option<string>, reply: Reply, now: int)
    requires Inv(s) && tx < |s.db.rows|
    requires TokenOrSupported(sourceId, retrieved) && Unused(s.charges, reply.id, sourceId)
    ensures
      var t := Exec(s, ChargeActions(|s.flights|, tx, sourceId, retrieved, Some(reply), false, now));
      var o := HandleCharge(s.db, tx, sourceId, retrieved, Some(reply), false, now);
      && Inv(t) && JustCharged(s, t, tx, sourceId, reply) && t.db == o.db
      && Tells(o.result, tx, sourceId, reply)
  {
    var acts := ChargeActions(|s.flights|, tx, sourceId, retrieved, Some(reply), false, now);
    ChargeableExactly(sourceId, retrieved);
    FreshSourceIsFree(s, tx, reply.id, sourceId);
    FreeSourceIsSaved(s.db, tx, sourceId, retrieved, reply, now);
    ChargingIsARun(s, tx, sourceId, retrieved, Some(reply), false, now);
    RunKeepsInv(s, acts);
    VersionKept(s, acts);
    OriginsStay(s, acts);
  }

  /** How a charge of any database ends: which error it answers, exactly, and that only an answer without error changes the
      tables. */
  lemma ChargeEnds(
    db: Tables, tx: nat, sourceId: string, retrieved: Option<string>, reply: Option<Reply>, saveFails: bool, now: int)
    ensures
      var o := HandleCharge(db, tx, sourceId, retrieved, reply, saveFails, now);
      var supported := TokenOrSupported(sourceId, retrieved);
      var stored := forall i :: 0 <= i < |db.rows| && i != tx ==> db.rows[i].source != Some(sourceId);
      && (o.result == Err(InvalidPaymentType) <==> !supported)
      && (o.result == Err(TransactionNotFound) <==> supported && tx >= |db.rows|)
      && (o.result == Err(ProviderFailed) <==> supported && tx < |db.rows| && reply.None?)
      && (o.result == Err(SaveFailed) <==> supported && tx < |db.rows| && reply.Some? && (saveFails || !stored))
      && (o.result.Ok? ==> Tells(o.result, tx, sourceId, reply.value))
      && (o.result.Err? ==> o.db == db)
      && (o.charged.Some? <==> o.result.Ok? || o.result == Err(SaveFailed))
  {
    ChargeableExactly(sourceId, retrieved);
  }

  lemma ChargedIsDeliverable(s: State, t: State, tx: nat, sourceId: string, reply: Reply, agent: string, eventKey: string)
    requires Inv(t) && JustCharged(s, t, tx, sourceId, reply)
    requires ToLower(agent) == OMISE + "/" + s.version && IsChargeEvent(eventKey)
    ensures Deliverable(t, |s.charges|, agent, eventKey) && t.charges[|s.charges|].txId == tx
  {
    SourceStays(t, |s.charges|, tx);
  }

  /** From any reachable state, a package that can be announced is paid for, charged with a supported fresh source and
      called back as successful, each without disturbance: the row ends up successful with one API and one webhook log,
      and exactly the coins the package owes have been credited, once. */
  lemma PaymentEndsInCredit(s: State, o: Origin, sourceId: string, retrieved: Option<string>, reply: Reply,
                            agent: string, eventKey: string, now: int)
    requires Inv(s) && Announceable(o)
    requires TokenOrSupported(sourceId, retrieved) && Unused(s.charges, reply.id, sourceId)
    requires ToLower(agent) == OMISE + "/" + s.version && IsChargeEvent(eventKey)
    ensures
      var tx := |s.db.rows|;
      var paid := Apply(s, Pay(o.userRefId, o.productId, o.paymentType, Some(o.package), o.createdAt));
      var charged := Exec(paid, ChargeActions(|paid.flights|, tx, sourceId, retrieved, Some(reply), false, now));
      var t := Redelivered(charged, |s.charges|, SUCCESSFUL, agent, eventKey, now);
      && tx < |t.db.rows| && t.db.rows[tx].status == SUCCESSFUL
      && |Attached(t.db.logs, tx)| == 2
      && Credits(t, tx) == 1
      && CoinsSent(t.trace, tx) == CoinsOwed(o.package, o.paymentType)
  {
    var tx := |s.db.rows|;
    var paid := DoPay(s, o);
    PayCreates(s, o);
    ChargeSucceeds(paid, tx, sourceId, retrieved, reply, now);
    var charged := Exec(paid, ChargeActions(|paid.flights|, tx, sourceId, retrieved, Some(reply), false, now));
    CreditOnce(paid, charged, tx, o, sourceId, reply, agent, eventKey, now);
  }

  lemma CreditOnce(paid: State, charged: State, tx: nat, o: Origin, sourceId: string, reply: Reply,
                   agent: string, eventKey: string, now: int)
    requires JustPaid(paid, tx, o) && Announceable(o)
    requires Inv(charged) && JustCharged(paid, charged, tx, sourceId, reply)
    requires ToLower(agent) == OMISE + "/" + paid.version && IsChargeEvent(eventKey)
    ensures
      var t := Redelivered(charged, |paid.charges|, SUCCESSFUL, agent, eventKey, now);
      && tx < |t.db.rows| && t.db.rows[tx].status == SUCCESSFUL
      && |Attached(t.db.logs, tx)| == 2
      && Credits(t, tx) == 1
      && CoinsSent(t.trace, tx) == CoinsOwed(o.package, o.paymentType)
  {
    ChargedIsDeliverable(paid, charged, tx, sourceId, reply, agent, eventKey);
    assert charged.origins[tx] == o;
    OneMoreDelivery(charged, |paid.charges|, SUCCESSFUL, agent, eventKey, now);
  }
}
