/** What holds of every run of the lifecycle: any number of requests, interleaved at any await, failing
    at any await, with genuine charges delivered in any order and any number of times. */
module LifecycleTheorems {
  import opened Results
  import opened Text
  import opened Packages
  import opened TransactionTables
  import opened Sources
  import opened Validation
  import opened Lifecycle
  import opened LifecycleInvariant
  import opened LifecycleSteps

  /* ---------- value ---------- */

  /** The credit `msg` is for charge `c`, made for a transaction with origin `o`, at the price and for the coins of the package,
      and every field of it agrees with the package's columns. */
  ghost predicate PaidFor(o: Origin, c: Charge, msg: SqsMessage) {
    && c.userRefId == o.userRefId
    && c.amount == 100 * OrZero(o.package.price)
    && ParseInt(msg.packageId) == o.productId
    && Announces(msg, o.package, o.paymentType, msg.packageId, c.txId, c.userRefId, c.id)
  }

  lemma MessageIsPaidFor(origins: seq<Origin>, c: Charge, tx: nat, msg: SqsMessage)
    requires ChargeOk(origins, c) && MessageOf(origins, c, tx, msg)
    ensures PaidFor(origins[tx], c, msg)
  {
    var o := origins[tx];
    ComposedFromColumns(tx, ToText(o.productId), o.package, o.paymentType, o.userRefId, c.id);
    TextRoundTrip(o.productId);
  }

  /** Every credit ever sent traces to a provider charge, a successful webhook log of the same transaction and
      the package as it was at pay time; amounts, user and coins agree across all of them. */
  lemma EveryCreditIsPaidFor(version: string, actions: seq<Action>, i: nat)
    requires i < |Reached(version, actions).trace| && Reached(version, actions).trace[i].deed.Sent?
    ensures
      var s := Reached(version, actions);
      var e := s.trace[i];
      && |s.ledger| == |s.db.logs|
      && exists j ::
           && 0 <= j < |s.db.logs|
           && s.db.logs[j].channel == WEBHOOK && s.db.logs[j].status == SUCCESSFUL
           && s.ledger[j].tx == e.tx < |s.origins|
           && s.ledger[j].charge < |s.charges|
           && s.charges[s.ledger[j].charge].txId == e.tx
           && PaidFor(s.origins[e.tx], s.charges[s.ledger[j].charge], e.deed.msg)
  {
    ReachedSatisfiesInv(version, actions);
    var s := Reached(version, actions);
    var e := s.trace[i];
    assert EffectOk(s.origins, s.charges, s.ledger, e);
    var j :| 0 <= j < |s.ledger| && CreditedBy(s.origins, s.charges, s.ledger[j], e.tx, e.deed.msg);
    MessageIsPaidFor(s.origins, s.charges[s.ledger[j].charge], e.tx, e.deed.msg);
    assert s.db.logs[j].channel == WEBHOOK;
  }

  /** Every charge ever opened, re-charges included, is for a hundred times the package's price and for the user of its transaction. */
  lemma EveryChargeIsForItsTransaction(version: string, actions: seq<Action>, k: nat)
    requires k < |Reached(version, actions).charges|
    ensures
      var s := Reached(version, actions);
      var c := s.charges[k];
      && c.txId < |s.origins| == |s.db.rows|
      && c.amount == 100 * OrZero(s.origins[c.txId].package.price) == s.db.rows[c.txId].amount
      && c.currency == "THB"
      && c.userRefId == s.origins[c.txId].userRefId == s.db.rows[c.txId].userRefId
      && RecognisedSource(c.sourceId)
  {
    ReachedSatisfiesInv(version, actions);
    var s := Reached(version, actions);
    assert ChargeOk(s.origins, s.charges[k]);
    assert RowCoherent(s, s.charges[k].txId);
  }

  /** Every notification ever pushed goes to the user of its transaction, about its package, and reports the status of a webhook log of it. */
  lemma EveryNotificationIsDue(version: string, actions: seq<Action>, i: nat)
    requires i < |Reached(version, actions).trace| && Reached(version, actions).trace[i].deed.Pushed?
    ensures
      var s := Reached(version, actions);
      var tx, push := s.trace[i].tx, s.trace[i].deed.push;
      && tx < |s.origins|
      && push.transactionId == tx
      && push.userRef == s.origins[tx].userRefId != ""
      && push.coinName == s.origins[tx].package.tokenSymbol
      && ParseInt(push.coinValue) == OrZero(s.origins[tx].package.noOfCoins)
      && (push.status == SUCCESSFUL || push.status == FAILED)
      && exists j :: 0 <= j < |s.db.logs| && s.db.logs[j].channel == WEBHOOK && s.db.logs[j].status == push.status
                     && j < |s.ledger| && s.ledger[j].tx == tx
  {
    ReachedSatisfiesInv(version, actions);
    var s := Reached(version, actions);
    var e := s.trace[i];
    assert EffectOk(s.origins, s.charges, s.ledger, e);
    TextRoundTrip(OrZero(s.origins[e.tx].package.noOfCoins));
    var j :| 0 <= j < |s.ledger| && HookEntry(s.ledger[j], e.tx, e.deed.push.status);
    assert s.db.logs[j].channel == WEBHOOK;
  }

  /* ---------- correlation ---------- */

  /** Whenever a delivered charge finds a row, it is the row the charge was made for; amount, currency, user,
      provider reference and every attached log agree with the charge, however stale the last save was. */
  lemma DeliveryFindsItsOwnRow(version: string, actions: seq<Action>, k: nat)
    requires k < |Reached(version, actions).charges|
    requires FindBySource(Reached(version, actions).db.rows, Reached(version, actions).charges[k].sourceId).Some?
    ensures
      var s := Reached(version, actions);
      var c := s.charges[k];
      var tx := FindBySource(s.db.rows, c.sourceId).value;
      && tx == c.txId
      && s.db.rows[tx].amount == c.amount
      && s.db.rows[tx].currency == c.currency
      && s.db.rows[tx].userRefId == c.userRefId
      && s.db.rows[tx].providerRefId == Some(c.id)
      && s.db.rows[tx].metadata.qrCode == c.qrCode
      && s.db.rows[tx].metadata.card == c.card
      && |s.ledger| == |s.db.logs|
      && forall j :: 0 <= j < |Attached(s.db.logs, tx)| ==> s.ledger[Attached(s.db.logs, tx)[j]].charge == k
  {
    ReachedSatisfiesInv(version, actions);
    var s := Reached(version, actions);
    var tx := FindBySource(s.db.rows, s.charges[k].sourceId).value;
    assert RowCoherent(s, tx);
    SourceSitsOnItsRow(s, k, tx);
    assert ChargeOk(s.origins, s.charges[k]);
  }

  /** Source and provider reference of a row come together from one charge made for that row; no two rows share a
      source; and every source has a recognised prefix. */
  lemma SourcesBelongToTheirRows(version: string, actions: seq<Action>, tx: nat)
    requires tx < |Reached(version, actions).db.rows|
    ensures
      var s := Reached(version, actions);
      var row := s.db.rows[tx];
      && (row.source.None? <==> row.providerRefId.None?)
      && (row.source.Some? ==>
            exists k :: 0 <= k < |s.charges| && s.charges[k].txId == tx
                        && row.source == Some(s.charges[k].sourceId) && row.providerRefId == Some(s.charges[k].id))
      && (row.source.Some? ==> RecognisedSource(row.source.value))
      && (forall other :: 0 <= other < |s.db.rows| && row.source.Some? && s.db.rows[other].source == row.source ==> other == tx)
  {
    ReachedSatisfiesInv(version, actions);
    var s := Reached(version, actions);
    var row := s.db.rows[tx];
    assert RowCoherent(s, tx);
    var ids := Attached(s.db.logs, tx);
    if row.source.Some? {
      var k := s.ledger[ids[0]].charge;
      assert s.charges[k].txId == tx && row.source == Some(s.charges[k].sourceId);
      assert ChargeOk(s.origins, s.charges[k]);
      forall other | 0 <= other < |s.db.rows| && s.db.rows[other].source == row.source ensures other == tx {
        SourceSitsOnItsRow(s, k, other);
      }
    }
  }

  /* ---------- logs ---------- */

  /** A row has no attached logs exactly when its source is null; otherwise exactly one, the first, is the API's
      `charge.create`, and all others are webhook logs of charge events. */
  lemma AttachedLogShape(version: string, actions: seq<Action>, tx: nat)
    requires tx < |Reached(version, actions).db.rows|
    ensures
      var s := Reached(version, actions);
      var ids := Attached(s.db.logs, tx);
      && (ids == [] <==> s.db.rows[tx].source.None?)
      && (forall j :: 0 <= j < |ids| ==>
            if j == 0 then s.db.logs[ids[j]].channel == "api"
                           && s.db.logs[ids[j]].status == "pending" && s.db.logs[ids[j]].eventKey == "charge.create"
            else s.db.logs[ids[j]].channel == "webhook" && NamesChargeEvent(s.db.logs[ids[j]].eventKey))
  {
    ReachedSatisfiesInv(version, actions);
    var s := Reached(version, actions);
    assert RowCoherent(s, tx);
    var ids := Attached(s.db.logs, tx);
    forall j | 0 <= j < |ids|
      ensures if j == 0 then s.db.logs[ids[j]].channel == "api"
                             && s.db.logs[ids[j]].status == "pending" && s.db.logs[ids[j]].eventKey == "charge.create"
              else s.db.logs[ids[j]].channel == "webhook" && NamesChargeEvent(s.db.logs[ids[j]].eventKey)
    {
      assert EntryOk(s.charges, s.ledger[ids[j]]);
      ChargeEventsByName(s.ledger[ids[j]].eventKey);
      assert s.db.logs[ids[j]].channel == s.ledger[ids[j]].channel;
    }
  }

  /** A row's status is that of its last committed callback, `pending` without one; the timestamp is set exactly when
      there is one; and with more than one attached log the status is the last attached log's. */
  lemma StatusIsLastCallback(version: string, actions: seq<Action>, tx: nat)
    requires tx < |Reached(version, actions).db.rows|
    ensures
      var s := Reached(version, actions);
      var ids := Attached(s.db.logs, tx);
      && s.db.rows[tx].status == LastStatus(s.ledger, tx)
      && (s.db.rows[tx].updatedAt.Some? <==> CalledBack(s.ledger, tx))
      && (|ids| > 1 ==> s.db.rows[tx].status == s.db.logs[ids[|ids| - 1]].status)
  {
    ReachedSatisfiesInv(version, actions);
    assert StatusRecorded(Reached(version, actions), tx);
  }

  lemma CallbackSave(s: State, f: nat, now: int)
    requires Inv(s) && f < |s.flights| && s.flights[f].Loaded?
    ensures
      var Loaded(call, tx, loaded, ids) := s.flights[f];
      && tx < |s.db.rows| && call.charge < |s.charges|
      && var row := CalledBackRow(loaded, s.charges[call.charge], call.status, now);
      && !SourceTaken(s.db.rows, tx, row.source)
      && Save(s.db, tx, row, ids, WebhookLog(call, now)) == Ok(DoDeliverSave(s, f, now).db)
      && Increasing(ids)
      && (forall i :: i in ids ==> i < |s.db.logs|)
      && (forall i, other: nat :: i in ids && s.db.logs[i].link == Some(other) ==> other == tx)
  {
    CallbackFacts(s, f, now);
  }

  /** The logs of `t` after a save of transaction `tx` from the log list `ids`: those attached meanwhile have lost
      their link, and every other transaction keeps its logs. */
  ghost predicate DetachedMeanwhile(s: State, t: State, tx: nat, ids: seq<nat>) {
    && |t.db.logs| == |s.db.logs| + 1
    && Attached(t.db.logs, tx) == ids + [|s.db.logs|]
    && (forall i :: 0 <= i < |s.db.logs| ==>
          (s.db.logs[i].link.Some? && t.db.logs[i].link.None? <==> s.db.logs[i].link == Some(tx) && i !in ids))
    && (forall other :: 0 <= other < |s.db.rows| && other != tx ==>
          Attached(t.db.logs, other) == Attached(s.db.logs, other))
  }

  lemma CallbackDetaches(s: State, f: nat, now: int)
    requires Inv(s) && f < |s.flights| && s.flights[f].Loaded?
    ensures DetachedMeanwhile(s, DoDeliverSave(s, f, now), s.flights[f].tx, s.flights[f].ids)
  {
    CallbackSave(s, f, now);
    var Loaded(call, tx, loaded, ids) := s.flights[f];
    SaveFromLoaded(s.db, DoDeliverSave(s, f, now).db, tx, CalledBackRow(loaded, s.charges[call.charge], call.status, now), ids,
                   WebhookLog(call, now));
  }

  /** The lost update, exactly: a callback's save leaves attached what it had loaded plus its own log, so the logs that
      lose their link are those attached since it loaded. */
  lemma StaleSaveDetachesExactly(version: string, actions: seq<Action>, s: State, f: nat, now: int)
    requires s == Reached(version, actions)
    requires f < |s.flights| && s.flights[f].Loaded?
    ensures DetachedMeanwhile(s, DoDeliverSave(s, f, now), s.flights[f].tx, s.flights[f].ids)
  {
    ReachedSatisfiesInv(version, actions);
    CallbackDetaches(s, f, now);
  }

  lemma SaveFromLoaded(db: Tables, after: Tables, tx: nat, row: Row, ids: seq<nat>, log: Log)
    requires tx < |db.rows| && !SourceTaken(db.rows, tx, row.source) && Save(db, tx, row, ids, log) == Ok(after)
    requires Increasing(ids) && forall i :: i in ids ==> i < |db.logs|
    requires forall i, other: nat :: i in ids && db.logs[i].link == Some(other) ==> other == tx
    ensures |after.logs| == |db.logs| + 1
    ensures Attached(after.logs, tx) == ids + [|db.logs|]
    ensures forall i :: 0 <= i < |db.logs| ==>
              (db.logs[i].link.Some? && after.logs[i].link.None? <==> db.logs[i].link == Some(tx) && i !in ids)
    ensures forall other :: 0 <= other < |db.rows| && other != tx ==> Attached(after.logs, other) == Attached(db.logs, other)
  {
    SaveAttaches(db, tx, row, ids, log);
    forall i | 0 <= i < |db.logs|
      ensures db.logs[i].link.Some? && after.logs[i].link.None? <==> db.logs[i].link == Some(tx) && i !in ids
    {
      SaveDetachesExactly(db, tx, row, ids, log, i);
    }
    forall other | 0 <= other < |db.rows| && other != tx ensures Attached(after.logs, other) == Attached(db.logs, other) {
      SaveKeepsOthers(db, tx, row, ids, log, other);
    }
  }

  /** What a callback's save leaves of another flight: nothing of it changes. */
  lemma OtherFlightWaits(s: State, f: nat, g: nat, now: int)
    requires f < |s.flights| && g < |s.flights| && f != g && s.flights[f].Loaded?
    ensures g < |DoDeliverSave(s, f, now).flights| && DoDeliverSave(s, f, now).flights[g] == s.flights[g]
  {
  }

  /** Both saves of two callbacks that loaded the same row: the first one's log is linked until the second save cuts it. */
  lemma SecondSaveCuts(s: State, f: nat, g: nat, now: int, later: int)
    requires Inv(s) && f < |s.flights| && g < |s.flights| && f != g
    requires s.flights[f].Loaded? && s.flights[g].Loaded? && s.flights[f].tx == s.flights[g].tx
    ensures
      var tx := s.flights[g].tx;
      var t := DoDeliverSave(s, f, now);
      && g < |t.flights| && t.flights[g] == s.flights[g]
      && DetachedMeanwhile(s, t, tx, s.flights[f].ids)
      && DetachedMeanwhile(t, DoDeliverSave(t, g, later), tx, s.flights[g].ids)
      && |s.db.logs| !in s.flights[g].ids
  {
    var t := DoDeliverSave(s, f, now);
    OtherFlightWaits(s, f, g, now);
    DeliverSaveKeepsInv(s, f, now);
    CallbackDetaches(s, f, now);
    CallbackDetaches(t, g, later);
    CallbackSave(s, g, later);
  }

  /** The lost update happens whenever two callbacks of a transaction have loaded its row: the log that the first one saves
      is attached, and the second one's save cuts its link; what stays attached is what the second had loaded and its own log. */
  lemma OverlapCutsALink(version: string, actions: seq<Action>, s: State, f: nat, g: nat, now: int, later: int)
    requires s == Reached(version, actions)
    requires f < |s.flights| && g < |s.flights| && f != g
    requires s.flights[f].Loaded? && s.flights[g].Loaded? && s.flights[f].tx == s.flights[g].tx
    ensures
      var tx := s.flights[g].tx;
      var t := DoDeliverSave(s, f, now);
      && g < |t.flights| && t.flights[g] == s.flights[g]
      && |t.db.logs| == |s.db.logs| + 1 && t.db.logs[|s.db.logs|].link == Some(tx)
      && var u := DoDeliverSave(t, g, later);
      && |u.db.logs| == |s.db.logs| + 2 && u.db.logs[|s.db.logs|].link == None
      && Attached(u.db.logs, tx) == s.flights[g].ids + [|s.db.logs| + 1]
  {
    ReachedSatisfiesInv(version, actions);
    SecondSaveCuts(s, f, g, now, later);
    var t := DoDeliverSave(s, f, now);
    var tx, n := s.flights[g].tx, |s.db.logs|;
    AttachedAreTheLinked(t.db.logs, tx);
    assert Attached(t.db.logs, tx)[|s.flights[f].ids|] == n;
    assert n in Attached(t.db.logs, tx);
  }

  /** A charge's save replaces the log list of its transaction: afterwards its own log is the only one attached, every log
      attached before, webhook logs included, has lost its link, and all other links are as they were. */
  lemma RechargeDetachesAll(version: string, actions: seq<Action>, s: State, f: nat, now: int)
    requires s == Reached(version, actions)
    requires f < |s.flights| && s.flights[f].Opened?
    ensures
      var tx := s.flights[f].tx;
      var t := DoChargeCommit(s, f, now);
      && DetachedMeanwhile(s, t, tx, [])
      && Attached(t.db.logs, tx) == [|s.db.logs|]
      && forall i :: 0 <= i < |s.db.logs| ==>
           t.db.logs[i].link == if s.db.logs[i].link == Some(tx) then None else s.db.logs[i].link
  {
    ReachedSatisfiesInv(version, actions);
    CommitFacts(s, f, now);
    var Opened(tx, loaded, k) := s.flights[f];
    SaveFromLoaded(s.db, DoChargeCommit(s, f, now).db, tx, ChargedRow(s.db.rows[tx], loaded, s.charges[k]), [], ApiLog(now));
  }

  /** With the source of one charge on its row, the other charges of the transaction are found on no row. */
  lemma OtherChargesAreLost(s: State, tx: nat, k: nat, j: nat)
    requires History(s) && RowsCoherent(s)
    requires k < |s.charges| && j < |s.charges| && j != k && s.charges[j].txId == tx
    requires tx < |s.db.rows| && s.db.rows[tx].source == Some(s.charges[k].sourceId)
    ensures FindBySource(s.db.rows, s.charges[j].sourceId) == None
  {
    var found := FindBySource(s.db.rows, s.charges[j].sourceId);
    if found.Some? {
      SourceSitsOnItsRow(s, j, found.value);
    }
  }

  lemma CommitPutsItsSource(s: State, f: nat, now: int)
    requires Inv(s) && f < |s.flights| && s.flights[f].Opened?
    ensures
      var Opened(tx, _, k) := s.flights[f];
      var t := DoChargeCommit(s, f, now);
      && tx < |t.db.rows| && k < |s.charges| && t.charges == s.charges
      && t.db.rows[tx].source == Some(s.charges[k].sourceId)
  {
    CommitFacts(s, f, now);
  }

  /** A re-charge takes the place of every earlier charge: from its save on it is the one found by its source, and deliveries of
      any other charge of the transaction find no row. */
  lemma RechargeReplacesTheOthers(version: string, actions: seq<Action>, s: State, f: nat, now: int, j: nat)
    requires s == Reached(version, actions)
    requires f < |s.flights| && s.flights[f].Opened?
    requires j < |s.charges| && j != s.flights[f].charge && s.charges[j].txId == s.flights[f].tx
    ensures
      var Opened(tx, _, k) := s.flights[f];
      var t := DoChargeCommit(s, f, now);
      && k < |s.charges|
      && FindBySource(t.db.rows, s.charges[k].sourceId) == Some(tx)
      && FindBySource(t.db.rows, s.charges[j].sourceId) == None
  {
    ReachedSatisfiesInv(version, actions);
    var Opened(tx, _, k) := s.flights[f];
    var t := DoChargeCommit(s, f, now);
    CommitPutsItsSource(s, f, now);
    ChargeCommitKeepsInv(s, f, now);
    OtherChargesAreLost(t, tx, k, j);
    SourceSitsOnItsRow(t, k, FindBySource(t.db.rows, s.charges[k].sourceId).value);
  }

  lemma CallbackWritesBack(s: State, f: nat, now: int)
    requires Inv(s) && f < |s.flights| && s.flights[f].Loaded?
    ensures
      var Loaded(call, tx, loaded, _) := s.flights[f];
      var t := DoDeliverSave(s, f, now);
      && tx < |t.db.rows| && t.charges == s.charges && call.charge < |s.charges|
      && loaded.source == Some(s.charges[call.charge].sourceId)
      && t.db.rows[tx] == loaded.(status := call.status, providerRefId := Some(s.charges[call.charge].id), updatedAt := Some(now))
      && forall other :: 0 <= other < |s.db.rows| && other != tx ==> other < |t.db.rows| && t.db.rows[other] == s.db.rows[other]
  {
    CallbackFacts(s, f, now);
  }

  /** A stale callback undoes a re-charge: its save writes back every column it had loaded, source and metadata included, so a
      charge made for the transaction since then is on no row any more and its deliveries are ignored. */
  lemma StaleSaveUndoesARecharge(version: string, actions: seq<Action>, s: State, f: nat, now: int, j: nat)
    requires s == Reached(version, actions)
    requires f < |s.flights| && s.flights[f].Loaded?
    requires j < |s.charges| && j != s.flights[f].call.charge && s.charges[j].txId == s.flights[f].tx
    ensures
      var Loaded(call, tx, loaded, _) := s.flights[f];
      var t := DoDeliverSave(s, f, now);
      && tx < |t.db.rows| && call.charge < |s.charges|
      && t.db.rows[tx] == loaded.(status := call.status, providerRefId := Some(s.charges[call.charge].id), updatedAt := Some(now))
      && FindBySource(t.db.rows, s.charges[call.charge].sourceId) == Some(tx)
      && FindBySource(t.db.rows, s.charges[j].sourceId) == None
  {
    ReachedSatisfiesInv(version, actions);
    var Loaded(call, tx, _, _) := s.flights[f];
    var t := DoDeliverSave(s, f, now);
    CallbackWritesBack(s, f, now);
    DeliverSaveKeepsInv(s, f, now);
    OtherChargesAreLost(t, tx, call.charge, j);
    SourceSitsOnItsRow(t, call.charge, FindBySource(t.db.rows, s.charges[call.charge].sourceId).value);
  }

  predicate Saves(s: State, a: Action) {
    || (a.ChargeCommit? && a.flight < |s.flights| && s.flights[a.flight].Opened?)
    || (a.DeliverSave? && a.flight < |s.flights| && s.flights[a.flight].Loaded?)
  }

  /** The charge commits and callback saves of a run. */
  function SavesIn(version: string, actions: seq<Action>): nat {
    if actions == [] then 0
    else
      var earlier := actions[..|actions| - 1];
      SavesIn(version, earlier) + if Saves(Reached(version, earlier), actions[|actions| - 1]) then 1 else 0
  }

  /** The content of a log row; only its link may change. */
  predicate SameLog(a: Log, b: Log) {
    a.status == b.status && a.channel == b.channel && a.eventKey == b.eventKey && a.createdAt == b.createdAt
  }

  ghost predicate LogsOnlyGrow(s: State, t: State) {
    && |s.db.logs| <= |t.db.logs|
    && (forall i :: 0 <= i < |s.db.logs| ==> SameLog(s.db.logs[i], t.db.logs[i]))
    && Grows(s, t)
  }

  lemma SaveWritesOneLog(t: Tables, tx: nat, row: Row, kept: seq<nat>, added: Log)
    requires tx < |t.rows| && !SourceTaken(t.rows, tx, row.source)
    ensures
      var after := Save(t, tx, row, kept, added).value;
      && |after.logs| == |t.logs| + 1
      && forall i :: 0 <= i < |t.logs| ==> SameLog(t.logs[i], after.logs[i])
  {
  }

  lemma CommitWritesOneLog(s: State, f: nat, now: int)
    requires Inv(s) && f < |s.flights| && s.flights[f].Opened?
    ensures var t := DoChargeCommit(s, f, now); LogsOnlyGrow(s, t) && |t.db.logs| == |s.db.logs| + 1
  {
    CommitFacts(s, f, now);
    var Opened(tx, loaded, k) := s.flights[f];
    SaveWritesOneLog(s.db, tx, ChargedRow(s.db.rows[tx], loaded, s.charges[k]), [], ApiLog(now));
  }

  lemma CallbackWritesOneLog(s: State, f: nat, now: int)
    requires Inv(s) && f < |s.flights| && s.flights[f].Loaded?
    ensures var t := DoDeliverSave(s, f, now); LogsOnlyGrow(s, t) && |t.db.logs| == |s.db.logs| + 1
  {
    var Loaded(call, tx, loaded, ids) := s.flights[f];
    CallbackSave(s, f, now);
    CallbackIsSaved(s, DoDeliverSave(s, f, now), f, now);
    SaveWritesOneLog(s.db, tx, CalledBackRow(loaded, s.charges[call.charge], call.status, now), ids, WebhookLog(call, now));
  }

  /** The unique index never refuses a save: whenever a flight saves in any run, the save succeeds and writes one log. */
  lemma UniqueIndexNeverRefuses(version: string, actions: seq<Action>, s: State, f: nat, now: int)
    requires s == Reached(version, actions) && f < |s.flights|
    ensures s.flights[f].Opened? ==> |DoChargeCommit(s, f, now).db.logs| == |s.db.logs| + 1
    ensures s.flights[f].Loaded? ==> |DoDeliverSave(s, f, now).db.logs| == |s.db.logs| + 1
  {
    ReachedSatisfiesInv(version, actions);
    if s.flights[f].Opened? { CommitWritesOneLog(s, f, now); }
    if s.flights[f].Loaded? { CallbackWritesOneLog(s, f, now); }
  }

  lemma OtherStepsWriteNoLog(s: State, a: Action)
    requires !Saves(s, a)
    ensures LogsOnlyGrow(s, Apply(s, a)) && |Apply(s, a).db.logs| == |s.db.logs|
  {
    assert Apply(s, a).db.logs == s.db.logs;
  }

  lemma StepSavesOneLog(s: State, a: Action)
    requires Inv(s)
    ensures LogsOnlyGrow(s, Apply(s, a))
    ensures |Apply(s, a).db.logs| == |s.db.logs| + if Saves(s, a) then 1 else 0
  {
    if Saves(s, a) {
      if a.ChargeCommit? {
        CommitWritesOneLog(s, a.flight, a.now);
      } else {
        CallbackWritesOneLog(s, a.flight, a.now);
      }
    } else {
      OtherStepsWriteNoLog(s, a);
    }
  }

  lemma {:induction false} RunGrows(s: State, actions: seq<Action>)
    requires Inv(s)
    ensures LogsOnlyGrow(s, Exec(s, actions))
  {
    if actions != [] {
      var n := |actions| - 1;
      RunGrows(s, actions[..n]);
      RunKeepsInv(s, actions[..n]);
      StepSavesOneLog(Exec(s, actions[..n]), actions[n]);
    }
  }

  lemma {:induction false} LogsCountSaves(version: string, actions: seq<Action>)
    ensures |Reached(version, actions).db.logs| == SavesIn(version, actions)
  {
    if actions != [] {
      var n := |actions| - 1;
      LogsCountSaves(version, actions[..n]);
      ReachedSatisfiesInv(version, actions[..n]);
      StepSavesOneLog(Reached(version, actions[..n]), actions[n]);
    }
  }

  /** Log rows are never deleted or rewritten; there is exactly one for every charge commit and callback save, even
      when interleaved saves have cut its link; and a link only ever leads to the transaction it was written for. */
  lemma LogRowsAreConserved(version: string, before: seq<Action>, after: seq<Action>)
    ensures
      var s, t := Reached(version, before), Reached(version, before + after);
      && LogsOnlyGrow(s, t)
      && |t.ledger| == |t.db.logs| == SavesIn(version, before + after)
      && forall i :: 0 <= i < |t.db.logs| && t.db.logs[i].link.Some? ==> t.db.logs[i].link.value == t.ledger[i].tx
  {
    ReachedSatisfiesInv(version, before);
    ReachedSatisfiesInv(version, before + after);
    ExecConcat(Init(version), before, after);
    RunGrows(Reached(version, before), after);
    LogsCountSaves(version, before + after);
  }

  /* ---------- timestamps ---------- */

  /** The callback save of transaction `tx` that an action makes, if it makes one. */
  predicate CallsBack(s: State, a: Action, tx: nat) {
    a.DeliverSave? && a.flight < |s.flights| && s.flights[a.flight].Loaded? && s.flights[a.flight].tx == tx
  }

  /** The clock of each save of a run, in order. */
  function SaveClocks(version: string, actions: seq<Action>): seq<int> {
    if actions == [] then []
    else
      var earlier, a := actions[..|actions| - 1], actions[|actions| - 1];
      SaveClocks(version, earlier) + if Saves(Reached(version, earlier), a) then [a.now] else []
  }

  /** The clock of the last callback save of a transaction. */
  function LastCallbackClock(version: string, actions: seq<Action>, tx: nat): Option<int> {
    if actions == [] then None
    else
      var earlier, a := actions[..|actions| - 1], actions[|actions| - 1];
      if CallsBack(Reached(version, earlier), a, tx) then Some(a.now) else LastCallbackClock(version, earlier, tx)
  }

  /** A state's logs carry the given clocks. */
  ghost predicate Stamped(s: State, clocks: seq<int>) {
    && |s.db.logs| == |clocks|
    && forall i :: 0 <= i < |clocks| ==> s.db.logs[i].createdAt == clocks[i]
  }

  /** A row's timestamp is the given one; a row that is not there has none. */
  ghost predicate Updated(s: State, tx: nat, at: Option<int>) {
    if tx < |s.db.rows| then s.db.rows[tx].updatedAt == at else at.None?
  }

  lemma CommitStamps(s: State, f: nat, now: int, tx: nat, at: Option<int>)
    requires Inv(s) && f < |s.flights| && s.flights[f].Opened? && Updated(s, tx, at)
    ensures
      var t := DoChargeCommit(s, f, now);
      && |t.db.logs| == |s.db.logs| + 1 && t.db.logs[|s.db.logs|].createdAt == now
      && Updated(t, tx, at)
  {
    CommitFacts(s, f, now);
  }

  lemma CallbackStamps(s: State, f: nat, now: int, tx: nat, at: Option<int>)
    requires Inv(s) && f < |s.flights| && s.flights[f].Loaded? && Updated(s, tx, at)
    ensures
      var t := DoDeliverSave(s, f, now);
      && |t.db.logs| == |s.db.logs| + 1 && t.db.logs[|s.db.logs|].createdAt == now
      && Updated(t, tx, if s.flights[f].tx == tx then Some(now) else at)
  {
    CallbackFacts(s, f, now);
  }

  lemma OtherStepsStampNothing(s: State, a: Action, tx: nat, at: Option<int>)
    requires !Saves(s, a) && Updated(s, tx, at)
    ensures Apply(s, a).db.logs == s.db.logs && Updated(Apply(s, a), tx, at)
  {
  }

  lemma OneMoreStamp(s: State, t: State, clocks: seq<int>, now: int)
    requires Stamped(s, clocks) && LogsOnlyGrow(s, t)
    requires |t.db.logs| == |s.db.logs| + 1 && t.db.logs[|s.db.logs|].createdAt == now
    ensures Stamped(t, clocks + [now])
  {
  }

  lemma StepStamps(s: State, a: Action, clocks: seq<int>, tx: nat, at: Option<int>)
    requires Inv(s) && Stamped(s, clocks) && Updated(s, tx, at)
    ensures Stamped(Apply(s, a), clocks + if Saves(s, a) then [a.now] else [])
    ensures Updated(Apply(s, a), tx, if CallsBack(s, a, tx) then Some(a.now) else at)
  {
    var t := Apply(s, a);
    StepSavesOneLog(s, a);
    if !Saves(s, a) {
      OtherStepsStampNothing(s, a, tx, at);
    } else if a.ChargeCommit? {
      assert t == DoChargeCommit(s, a.flight, a.now);
      CommitStamps(s, a.flight, a.now, tx, at);
      OneMoreStamp(s, t, clocks, a.now);
    } else {
      assert t == DoDeliverSave(s, a.flight, a.now);
      CallbackStamps(s, a.flight, a.now, tx, at);
      OneMoreStamp(s, t, clocks, a.now);
    }
  }

  /** Every log row carries the clock of the save that wrote it, and every row the clock of its last committed callback; no
      charge sets or clears the timestamp of a row. */
  lemma {:induction false} SavesStampTheClock(version: string, actions: seq<Action>, tx: nat)
    ensures Stamped(Reached(version, actions), SaveClocks(version, actions))
    ensures Updated(Reached(version, actions), tx, LastCallbackClock(version, actions, tx))
  {
    if actions != [] {
      var n := |actions| - 1;
      SavesStampTheClock(version, actions[..n], tx);
      ReachedSatisfiesInv(version, actions[..n]);
      StepStamps(Reached(version, actions[..n]), actions[n], SaveClocks(version, actions[..n]), tx,
                 LastCallbackClock(version, actions[..n], tx));
    }
  }

  /* ---------- fixed columns ---------- */

  /** In every reached state a row holds, column by column, what was paid for: the user, payment type and time of the request, the
      product's number, a hundred times the package's price, and its terms. */
  lemma RowsHoldWhatWasPaidFor(version: string, actions: seq<Action>, tx: nat)
    requires tx < |Reached(version, actions).db.rows|
    ensures
      var s := Reached(version, actions);
      && tx < |s.origins|
      && var row, o := s.db.rows[tx], s.origins[tx];
      var p, terms := o.package, row.metadata.terms;
      && row.userRefId == o.userRefId && row.paymentType == o.paymentType && row.createdAt == o.createdAt
      && row.provider == "omise" && row.currency == "THB" && ParseInt(row.productId) == o.productId
      && row.amount == 100 * OrZero(p.price)
      && terms.tokenName == p.tokenName && terms.tokenSymbol == p.tokenSymbol && terms.tokenAmount == p.noOfCoins
      && terms.tokenBonus == OrZero(p.bonus) + PaymentBonusOwed(p.paymentBonus, o.paymentType)
      && terms.price == OrZero(p.price)
      && (p.currency.None? ==> terms.currency == "") && (p.currency.Some? ==> p.currency == Some(terms.currency))
  {
    ReachedSatisfiesInv(version, actions);
    var s := Reached(version, actions);
    assert RowCoherent(s, tx);
    TermsHoldThePackage(s.origins[tx].package, s.origins[tx].paymentType);
    TextRoundTrip(s.origins[tx].productId);
  }

  predicate SameFixedColumns(a: Row, b: Row) {
    && a.paymentType == b.paymentType && a.provider == b.provider && a.userRefId == b.userRefId
    && a.amount == b.amount && a.currency == b.currency && a.productId == b.productId
    && a.createdAt == b.createdAt && a.metadata.terms == b.metadata.terms
  }

  /** Rows are never deleted and their pay-time columns never change. */
  lemma FixedColumnsNeverChange(version: string, before: seq<Action>, after: seq<Action>, tx: nat)
    requires tx < |Reached(version, before).db.rows|
    ensures
      var s, t := Reached(version, before), Reached(version, before + after);
      && tx < |t.db.rows|
      && SameFixedColumns(s.db.rows[tx], t.db.rows[tx])
  {
    ReachedSatisfiesInv(version, before);
    ReachedSatisfiesInv(version, before + after);
    ExecConcat(Init(version), before, after);
    RunGrows(Reached(version, before), after);
    var s, t := Reached(version, before), Reached(version, before + after);
    assert RowCoherent(s, tx) && RowCoherent(t, tx);
    assert t.origins[tx] == s.origins[tx];
  }

  /** On a reachable row the message of a callback can be composed exactly when the package it was created from had a
      coin count or earned a bonus. */
  lemma DerivationDefinedExactly(version: string, actions: seq<Action>, tx: nat, userRef: string, chargeId: string)
    requires tx < |Reached(version, actions).db.rows|
    ensures
      var s := Reached(version, actions);
      var row := s.db.rows[tx];
      && tx < |s.origins|
      && var p := s.origins[tx].package;
      Compose(tx, row.productId, row.metadata.terms, userRef, chargeId).Ok? <==>
        p.noOfCoins.Some? || OrZero(p.bonus) + PaymentBonusOwed(p.paymentBonus, s.origins[tx].paymentType) != 0
  {
    ReachedSatisfiesInv(version, actions);
    var s := Reached(version, actions);
    assert RowCoherent(s, tx);
    var o := s.origins[tx];
    ComposeFailsExactlyWithoutCoins(tx, s.db.rows[tx].productId, o.package, o.paymentType, userRef, chargeId);
  }

  /* ---------- effects ---------- */

  function CallOf(fl: Flight): Option<Call> {
    if fl.Charging? || fl.Opened? || fl.ChargeEnded? then None else Some(fl.call)
  }

  /** The effects of a callback are always a prefix of its plan: save, then credit only if successful, then notify only
      if successful or failed. Charge requests have none. */
  lemma EffectsFollowThePlan(version: string, actions: seq<Action>, f: nat)
    requires f < |Reached(version, actions).flights|
    ensures
      var s := Reached(version, actions);
      var done := StagesOf(s.trace, f);
      match CallOf(s.flights[f])
      case None => done == []
      case Some(call) =>
        && done <= Plan(call.status)
        && (s.flights[f].Completed? ==> done == Plan(call.status))
        && (s.flights[f].Received? || s.flights[f].Loaded? || s.flights[f].Ignored? ==> done == [])
        && (s.flights[f].Uncredited? || s.flights[f].Unnotified? ==> done < Plan(call.status))
  {
    ReachedSatisfiesInv(version, actions);
    var s := Reached(version, actions);
    assert FlightOk(s.origins, s.charges, s.ledger, s.flights[f]);
    assert StagesOf(s.trace, f) == Progress(s.flights[f]);
  }
}
