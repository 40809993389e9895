/** The payment lifecycle as a step machine over the shared tables.

    A step is what one request does between two awaits. Requests in progress are flights; a flight
    keeps the row and the log list it loaded, which other flights may have made stale. `Exec` runs any
    list of actions in any order; an action that is not possible in a state leaves it unchanged, so
    every list of actions is a run. */
module Lifecycle {
  import opened Results
  import opened Text
  import opened Packages
  import opened TransactionTables
  import opened Sources
  import opened Validation
  import opened Notifications
  import opened Counting

  /* ---------- state ---------- */

  /** What was agreed when a transaction was created. */
  datatype Origin = Origin(userRefId: string, productId: int, paymentType: string, package: Package, createdAt: int)

  /** A charge held by the provider: what it was created with, and the code and card of the provider's reply. */
  datatype Charge = Charge(
    id: string,
    sourceId: string,
    amount: int,
    currency: string,
    txId: nat,
    userRefId: string,
    qrCode: Option<string>,
    card: Option<string>)

  /** An accepted callback: the index of its charge, the delivered status and the event key. */
  datatype Call = Call(charge: nat, status: string, eventKey: string)

  datatype Flight =
    | Charging(tx: nat, sourceId: string, row: Row)
    | Opened(tx: nat, row: Row, charge: nat)
    | ChargeEnded
    | Received(call: Call)
    | Loaded(call: Call, tx: nat, row: Row, ids: seq<nat>)
    | Crediting(call: Call, tx: nat, msg: SqsMessage)
    | Notifying(call: Call, tx: nat, msg: SqsMessage)
    | Ignored(call: Call)                   // ended without a save
    | Uncredited(call: Call, tx: nat)       // saved, ended before its credit
    | Unnotified(call: Call, tx: nat)       // saved and credited if due, ended before its notification
    | Completed(call: Call, tx: nat)

  datatype Deed = Saved(status: string) | Sent(msg: SqsMessage) | Pushed(push: Push)

  datatype Effect = Effect(flight: nat, tx: nat, deed: Deed)

  /** What a log row was written for; it never changes, whatever happens to the row's link. */
  datatype Entry = Entry(tx: nat, charge: nat, channel: string, status: string, eventKey: string)

  datatype State = State(
    version: string,
    db: Tables,
    charges: seq<Charge>,     // at the provider
    flights: seq<Flight>,
    trace: seq<Effect>,       // effects of callbacks, in order
    origins: seq<Origin>,     // history: one per transaction row
    ledger: seq<Entry>)       // history: one per log row

  function Init(version: string): State {
    State(version, Tables([], []), [], [], [], [], [])
  }

  /* ---------- what the steps compute ---------- */

  function NewRow(o: Origin): Row {
    Row(o.paymentType, OMISE, o.userRefId, ChargeAmount(o.package), "THB", ToText(o.productId), o.createdAt,
        None, None, PENDING, Metadata(TermsOf(o.package, o.paymentType), None, None), None)
  }

  function ApiLog(now: int): Log {
    Log(PENDING, API, CHARGE_CREATE, now, None)
  }

  function WebhookLog(call: Call, now: int): Log {
    Log(call.status, WEBHOOK, call.eventKey, now, None)
  }

  function ChargeFor(tx: nat, row: Row, id: string, sourceId: string, qrCode: Option<string>, card: Option<string>): Charge {
    Charge(id, sourceId, row.amount, row.currency, tx, row.userRefId, qrCode, card)
  }

  /** The partial save of `charge`: properties it does not name keep their stored value. */
  function ChargedRow(stored: Row, loaded: Row, charge: Charge): Row {
    stored.(source := Some(charge.sourceId),
            providerRefId := Some(charge.id),
            metadata := loaded.metadata.(qrCode := charge.qrCode, card := charge.card))
  }

  /** The assignments a callback makes to the row it loaded. */
  function CalledBackRow(loaded: Row, charge: Charge, status: string, now: int): Row {
    loaded.(status := status, providerRefId := Some(charge.id), updatedAt := Some(now))
  }

  /** Where a callback goes once its save has succeeded. */
  function AfterSave(call: Call, tx: nat, row: Row, charge: Charge): Flight {
    var composed := Compose(tx, row.productId, row.metadata.terms, charge.userRefId, charge.id);
    if call.status == SUCCESSFUL then
      if composed.Err? then Uncredited(call, tx) else Crediting(call, tx, composed.value)
    else if call.status == FAILED then
      if composed.Err? then Unnotified(call, tx) else Notifying(call, tx, composed.value)
    else Completed(call, tx)
  }

  /** The provider accepts a source once and gives every charge a new id. */
  predicate ProviderAccepts(charges: seq<Charge>, id: string, sourceId: string) {
    && id != ""
    && forall k :: 0 <= k < |charges| ==> charges[k].id != id && charges[k].sourceId != sourceId
  }

  /* ---------- steps ---------- */

  datatype Action =
    | Pay(userRefId: string, productId: int, paymentType: string, package: Option<Package>, now: int)
    | ChargeRead(tx: nat, sourceId: string, retrieved: Option<string>)
    | ChargeOpen(flight: nat, id: string, qrCode: Option<string>, card: Option<string>)
    | ChargeCommit(flight: nat, now: int)
    | Deliver(charge: nat, status: string, agent: Option<string>, eventKey: Option<string>, found: bool)
    | DeliverRead(flight: nat)
    | DeliverSave(flight: nat, now: int)
    | DeliverSqs(flight: nat)
    | DeliverNotify(flight: nat)
    | Fail(flight: nat)

  function Put(s: State, f: nat, fl: Flight): State
    requires f < |s.flights|
  {
    s.(flights := s.flights[f := fl])
  }

  function Apply(s: State, a: Action): State {
    match a
    case Pay(userRefId, productId, paymentType, package, now) =>
      if package.None? then s else DoPay(s, Origin(userRefId, productId, paymentType, package.value, now))
    case ChargeRead(tx, sourceId, retrieved) =>
      if Chargeable(sourceId, retrieved) && tx < |s.db.rows| then
        s.(flights := s.flights + [Charging(tx, sourceId, s.db.rows[tx])])
      else s
    case Deliver(k, status, agent, eventKey, found) =>
      if k < |s.charges| then DoDeliver(s, k, status, agent, eventKey, found) else s
    case ChargeOpen(f, id, qrCode, card) =>
      if f < |s.flights| && s.flights[f].Charging? && ProviderAccepts(s.charges, id, s.flights[f].sourceId)
      then DoChargeOpen(s, f, id, qrCode, card) else s
    case ChargeCommit(f, now) =>
      if f < |s.flights| && s.flights[f].Opened? then DoChargeCommit(s, f, now) else s
    case DeliverRead(f) =>
      if f < |s.flights| && s.flights[f].Received? then DoDeliverRead(s, f) else s
    case DeliverSave(f, now) =>
      if f < |s.flights| && s.flights[f].Loaded? then DoDeliverSave(s, f, now) else s
    case DeliverSqs(f) =>
      if f < |s.flights| && s.flights[f].Crediting? then DoDeliverSqs(s, f) else s
    case DeliverNotify(f) =>
      if f < |s.flights| && s.flights[f].Notifying? then DoDeliverNotify(s, f) else s
    case Fail(f) =>
      if f < |s.flights| then Put(s, f, Failed(s.flights[f])) else s
  }

  function DoPay(s: State, o: Origin): State {
    s.(db := Insert(s.db, NewRow(o)), origins := s.origins + [o])
  }

  function DoDeliver(s: State, k: nat, status: string, agent: Option<string>, eventKey: Option<string>, found: bool): State
    requires k < |s.charges|
  {
    if ValidateChargeEvent(Some(s.charges[k].id), agent, eventKey, s.version, found).Ok? then
      AcceptsExactly(Some(s.charges[k].id), agent, eventKey, s.version, found);
      s.(flights := s.flights + [Received(Call(k, status, eventKey.value))])
    else s
  }

  function DoChargeOpen(s: State, f: nat, id: string, qrCode: Option<string>, card: Option<string>): State
    requires f < |s.flights| && s.flights[f].Charging?
  {
    var Charging(tx, sourceId, row) := s.flights[f];
    Put(s.(charges := s.charges + [ChargeFor(tx, row, id, sourceId, qrCode, card)]), f, Opened(tx, row, |s.charges|))
  }

  function DoChargeCommit(s: State, f: nat, now: int): State
    requires f < |s.flights| && s.flights[f].Opened?
  {
    var Opened(tx, row, k) := s.flights[f];
    if tx < |s.db.rows| && k < |s.charges| then
      var r := Save(s.db, tx, ChargedRow(s.db.rows[tx], row, s.charges[k]), [], ApiLog(now));
      if r.Err? then Put(s, f, ChargeEnded)
      else Put(s.(db := r.value, ledger := s.ledger + [Entry(tx, k, API, PENDING, CHARGE_CREATE)]), f, ChargeEnded)
    else s
  }

  function DoDeliverRead(s: State, f: nat): State
    requires f < |s.flights| && s.flights[f].Received?
  {
    var call := s.flights[f].call;
    if call.charge < |s.charges| then
      var found := FindBySource(s.db.rows, s.charges[call.charge].sourceId);
      if found.None? then Put(s, f, Ignored(call))
      else
        var tx := found.value;
        Put(s, f, Loaded(call, tx, s.db.rows[tx], Attached(s.db.logs, tx)))
    else s
  }

  function DoDeliverSave(s: State, f: nat, now: int): State
    requires f < |s.flights| && s.flights[f].Loaded?
  {
    var Loaded(call, tx, row, ids) := s.flights[f];
    if tx < |s.db.rows| && call.charge < |s.charges| then
      var charge := s.charges[call.charge];
      var row' := CalledBackRow(row, charge, call.status, now);
      var r := Save(s.db, tx, row', ids, WebhookLog(call, now));
      if r.Err? then Put(s, f, Ignored(call))
      else
        Put(s.(db := r.value,
               ledger := s.ledger + [Entry(tx, call.charge, WEBHOOK, call.status, call.eventKey)],
               trace := s.trace + [Effect(f, tx, Saved(call.status))]),
            f, AfterSave(call, tx, row', charge))
    else s
  }

  function DoDeliverSqs(s: State, f: nat): State
    requires f < |s.flights| && s.flights[f].Crediting?
  {
    var Crediting(call, tx, msg) := s.flights[f];
    Put(s.(trace := s.trace + [Effect(f, tx, Sent(msg))]), f, Notifying(call, tx, msg))
  }

  function DoDeliverNotify(s: State, f: nat): State
    requires f < |s.flights| && s.flights[f].Notifying?
  {
    var Notifying(call, tx, msg) := s.flights[f];
    var push := PreparePush(call.status, msg);
    if push.Err? then Put(s, f, Unnotified(call, tx))
    else Put(s.(trace := s.trace + [Effect(f, tx, Pushed(push.value))]), f, Completed(call, tx))
  }

  /** An exception at the await a flight is waiting on; the callback's is swallowed, the charge's reaches its client. */
  function Failed(fl: Flight): Flight {
    match fl
    case Charging(_, _, _) => ChargeEnded
    case Opened(_, _, _) => ChargeEnded
    case Received(call) => Ignored(call)
    case Loaded(call, _, _, _) => Ignored(call)
    case Crediting(call, tx, _) => Uncredited(call, tx)
    case Notifying(call, tx, _) => Unnotified(call, tx)
    case _ => fl
  }

  function Exec(s: State, actions: seq<Action>): State {
    if actions == [] then s else Apply(Exec(s, actions[..|actions| - 1]), actions[|actions| - 1])
  }

  lemma {:induction false} ExecConcat(s: State, first: seq<Action>, second: seq<Action>)
    ensures Exec(s, first + second) == Exec(Exec(s, first), second)
  {
    if second == [] {
      assert first + second == first;
    } else {
      var n := |second| - 1;
      var earlier, a := second[..n], second[n];
      ExecConcat(s, first, earlier);
      assert first + second == (first + earlier) + [a] && second == earlier + [a];
      ExecSnoc(s, first + earlier, a);
      ExecSnoc(Exec(s, first), earlier, a);
    }
  }

  lemma ExecSnoc(s: State, actions: seq<Action>, a: Action)
    ensures Exec(s, actions + [a]) == Apply(Exec(s, actions), a)
  {
    assert (actions + [a])[..|actions|] == actions;
  }

  /** The state reached from an empty system by a list of actions. */
  function Reached(version: string, actions: seq<Action>): State {
    Exec(Init(version), actions)
  }

  /* ---------- measures of a run ---------- */

  datatype Stage = ToSave | ToCredit | ToNotify

  function StageOf(d: Deed): Stage {
    match d
    case Saved(_) => ToSave
    case Sent(_) => ToCredit
    case Pushed(_) => ToNotify
  }

  /** The effects of one flight, in the order they happened. */
  function StagesOf(trace: seq<Effect>, f: nat): seq<Stage> {
    if trace == [] then []
    else
      var e := trace[|trace| - 1];
      StagesOf(trace[..|trace| - 1], f) + if e.flight == f then [StageOf(e.deed)] else []
  }

  /** All effects a callback with a given status is meant to have. */
  function Plan(status: string): seq<Stage> {
    [ToSave]
    + (if status == SUCCESSFUL then [ToCredit] else [])
    + (if status == SUCCESSFUL || status == FAILED then [ToNotify] else [])
  }

  /** Successful webhook logs ever written for a transaction. */
  function SuccessfulEntry(tx: nat): Entry -> bool {
    (e: Entry) => e.tx == tx && e.channel == WEBHOOK && e.status == SUCCESSFUL
  }

  function CreditEffect(tx: nat): Effect -> bool {
    (e: Effect) => e.tx == tx && e.deed.Sent?
  }

  function SuccessPush(tx: nat): Effect -> bool {
    (e: Effect) => e.tx == tx && e.deed.Pushed? && e.deed.push.status == SUCCESSFUL
  }

  /** Successful callbacks of a transaction that are saved but not credited: still on their way, or ended early. */
  function AwaitsCredit(tx: nat): Flight -> bool {
    (fl: Flight) => (fl.Crediting? || fl.Uncredited?) && fl.tx == tx
  }

  /** Successful callbacks of a transaction that are credited but not notified. */
  function AwaitsPush(tx: nat): Flight -> bool {
    (fl: Flight) => (fl.Notifying? || fl.Unnotified?) && fl.tx == tx && fl.call.status == SUCCESSFUL
  }

  function SuccessfulLogs(s: State, tx: nat): nat { Count(s.ledger, SuccessfulEntry(tx)) }
  function Credits(s: State, tx: nat): nat { Count(s.trace, CreditEffect(tx)) }
  function SuccessPushes(s: State, tx: nat): nat { Count(s.trace, SuccessPush(tx)) }

  /** The coins credited to a transaction, read from the messages themselves. */
  function CoinsSent(trace: seq<Effect>, tx: nat): int {
    if trace == [] then 0
    else
      var e := trace[|trace| - 1];
      CoinsSent(trace[..|trace| - 1], tx) + if e.tx == tx && e.deed.Sent? then ParseInt(e.deed.msg.coinValue) else 0
  }

  /** The status of the last callback that committed for a transaction, `pending` if there is none. */
  function LastStatus(ledger: seq<Entry>, tx: nat): string {
    if ledger == [] then PENDING
    else
      var e := ledger[|ledger| - 1];
      if e.tx == tx && e.channel == WEBHOOK then e.status else LastStatus(ledger[..|ledger| - 1], tx)
  }

  predicate CalledBack(ledger: seq<Entry>, tx: nat) {
    exists i :: 0 <= i < |ledger| && ledger[i].tx == tx && ledger[i].channel == WEBHOOK
  }
}
