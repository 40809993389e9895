/** Every step of the lifecycle keeps the invariant. */
module LifecycleSteps {
  import opened Results
  import opened Packages
  import opened TransactionTables
  import opened Sources
  import opened Validation
  import opened Notifications
  import opened Counting
  import opened Lifecycle
  import opened LifecycleInvariant

  /* ---------- how a step changes flights, trace and ledger ---------- */

  /** A step of flight `f`: it becomes `fl`, at most one effect and at most one ledger entry are added. */
  ghost predicate StepOf(s: State, t: State, f: nat, fl: Flight, effects: seq<Effect>, entries: seq<Entry>) {
    && f < |s.flights| && t.flights == s.flights[f := fl]
    && |effects| <= 1 && t.trace == s.trace + effects
    && |entries| <= 1 && t.ledger == s.ledger + entries
    && t.origins == s.origins && s.charges <= t.charges
    && (forall i :: 0 <= i < |effects| ==> effects[i].flight == f)
  }

  function Ones<T>(xs: seq<T>, p: T -> bool): nat {
    if xs != [] && p(xs[0]) then 1 else 0
  }

  lemma CountMore<T>(xs: seq<T>, more: seq<T>, p: T -> bool)
    requires |more| <= 1
    ensures Count(xs + more, p) == Count(xs, p) + Ones(more, p)
  {
    if more == [] {
      assert xs + more == xs;
    } else {
      assert more == [more[0]];
      CountSnoc(xs, more[0], p);
    }
  }

  ghost function One(b: bool): nat { if b then 1 else 0 }

  /** What a step adds on each side of the balance, per transaction. */
  ghost predicate StepBalances(was: Flight, fl: Flight, effects: seq<Effect>, entries: seq<Entry>, tx: nat) {
    && Ones(entries, SuccessfulEntry(tx)) + One(AwaitsCredit(tx)(was))
       == Ones(effects, CreditEffect(tx)) + One(AwaitsCredit(tx)(fl))
    && Ones(effects, CreditEffect(tx)) + One(AwaitsPush(tx)(was))
       == Ones(effects, SuccessPush(tx)) + One(AwaitsPush(tx)(fl))
  }

  lemma BalanceKept(s: State, t: State, f: nat, fl: Flight, effects: seq<Effect>, entries: seq<Entry>)
    requires AllBalanced(s) && StepOf(s, t, f, fl, effects, entries)
    requires forall tx: nat :: StepBalances(s.flights[f], fl, effects, entries, tx)
    ensures AllBalanced(t)
  {
    forall tx: nat ensures Balanced(t, tx) {
      assert Balanced(s, tx) && StepBalances(s.flights[f], fl, effects, entries, tx);
      CountMore(s.ledger, entries, SuccessfulEntry(tx));
      CountMore(s.trace, effects, CreditEffect(tx));
      CountMore(s.trace, effects, SuccessPush(tx));
      CountUpdate(s.flights, f, fl, AwaitsCredit(tx));
      CountUpdate(s.flights, f, fl, AwaitsPush(tx));
    }
  }

  lemma StagesSnoc(trace: seq<Effect>, e: Effect, f: nat)
    ensures StagesOf(trace + [e], f) == StagesOf(trace, f) + if e.flight == f then [StageOf(e.deed)] else []
  {
  }

  lemma {:induction false} NoStages(trace: seq<Effect>, f: nat)
    requires forall i :: 0 <= i < |trace| ==> trace[i].flight != f
    ensures StagesOf(trace, f) == []
  {
    if trace != [] {
      NoStages(trace[..|trace| - 1], f);
    }
  }

  lemma SameTraceKeepsStages(s: State, t: State, f: nat, fl: Flight)
    requires StagesOk(s) && f < |s.flights| && t.flights == s.flights[f := fl] && t.trace == s.trace
    requires Progress(fl) == Progress(s.flights[f])
    ensures StagesOk(t)
  {
    forall g | 0 <= g < |t.flights| ensures StagesOf(t.trace, g) == Progress(t.flights[g]) {
      assert StagesOf(s.trace, g) == Progress(s.flights[g]);
    }
  }

  lemma EffectKeepsStages(s: State, t: State, f: nat, fl: Flight, e: Effect)
    requires StagesOk(s) && f < |s.flights| && t.flights == s.flights[f := fl] && t.trace == s.trace + [e]
    requires e.flight == f && Progress(fl) == Progress(s.flights[f]) + [StageOf(e.deed)]
    ensures StagesOk(t)
  {
    forall g | 0 <= g < |t.flights| ensures StagesOf(t.trace, g) == Progress(t.flights[g]) {
      StagesSnoc(s.trace, e, g);
      assert StagesOf(s.trace, g) == Progress(s.flights[g]);
    }
  }

  lemma StagesKept(s: State, t: State, f: nat, fl: Flight, effects: seq<Effect>, entries: seq<Entry>)
    requires StagesOk(s) && StepOf(s, t, f, fl, effects, entries)
    requires Progress(fl) == Progress(s.flights[f]) + if effects == [] then [] else [StageOf(effects[0].deed)]
    ensures StagesOk(t)
  {
    if effects == [] {
      assert t.trace == s.trace;
      SameTraceKeepsStages(s, t, f, fl);
    } else {
      assert effects == [effects[0]];
      EffectKeepsStages(s, t, f, fl, effects[0]);
    }
  }

  lemma FlightsKept(s: State, t: State, f: nat, fl: Flight, effects: seq<Effect>, entries: seq<Entry>)
    requires FlightsOk(s) && TraceOk(s) && StepOf(s, t, f, fl, effects, entries)
    requires FlightOk(t.origins, t.charges, t.ledger, fl)
    requires effects != [] ==> EffectOk(t.origins, t.charges, t.ledger, effects[0])
    ensures FlightsOk(t) && TraceOk(t)
  {
    GrowthKeeps(s, t);
    forall i | 0 <= i < |t.trace| ensures EffectOk(t.origins, t.charges, t.ledger, t.trace[i]) {
      if i == |s.trace| { assert t.trace[i] == effects[0]; }
    }
  }

  /* ---------- a new row, a new flight ---------- */

  lemma OldRowKept(s: State, t: State, tx: nat)
    requires tx < |s.db.rows| && RowCoherent(s, tx) && StatusRecorded(s, tx)
    requires s.db.rows <= t.db.rows && t.db.logs == s.db.logs
    requires s.origins <= t.origins && t.charges == s.charges && t.ledger == s.ledger
    ensures RowCoherent(t, tx) && StatusRecorded(t, tx)
  {
  }

  lemma NewRowOk(s: State, o: Origin)
    requires History(s)
    ensures var t := DoPay(s, o); RowCoherent(t, |s.db.rows|) && StatusRecorded(t, |s.db.rows|)
  {
    NothingAttached(s);
    NoEntries(s.ledger, |s.db.rows|);
  }

  lemma RowsAfterPay(s: State, t: State)
    requires RowsCoherent(s) && StatusesRecorded(s)
    requires |t.db.rows| == |s.db.rows| + 1 && s.db.rows <= t.db.rows && t.db.logs == s.db.logs
    requires s.origins <= t.origins && t.charges == s.charges && t.ledger == s.ledger
    requires RowCoherent(t, |s.db.rows|) && StatusRecorded(t, |s.db.rows|)
    ensures RowsCoherent(t) && StatusesRecorded(t)
  {
    forall tx | 0 <= tx < |s.db.rows| ensures RowCoherent(t, tx) && StatusRecorded(t, tx) {
      assert RowCoherent(s, tx) && StatusRecorded(s, tx);
      OldRowKept(s, t, tx);
    }
  }

  lemma PayKeepsTables(s: State, o: Origin)
    requires History(s) && RowsCoherent(s) && StatusesRecorded(s)
    ensures History(DoPay(s, o)) && RowsCoherent(DoPay(s, o)) && StatusesRecorded(DoPay(s, o))
  {
    NewRowOk(s, o);
    RowsAfterPay(s, DoPay(s, o));
    PayKeepsHistory(s, o);
  }

  lemma PayKeepsHistory(s: State, o: Origin)
    requires History(s)
    ensures History(DoPay(s, o))
  {
  }

  lemma PayKeepsInv(s: State, o: Origin)
    requires Inv(s)
    ensures Inv(DoPay(s, o))
  {
    PayKeepsTables(s, o);
    GrowthKeeps(s, DoPay(s, o));
    SameBalance(s, DoPay(s, o));
  }

  lemma SameBalance(s: State, t: State)
    requires AllBalanced(s)
    requires t.ledger == s.ledger && t.trace == s.trace && t.flights == s.flights
    ensures AllBalanced(t)
  {
    forall tx: nat ensures Balanced(t, tx) {
      assert Balanced(s, tx);
    }
  }

  /** Nothing in the ledger or the log table is about the next transaction id. */
  lemma NothingAttached(s: State)
    requires History(s)
    ensures Attached(s.db.logs, |s.db.rows|) == []
    ensures forall i :: 0 <= i < |s.ledger| ==> s.ledger[i].tx != |s.db.rows|
  {
    var n := |s.db.rows|;
    forall i | 0 <= i < |s.ledger| ensures s.ledger[i].tx < n {
      assert EntryOk(s.charges, s.ledger[i]);
      assert ChargeOk(s.origins, s.charges[s.ledger[i].charge]);
    }
    var ids := Attached(s.db.logs, n);
    assert ids != [] ==> ids[0] in ids;
    AttachedAreTheLinked(s.db.logs, n);
  }

  lemma {:induction false} NoEntries(ledger: seq<Entry>, tx: nat)
    requires forall i :: 0 <= i < |ledger| ==> ledger[i].tx != tx
    ensures LastStatus(ledger, tx) == PENDING && !CalledBack(ledger, tx)
  {
    if ledger != [] {
      NoEntries(ledger[..|ledger| - 1], tx);
    }
  }

  /** Flights that count on neither side of the balance. */
  ghost predicate Uncounted(fl: Flight) {
    !fl.Crediting? && !fl.Uncredited? && !fl.Notifying? && !fl.Unnotified?
  }

  lemma NewFlightBalances(s: State, t: State, fl: Flight)
    requires AllBalanced(s) && Uncounted(fl)
    requires t.ledger == s.ledger && t.trace == s.trace && t.flights == s.flights + [fl]
    ensures AllBalanced(t)
  {
    forall tx: nat ensures Balanced(t, tx) {
      assert Balanced(s, tx);
      CountSnoc(s.flights, fl, AwaitsCredit(tx));
      CountSnoc(s.flights, fl, AwaitsPush(tx));
    }
  }

  lemma NewFlightKeepsEffects(s: State, t: State, fl: Flight)
    requires FlightsOk(s) && TraceOk(s) && StagesOk(s)
    requires t.trace == s.trace && t.flights == s.flights + [fl]
    requires t.ledger == s.ledger && t.origins == s.origins && t.charges == s.charges
    requires FlightOk(s.origins, s.charges, s.ledger, fl) && Progress(fl) == []
    ensures FlightsOk(t) && TraceOk(t) && StagesOk(t)
  {
    NoStages(s.trace, |s.flights|);
    forall f | 0 <= f < |t.flights| ensures StagesOf(t.trace, f) == Progress(t.flights[f]) {
      if f < |s.flights| {
        assert t.flights[f] == s.flights[f];
      }
    }
  }

  lemma NewFlightKeepsInv(s: State, fl: Flight)
    requires Inv(s)
    requires fl.Charging? || fl.Received?
    requires FlightOk(s.origins, s.charges, s.ledger, fl)
    ensures Inv(s.(flights := s.flights + [fl]))
  {
    var t := s.(flights := s.flights + [fl]);
    SameTables(s, t);
    NewFlightKeepsEffects(s, t, fl);
    NewFlightBalances(s, t, fl);
  }

  /* ---------- steps of a flight that leave the tables alone ---------- */

  lemma SameTables(s: State, t: State)
    requires History(s) && RowsCoherent(s) && StatusesRecorded(s)
    requires t.db == s.db && t.ledger == s.ledger && t.origins == s.origins && t.charges == s.charges
    ensures History(t) && RowsCoherent(t) && StatusesRecorded(t)
  {
    forall tx | 0 <= tx < |t.db.rows| ensures RowCoherent(t, tx) && StatusRecorded(t, tx) {
      assert RowCoherent(s, tx) && StatusRecorded(s, tx);
    }
  }

  /** Flight `f` becomes `fl` without a save. */
  function QuietStep(s: State, f: nat, fl: Flight, effects: seq<Effect>): State
    requires f < |s.flights|
  {
    Put(s.(trace := s.trace + effects), f, fl)
  }

  lemma QuietStepKeepsInv(s: State, f: nat, fl: Flight, effects: seq<Effect>)
    requires Inv(s) && f < |s.flights|
    requires |effects| <= 1 && forall i :: 0 <= i < |effects| ==> effects[i].flight == f
    requires FlightOk(s.origins, s.charges, s.ledger, fl)
    requires effects != [] ==> EffectOk(s.origins, s.charges, s.ledger, effects[0])
    requires Progress(fl) == Progress(s.flights[f]) + if effects == [] then [] else [StageOf(effects[0].deed)]
    requires forall tx: nat :: StepBalances(s.flights[f], fl, effects, [], tx)
    ensures Inv(QuietStep(s, f, fl, effects))
  {
    var t := QuietStep(s, f, fl, effects);
    assert t.ledger == s.ledger + [];
    SameTables(s, t);
    FlightsKept(s, t, f, fl, effects, []);
    StagesKept(s, t, f, fl, effects, []);
    BalanceKept(s, t, f, fl, effects, []);
  }

  lemma WithoutEffects(s: State, f: nat, fl: Flight)
    requires f < |s.flights|
    ensures QuietStep(s, f, fl, []) == Put(s, f, fl)
  {
  }

  lemma FailureIsOk(s: State, f: nat)
    requires FlightsOk(s) && f < |s.flights|
    ensures FlightOk(s.origins, s.charges, s.ledger, Failed(s.flights[f]))
    ensures Progress(Failed(s.flights[f])) == Progress(s.flights[f])
  {
  }

  lemma FailureBalances(fl: Flight)
    ensures forall tx: nat :: StepBalances(fl, Failed(fl), [], [], tx)
  {
  }

  lemma FailKeepsInv(s: State, f: nat)
    requires Inv(s) && f < |s.flights|
    ensures Inv(Put(s, f, Failed(s.flights[f])))
  {
    var fl := Failed(s.flights[f]);
    FailureIsOk(s, f);
    FailureBalances(s.flights[f]);
    WithoutEffects(s, f, fl);
    QuietStepKeepsInv(s, f, fl, []);
  }

  lemma NothingCounted(was: Flight, fl: Flight, entries: seq<Entry>)
    requires Uncounted(was) && Uncounted(fl)
    requires entries != [] ==> entries[0].channel != WEBHOOK || entries[0].status != SUCCESSFUL
    ensures forall tx: nat :: StepBalances(was, fl, [], entries, tx)
  {
  }

  lemma LoadedIsOk(s: State, call: Call, tx: nat)
    requires History(s) && RowsCoherent(s) && CallOk(s.charges, call)
    requires tx < |s.db.rows| && s.db.rows[tx].source == Some(s.charges[call.charge].sourceId)
    ensures FlightOk(s.origins, s.charges, s.ledger, Loaded(call, tx, s.db.rows[tx], Attached(s.db.logs, tx)))
  {
    assert RowCoherent(s, tx);
    SourceSitsOnItsRow(s, call.charge, tx);
  }

  lemma DeliverReadKeepsInv(s: State, f: nat)
    requires Inv(s) && f < |s.flights| && s.flights[f].Received?
    ensures Inv(DoDeliverRead(s, f))
  {
    var call := s.flights[f].call;
    assert FlightOk(s.origins, s.charges, s.ledger, s.flights[f]);
    var found := FindBySource(s.db.rows, s.charges[call.charge].sourceId);
    var fl := Ignored(call);
    if found.Some? {
      LoadedIsOk(s, call, found.value);
      fl := Loaded(call, found.value, s.db.rows[found.value], Attached(s.db.logs, found.value));
    }
    NothingCounted(s.flights[f], fl, []);
    WithoutEffects(s, f, fl);
    QuietStepKeepsInv(s, f, fl, []);
  }

  lemma CreditBalances(call: Call, at: nat, msg: SqsMessage, f: nat)
    requires call.status == SUCCESSFUL
    ensures forall tx: nat ::
      StepBalances(Crediting(call, at, msg), Notifying(call, at, msg), [Effect(f, at, Sent(msg))], [], tx)
  {
  }

  lemma CreditIsOk(s: State, call: Call, tx: nat, msg: SqsMessage, f: nat)
    requires FlightOk(s.origins, s.charges, s.ledger, Crediting(call, tx, msg))
    ensures EffectOk(s.origins, s.charges, s.ledger, Effect(f, tx, Sent(msg)))
  {
  }

  lemma DeliverSqsKeepsInv(s: State, f: nat)
    requires Inv(s) && f < |s.flights| && s.flights[f].Crediting?
    ensures Inv(DoDeliverSqs(s, f))
  {
    var Crediting(call, tx, msg) := s.flights[f];
    assert FlightOk(s.origins, s.charges, s.ledger, s.flights[f]);
    CreditIsOk(s, call, tx, msg, f);
    CreditBalances(call, tx, msg, f);
    QuietStepKeepsInv(s, f, Notifying(call, tx, msg), [Effect(f, tx, Sent(msg))]);
  }

  lemma PushBalances(call: Call, at: nat, msg: SqsMessage, push: Push, f: nat)
    requires push.status == call.status
    ensures forall tx: nat :: StepBalances(Notifying(call, at, msg), Unnotified(call, at), [], [], tx)
    ensures forall tx: nat ::
      StepBalances(Notifying(call, at, msg), Completed(call, at), [Effect(f, at, Pushed(push))], [], tx)
  {
  }

  lemma PushIsOk(s: State, call: Call, tx: nat, msg: SqsMessage, f: nat)
    requires FlightOk(s.origins, s.charges, s.ledger, Notifying(call, tx, msg))
    requires PreparePush(call.status, msg).Ok?
    ensures EffectOk(s.origins, s.charges, s.ledger, Effect(f, tx, Pushed(PreparePush(call.status, msg).value)))
  {
    var entry := Entry(tx, call.charge, WEBHOOK, call.status, call.eventKey);
    var i :| 0 <= i < |s.ledger| && s.ledger[i] == entry;
    assert HookEntry(s.ledger[i], tx, call.status);
  }

  lemma RefusedPushKeepsInv(s: State, f: nat)
    requires Inv(s) && f < |s.flights| && s.flights[f].Notifying?
    ensures Inv(Put(s, f, Unnotified(s.flights[f].call, s.flights[f].tx)))
  {
    var Notifying(call, tx, msg) := s.flights[f];
    assert FlightOk(s.origins, s.charges, s.ledger, s.flights[f]);
    PushBalances(call, tx, msg, Push(call.status, "", tx, "", ""), f);
    WithoutEffects(s, f, Unnotified(call, tx));
    QuietStepKeepsInv(s, f, Unnotified(call, tx), []);
  }

  lemma CompletedIsOk(s: State, f: nat)
    requires FlightsOk(s) && f < |s.flights| && s.flights[f].Notifying?
    ensures
      var fl := Completed(s.flights[f].call, s.flights[f].tx);
      && FlightOk(s.origins, s.charges, s.ledger, fl)
      && Progress(fl) == Progress(s.flights[f]) + [ToNotify]
  {
  }

  lemma PushKeepsInv(s: State, f: nat, push: Push)
    requires Inv(s) && f < |s.flights| && s.flights[f].Notifying?
    requires push.status == s.flights[f].call.status
    requires EffectOk(s.origins, s.charges, s.ledger, Effect(f, s.flights[f].tx, Pushed(push)))
    ensures
      var Notifying(call, tx, _) := s.flights[f];
      Inv(QuietStep(s, f, Completed(call, tx), [Effect(f, tx, Pushed(push))]))
  {
    var Notifying(call, tx, msg) := s.flights[f];
    CompletedIsOk(s, f);
    PushBalances(call, tx, msg, push, f);
    QuietStepKeepsInv(s, f, Completed(call, tx), [Effect(f, tx, Pushed(push))]);
  }

  lemma DeliverNotifyKeepsInv(s: State, f: nat)
    requires Inv(s) && f < |s.flights| && s.flights[f].Notifying?
    ensures Inv(DoDeliverNotify(s, f))
  {
    var Notifying(call, tx, msg) := s.flights[f];
    var prepared := PreparePush(call.status, msg);
    if prepared.Err? {
      RefusedPushKeepsInv(s, f);
    } else {
      assert FlightOk(s.origins, s.charges, s.ledger, s.flights[f]);
      PushIsOk(s, call, tx, msg, f);
      PushKeepsInv(s, f, prepared.value);
    }
  }

  lemma NewChargeKeepsTables(s: State, t: State, charge: Charge)
    requires History(s) && RowsCoherent(s) && StatusesRecorded(s)
    requires ChargeOk(s.origins, charge) && ProviderAccepts(s.charges, charge.id, charge.sourceId)
    requires t.db == s.db && t.ledger == s.ledger && t.origins == s.origins && t.charges == s.charges + [charge]
    ensures History(t) && RowsCoherent(t) && StatusesRecorded(t)
  {
    forall tx | 0 <= tx < |t.db.rows| ensures RowCoherent(t, tx) && StatusRecorded(t, tx) {
      assert RowCoherent(s, tx) && StatusRecorded(s, tx);
      CoherentGrows(s, t, tx, s.db.rows[tx], Attached(s.db.logs, tx));
    }
    forall i | 0 <= i < |t.ledger| ensures EntryOk(t.charges, t.ledger[i]) {
      assert EntryOk(s.charges, s.ledger[i]);
    }
  }

  lemma ChargeOpenKeepsInv(s: State, f: nat, id: string, qrCode: Option<string>, card: Option<string>)
    requires Inv(s) && f < |s.flights| && s.flights[f].Charging?
    requires ProviderAccepts(s.charges, id, s.flights[f].sourceId)
    ensures Inv(DoChargeOpen(s, f, id, qrCode, card))
  {
    var Charging(tx, sourceId, row) := s.flights[f];
    var t := DoChargeOpen(s, f, id, qrCode, card);
    assert FlightOk(s.origins, s.charges, s.ledger, s.flights[f]);
    var fl := Opened(tx, row, |s.charges|);
    assert t.ledger == s.ledger + [] && t.trace == s.trace + [];
    NewChargeKeepsTables(s, t, ChargeFor(tx, row, id, sourceId, qrCode, card));
    NothingCounted(s.flights[f], fl, []);
    FlightsKept(s, t, f, fl, [], []);
    StagesKept(s, t, f, fl, [], []);
    BalanceKept(s, t, f, fl, [], []);
  }

  /* ---------- the two saves ---------- */

  /** The tables after a save that attaches its log to logs about the same charge. */
  lemma SaveKeepsTables(s: State, t: State, tx: nat, row: Row, kept: seq<nat>, added: Log, entry: Entry)
    requires History(s) && RowsCoherent(s) && StatusesRecorded(s) && SavedInto(s, t, tx, row, kept, added, entry)
    requires EntryOk(s.charges, entry)
    requires FixedBy(s.origins[tx], row) && SetsStatus(s.db.rows[tx], row, kept, entry)
    requires Increasing(kept)
    requires kept != [] <==> entry.channel == WEBHOOK
    requires AboutCharge(s.charges, s.ledger, tx, row, kept, entry.charge)
    ensures History(t) && RowsCoherent(t) && StatusesRecorded(t)
  {
    SaveKeepsHistory(s, t, tx, row, kept, added, entry);
    SaveKeepsRows(s, t, tx, row, kept, added, entry);
    SaveKeepsStatuses(s, t, tx, row, kept, added, entry);
  }

  lemma CommitFacts(s: State, f: nat, now: int)
    requires Inv(s) && f < |s.flights| && s.flights[f].Opened?
    ensures
      var Opened(tx, loaded, k) := s.flights[f];
      && tx < |s.db.rows| && k < |s.charges| && s.charges[k].txId == tx && tx < |s.origins|
      && FixedBy(s.origins[tx], ChargedRow(s.db.rows[tx], loaded, s.charges[k]))
      && !SourceTaken(s.db.rows, tx, Some(s.charges[k].sourceId))
  {
    var Opened(tx, loaded, k) := s.flights[f];
    assert FlightOk(s.origins, s.charges, s.ledger, s.flights[f]);
    assert RowCoherent(s, tx);
    NoSourceConflict(s, k);
  }

  lemma ChargeCommitKeepsInv(s: State, f: nat, now: int)
    requires Inv(s) && f < |s.flights| && s.flights[f].Opened?
    ensures Inv(DoChargeCommit(s, f, now))
  {
    var Opened(tx, loaded, k) := s.flights[f];
    CommitFacts(s, f, now);
    var row := ChargedRow(s.db.rows[tx], loaded, s.charges[k]);
    var t := DoChargeCommit(s, f, now);
    var entry := Entry(tx, k, API, PENDING, CHARGE_CREATE);
    SaveKeepsTables(s, t, tx, row, [], ApiLog(now), entry);
    assert t.trace == s.trace + [];
    NothingCounted(s.flights[f], ChargeEnded, [entry]);
    FlightsKept(s, t, f, ChargeEnded, [], [entry]);
    StagesKept(s, t, f, ChargeEnded, [], [entry]);
    BalanceKept(s, t, f, ChargeEnded, [], [entry]);
  }

  lemma AfterSaveOk(s: State, t: State, call: Call, tx: nat, row: Row)
    requires History(s) && Grows(s, t)
    requires CallSaved(t.charges, t.ledger, call, tx) && call.charge < |s.charges|
    requires tx < |s.origins| && FixedBy(s.origins[tx], row)
    ensures FlightOk(t.origins, t.charges, t.ledger, AfterSave(call, tx, row, t.charges[call.charge]))
  {
  }

  /** A loaded row was found by the source of the delivered charge, so its logs are all about that charge. */
  lemma SnapshotIsAboutItsCharge(s: State, call: Call, tx: nat, row: Row, ids: seq<nat>)
    requires History(s)
    requires FlightOk(s.origins, s.charges, s.ledger, Loaded(call, tx, row, ids))
    ensures ids != [] && AboutCharge(s.charges, s.ledger, tx, row, ids, call.charge)
    ensures forall i :: i in ids ==> i < |s.ledger| && s.ledger[i].tx == tx
  {
  }

  lemma SaveBalances(call: Call, at: nat, row: Row, charge: Charge, ids: seq<nat>, loaded: Row, f: nat)
    ensures forall tx: nat ::
      StepBalances(Loaded(call, at, loaded, ids), AfterSave(call, at, row, charge), [Effect(f, at, Saved(call.status))],
                   [Entry(at, call.charge, WEBHOOK, call.status, call.eventKey)], tx)
  {
  }

  lemma CallbackFacts(s: State, f: nat, now: int)
    requires Inv(s) && f < |s.flights| && s.flights[f].Loaded?
    ensures
      var Loaded(call, tx, loaded, ids) := s.flights[f];
      && tx < |s.db.rows| && call.charge < |s.charges| && tx < |s.origins|
      && CallOk(s.charges, call)
      && s.charges[call.charge].txId == tx
      && Increasing(ids) && ids != []
      && var row := CalledBackRow(loaded, s.charges[call.charge], call.status, now);
      && FixedBy(s.origins[tx], row)
      && AboutCharge(s.charges, s.ledger, tx, row, ids, call.charge)
      && !SourceTaken(s.db.rows, tx, row.source)
  {
    var Loaded(call, tx, loaded, ids) := s.flights[f];
    assert FlightOk(s.origins, s.charges, s.ledger, s.flights[f]);
    SnapshotIsAboutItsCharge(s, call, tx, loaded, ids);
    NoSourceConflict(s, call.charge);
  }

  /** Flights, effects and balance after a callback's save. */
  lemma SaveKeepsEffects(s: State, t: State, f: nat, entry: Entry, fl: Flight, call: Call)
    requires FlightsOk(s) && TraceOk(s) && StagesOk(s) && AllBalanced(s)
    requires StepOf(s, t, f, fl, [Effect(f, entry.tx, Saved(call.status))], [entry])
    requires HookEntry(entry, entry.tx, call.status)
    requires FlightOk(t.origins, t.charges, t.ledger, fl)
    requires Progress(s.flights[f]) == [] && Progress(fl) == [ToSave]
    requires forall tx: nat :: StepBalances(s.flights[f], fl, [Effect(f, entry.tx, Saved(call.status))], [entry], tx)
    ensures FlightsOk(t) && TraceOk(t) && StagesOk(t) && AllBalanced(t)
  {
    var effects := [Effect(f, entry.tx, Saved(call.status))];
    assert t.ledger[|s.ledger|] == entry;
    FlightsKept(s, t, f, fl, effects, [entry]);
    StagesKept(s, t, f, fl, effects, [entry]);
    BalanceKept(s, t, f, fl, effects, [entry]);
  }

  /** What a callback's save does to the state. */
  lemma CallbackStep(s: State, f: nat, now: int)
    requires Inv(s) && f < |s.flights| && s.flights[f].Loaded?
    ensures
      var Loaded(call, tx, loaded, ids) := s.flights[f];
      var t := DoDeliverSave(s, f, now);
      && tx < |s.db.rows| && call.charge < |s.charges|
      && var row := CalledBackRow(loaded, s.charges[call.charge], call.status, now);
      var entry := Entry(tx, call.charge, WEBHOOK, call.status, call.eventKey);
      && SavedInto(s, t, tx, row, ids, WebhookLog(call, now), entry)
      && StepOf(s, t, f, AfterSave(call, tx, row, s.charges[call.charge]), [Effect(f, tx, Saved(call.status))], [entry])
  {
    CallbackFacts(s, f, now);
  }

  lemma CallbackKeepsTables(s: State, t: State, f: nat, now: int)
    requires Inv(s) && f < |s.flights| && s.flights[f].Loaded? && t == DoDeliverSave(s, f, now)
    ensures History(t) && RowsCoherent(t) && StatusesRecorded(t)
  {
    var Loaded(call, tx, loaded, ids) := s.flights[f];
    CallbackFacts(s, f, now);
    CallbackStep(s, f, now);
    var row := CalledBackRow(loaded, s.charges[call.charge], call.status, now);
    SaveKeepsTables(s, t, tx, row, ids, WebhookLog(call, now), Entry(tx, call.charge, WEBHOOK, call.status, call.eventKey));
  }

  lemma AfterSaveProgress(call: Call, tx: nat, row: Row, charge: Charge)
    ensures Progress(AfterSave(call, tx, row, charge)) == [ToSave]
  {
  }

  lemma CallbackIsSaved(s: State, t: State, f: nat, now: int)
    requires Inv(s) && f < |s.flights| && s.flights[f].Loaded? && t == DoDeliverSave(s, f, now)
    ensures
      var Loaded(call, tx, loaded, ids) := s.flights[f];
      && call.charge < |s.charges| && CallSaved(t.charges, t.ledger, call, tx) && Grows(s, t) && t.charges == s.charges
      && t.flights == s.flights[f := AfterSave(call, tx, CalledBackRow(loaded, s.charges[call.charge], call.status, now),
                                               s.charges[call.charge])]
  {
    var Loaded(call, tx, loaded, ids) := s.flights[f];
    CallbackFacts(s, f, now);
    CallbackStep(s, f, now);
    assert t.ledger[|s.ledger|] == Entry(tx, call.charge, WEBHOOK, call.status, call.eventKey);
  }

  lemma AfterCallbackOk(s: State, t: State, f: nat, now: int)
    requires Inv(s) && f < |s.flights| && s.flights[f].Loaded? && t == DoDeliverSave(s, f, now)
    ensures FlightOk(t.origins, t.charges, t.ledger, t.flights[f])
    ensures Progress(t.flights[f]) == [ToSave]
  {
    var Loaded(call, tx, loaded, ids) := s.flights[f];
    CallbackFacts(s, f, now);
    CallbackIsSaved(s, t, f, now);
    var row := CalledBackRow(loaded, s.charges[call.charge], call.status, now);
    AfterSaveOk(s, t, call, tx, row);
    AfterSaveProgress(call, tx, row, s.charges[call.charge]);
  }

  lemma CallbackKeepsEffects(s: State, t: State, f: nat, now: int)
    requires Inv(s) && f < |s.flights| && s.flights[f].Loaded? && t == DoDeliverSave(s, f, now)
    ensures FlightsOk(t) && TraceOk(t) && StagesOk(t) && AllBalanced(t)
  {
    var Loaded(call, tx, loaded, ids) := s.flights[f];
    CallbackStep(s, f, now);
    AfterCallbackOk(s, t, f, now);
    var charge := s.charges[call.charge];
    SaveBalances(call, tx, CalledBackRow(loaded, charge, call.status, now), charge, ids, loaded, f);
    SaveKeepsEffects(s, t, f, Entry(tx, call.charge, WEBHOOK, call.status, call.eventKey), t.flights[f], call);
  }

  lemma DeliverSaveKeepsInv(s: State, f: nat, now: int)
    requires Inv(s) && f < |s.flights| && s.flights[f].Loaded?
    ensures Inv(DoDeliverSave(s, f, now))
  {
    CallbackKeepsTables(s, DoDeliverSave(s, f, now), f, now);
    CallbackKeepsEffects(s, DoDeliverSave(s, f, now), f, now);
  }

  /* ---------- all steps, all runs ---------- */

  lemma ChargeReadKeepsInv(s: State, tx: nat, sourceId: string, retrieved: Option<string>)
    requires Inv(s) && tx < |s.db.rows| && Chargeable(sourceId, retrieved)
    ensures Inv(s.(flights := s.flights + [Charging(tx, sourceId, s.db.rows[tx])]))
  {
    ChargeableExactly(sourceId, retrieved);
    assert RowCoherent(s, tx);
    NewFlightKeepsInv(s, Charging(tx, sourceId, s.db.rows[tx]));
  }

  lemma DeliverKeepsInv(s: State, k: nat, status: string, agent: Option<string>, eventKey: Option<string>, found: bool)
    requires Inv(s) && k < |s.charges|
    ensures Inv(DoDeliver(s, k, status, agent, eventKey, found))
  {
    if ValidateChargeEvent(Some(s.charges[k].id), agent, eventKey, s.version, found).Ok? {
      AcceptsExactly(Some(s.charges[k].id), agent, eventKey, s.version, found);
      NewFlightKeepsInv(s, Received(Call(k, status, eventKey.value)));
    }
  }

  lemma ChargeStepKeepsInv(s: State, a: Action)
    requires Inv(s)
    requires a.ChargeRead? || a.ChargeOpen? || a.ChargeCommit?
    ensures Inv(Apply(s, a))
  {
    var t := Apply(s, a);
    if t != s {
      match a
      case ChargeRead(tx, sourceId, retrieved) =>
        assert t == s.(flights := s.flights + [Charging(tx, sourceId, s.db.rows[tx])]);
        ChargeReadKeepsInv(s, tx, sourceId, retrieved);
      case ChargeOpen(f, id, qrCode, card) =>
        assert t == DoChargeOpen(s, f, id, qrCode, card);
        ChargeOpenKeepsInv(s, f, id, qrCode, card);
      case ChargeCommit(f, now) =>
        assert t == DoChargeCommit(s, f, now);
        ChargeCommitKeepsInv(s, f, now);
    }
  }

  lemma CallbackStepKeepsInv(s: State, a: Action)
    requires Inv(s)
    requires a.DeliverRead? || a.DeliverSave? || a.DeliverSqs? || a.DeliverNotify?
    ensures Inv(Apply(s, a))
  {
    var t := Apply(s, a);
    if t != s {
      match a
      case DeliverRead(f) =>
        assert t == DoDeliverRead(s, f);
        DeliverReadKeepsInv(s, f);
      case DeliverSave(f, now) =>
        assert t == DoDeliverSave(s, f, now);
        DeliverSaveKeepsInv(s, f, now);
      case DeliverSqs(f) =>
        assert t == DoDeliverSqs(s, f);
        DeliverSqsKeepsInv(s, f);
      case DeliverNotify(f) =>
        assert t == DoDeliverNotify(s, f);
        DeliverNotifyKeepsInv(s, f);
    }
  }

  lemma StepKeepsInv(s: State, a: Action)
    requires Inv(s)
    ensures Inv(Apply(s, a))
  {
    var t := Apply(s, a);
    if t != s {
      match a
      case Pay(userRefId, productId, paymentType, package, now) =>
        assert t == DoPay(s, Origin(userRefId, productId, paymentType, package.value, now));
        PayKeepsInv(s, Origin(userRefId, productId, paymentType, package.value, now));
      case Deliver(k, status, agent, eventKey, found) =>
        assert t == DoDeliver(s, k, status, agent, eventKey, found);
        DeliverKeepsInv(s, k, status, agent, eventKey, found);
      case Fail(f) =>
        assert t == Put(s, f, Failed(s.flights[f]));
        FailKeepsInv(s, f);
      case _ =>
        if a.ChargeRead? || a.ChargeOpen? || a.ChargeCommit? {
          ChargeStepKeepsInv(s, a);
        } else {
          CallbackStepKeepsInv(s, a);
        }
    }
  }

  lemma {:induction false} RunKeepsInv(s: State, actions: seq<Action>)
    requires Inv(s)
    ensures Inv(Exec(s, actions))
  {
    if actions != [] {
      var n := |actions| - 1;
      RunKeepsInv(s, actions[..n]);
      StepKeepsInv(Exec(s, actions[..n]), actions[n]);
    }
  }

  /** The invariant holds after every list of actions, in whatever order they interleave. */
  lemma ReachedSatisfiesInv(version: string, actions: seq<Action>)
    ensures Inv(Reached(version, actions))
  {
    RunKeepsInv(Init(version), actions);
  }
}
