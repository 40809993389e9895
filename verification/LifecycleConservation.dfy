/** Conservation over runs, from accepted deliveries through log rows and credits to notifications.

    Deliveries are counted where they are accepted, in the state they arrive in. A class of calls is a predicate on
    `Call`; the balances hold for every class, so they hold call by call, charge by charge and transaction by transaction. */
module LifecycleConservation {
  import opened Results
  import opened Text
  import opened Packages
  import opened TransactionTables
  import opened Validation
  import opened Notifications
  import opened Counting
  import opened Lifecycle
  import opened LifecycleInvariant
  import opened LifecycleSteps
  import opened LifecycleTheorems

  /* ---------- accepted deliveries ---------- */

  /** The call an action starts: a delivery that passes every check in the state it arrives in. */
  function AcceptedCall(s: State, a: Action): Option<Call> {
    if && a.Deliver? && a.charge < |s.charges|
       && ValidateChargeEvent(Some(s.charges[a.charge].id), a.agent, a.eventKey, s.version, a.found).Ok?
    then
      AcceptsExactly(Some(s.charges[a.charge].id), a.agent, a.eventKey, s.version, a.found);
      Some(Call(a.charge, a.status, a.eventKey.value))
    else None
  }

  predicate Accepts(s: State, a: Action, p: Call -> bool) {
    AcceptedCall(s, a).Some? && p(AcceptedCall(s, a).value)
  }

  /** The accepted deliveries of a run whose calls are of the given class. */
  function AcceptedIn(version: string, actions: seq<Action>, p: Call -> bool): nat {
    if actions == [] then 0
    else
      var earlier := actions[..|actions| - 1];
      AcceptedIn(version, earlier, p) + if Accepts(Reached(version, earlier), actions[|actions| - 1], p) then 1 else 0
  }

  /** The class of one call. */
  function Exactly(call: Call): Call -> bool {
    (c: Call) => c == call
  }

  /** Webhook logs of calls of the given class. */
  function RecordOf(p: Call -> bool): Entry -> bool {
    (e: Entry) => e.channel == WEBHOOK && p(Call(e.charge, e.status, e.eventKey))
  }

  /** Accepted calls without a log: waiting for it, failed before it, or ignored because no row had their source. */
  function Unrecorded(p: Call -> bool): Flight -> bool {
    (fl: Flight) => (fl.Received? || fl.Loaded? || fl.Ignored?) && p(fl.call)
  }

  ghost function RecordedOrNot(s: State, p: Call -> bool): nat {
    Count(s.ledger, RecordOf(p)) + Count(s.flights, Unrecorded(p))
  }

  lemma FlightMoves(s: State, t: State, f: nat, fl: Flight, entries: seq<Entry>, p: Call -> bool)
    requires f < |s.flights| && t.flights == s.flights[f := fl]
    requires |entries| <= 1 && t.ledger == s.ledger + entries
    requires Ones(entries, RecordOf(p)) + One(Unrecorded(p)(fl)) == One(Unrecorded(p)(s.flights[f]))
    ensures RecordedOrNot(t, p) == RecordedOrNot(s, p)
  {
    CountMore(s.ledger, entries, RecordOf(p));
    CountUpdate(s.flights, f, fl, Unrecorded(p));
  }

  lemma FlightStarts(s: State, t: State, fl: Flight, p: Call -> bool)
    requires t.flights == s.flights + [fl] && t.ledger == s.ledger
    ensures RecordedOrNot(t, p) == RecordedOrNot(s, p) + One(Unrecorded(p)(fl))
  {
    CountSnoc(s.flights, fl, Unrecorded(p));
  }

  /** A step that turns flight `f` into another and saves nothing. */
  lemma QuietMove(s: State, t: State, f: nat, fl: Flight, p: Call -> bool)
    requires f < |s.flights| && t.flights == s.flights[f := fl] && t.ledger == s.ledger
    requires Unrecorded(p)(fl) == Unrecorded(p)(s.flights[f])
    ensures RecordedOrNot(t, p) == RecordedOrNot(s, p)
  {
    assert t.ledger == s.ledger + [];
    FlightMoves(s, t, f, fl, [], p);
  }

  lemma ChargeStepRecords(s: State, a: Action, p: Call -> bool)
    requires a.ChargeRead? || a.ChargeOpen? || a.ChargeCommit?
    ensures RecordedOrNot(Apply(s, a), p) == RecordedOrNot(s, p)
  {
    var t := Apply(s, a);
    if t != s {
      if a.ChargeRead? {
        FlightStarts(s, t, Charging(a.tx, a.sourceId, s.db.rows[a.tx]), p);
      } else if a.ChargeOpen? {
        QuietMove(s, t, a.flight, t.flights[a.flight], p);
      } else {
        var Opened(tx, _, k) := s.flights[a.flight];
        var entries := if t.ledger == s.ledger then [] else [Entry(tx, k, API, PENDING, CHARGE_CREATE)];
        FlightMoves(s, t, a.flight, ChargeEnded, entries, p);
      }
    }
  }

  lemma DeliverRecords(s: State, a: Action, p: Call -> bool)
    requires a.Deliver?
    ensures RecordedOrNot(Apply(s, a), p) == RecordedOrNot(s, p) + One(Accepts(s, a, p))
  {
    if AcceptedCall(s, a).Some? {
      FlightStarts(s, Apply(s, a), Received(AcceptedCall(s, a).value), p);
    }
  }

  lemma SaveRecords(s: State, f: nat, now: int, p: Call -> bool)
    requires f < |s.flights| && s.flights[f].Loaded?
    ensures RecordedOrNot(DoDeliverSave(s, f, now), p) == RecordedOrNot(s, p)
  {
    var Loaded(call, tx, row, ids) := s.flights[f];
    var t := DoDeliverSave(s, f, now);
    if t.ledger == s.ledger {
      QuietMove(s, t, f, t.flights[f], p);
    } else {
      assert Call(call.charge, call.status, call.eventKey) == call;
      FlightMoves(s, t, f, t.flights[f], [Entry(tx, call.charge, WEBHOOK, call.status, call.eventKey)], p);
    }
  }

  lemma CallbackStepRecords(s: State, a: Action, p: Call -> bool)
    requires a.DeliverRead? || a.DeliverSave? || a.DeliverSqs? || a.DeliverNotify? || a.Fail?
    ensures RecordedOrNot(Apply(s, a), p) == RecordedOrNot(s, p)
  {
    var t := Apply(s, a);
    if t != s {
      if a.DeliverSave? {
        SaveRecords(s, a.flight, a.now, p);
      } else {
        QuietMove(s, t, a.flight, t.flights[a.flight], p);
      }
    }
  }

  lemma StepRecords(s: State, a: Action, p: Call -> bool)
    ensures RecordedOrNot(Apply(s, a), p) == RecordedOrNot(s, p) + One(Accepts(s, a, p))
  {
    if a.Pay? {
    } else if a.Deliver? {
      DeliverRecords(s, a, p);
    } else if a.ChargeRead? || a.ChargeOpen? || a.ChargeCommit? {
      ChargeStepRecords(s, a, p);
    } else {
      CallbackStepRecords(s, a, p);
    }
  }

  /** One log per accepted delivery: for every class of calls, in particular for a single call, the deliveries accepted
      are the webhook logs written plus the callbacks that wait for their log or ended without one. */
  lemma {:induction false} AcceptedAreRecorded(version: string, actions: seq<Action>, p: Call -> bool)
    ensures
      var s := Reached(version, actions);
      AcceptedIn(version, actions, p) == Count(s.ledger, RecordOf(p)) + Count(s.flights, Unrecorded(p))
  {
    if actions != [] {
      var n := |actions| - 1;
      AcceptedAreRecorded(version, actions[..n], p);
      StepRecords(Reached(version, actions[..n]), actions[n], p);
    }
  }

  /* ---------- admission ---------- */

  /** A delivery of the run was accepted as `call` when the ledger had at most `size` entries. */
  ghost predicate AcceptedBefore(version: string, actions: seq<Action>, call: Call, size: nat) {
    exists j :: 0 <= j < |actions| && AcceptedAt(version, actions, call, size, j)
  }

  ghost predicate AcceptedAt(version: string, actions: seq<Action>, call: Call, size: nat, j: nat)
    requires j < |actions|
  {
    && AcceptedCall(Reached(version, actions[..j]), actions[j]) == Some(call)
    && |Reached(version, actions[..j]).ledger| <= size
  }

  lemma AcceptedGrows(version: string, actions: seq<Action>, a: Action, call: Call, size: nat, later: nat)
    requires AcceptedBefore(version, actions, call, size) && size <= later
    ensures AcceptedBefore(version, actions + [a], call, later)
  {
    var j :| 0 <= j < |actions| && AcceptedAt(version, actions, call, size, j);
    assert (actions + [a])[..j] == actions[..j];
    assert AcceptedAt(version, actions + [a], call, later, j);
  }

  ghost predicate AllAccepted(version: string, actions: seq<Action>, s: State) {
    && (forall f :: 0 <= f < |s.flights| && CallOf(s.flights[f]).Some? ==>
          AcceptedBefore(version, actions, CallOf(s.flights[f]).value, |s.ledger|))
    && (forall i :: 0 <= i < |s.ledger| && s.ledger[i].channel == WEBHOOK ==>
          AcceptedBefore(version, actions, Call(s.ledger[i].charge, s.ledger[i].status, s.ledger[i].eventKey), i))
  }

  /** Where a step's calls come from: an earlier flight, or the step itself is the accepted delivery. */
  lemma StepCalls(s: State, a: Action)
    ensures
      var t := Apply(s, a);
      forall f :: 0 <= f < |t.flights| && CallOf(t.flights[f]).Some? ==>
        || (f < |s.flights| && CallOf(s.flights[f]) == CallOf(t.flights[f]))
        || AcceptedCall(s, a) == CallOf(t.flights[f])
  {
  }

  lemma LedgerGrows(s: State, a: Action)
    ensures s.ledger <= Apply(s, a).ledger && |Apply(s, a).ledger| <= |s.ledger| + 1
    ensures Apply(s, a).version == s.version
  {
  }

  ghost predicate Carried(s: State, call: Call) {
    exists f :: 0 <= f < |s.flights| && CallOf(s.flights[f]) == Some(call)
  }

  /** The log of a step is for a call some flight already carries. */
  lemma StepEntries(s: State, a: Action, i: nat)
    requires i < |Apply(s, a).ledger| && |s.ledger| <= i
    requires Apply(s, a).ledger[i].channel == WEBHOOK
    ensures var e := Apply(s, a).ledger[i]; Carried(s, Call(e.charge, e.status, e.eventKey))
  {
    assert a.DeliverSave?;
    var call := s.flights[a.flight].call;
    assert CallOf(s.flights[a.flight]) == Some(call);
    assert Call(call.charge, call.status, call.eventKey) == call;
  }

  lemma FlightsAccepted(version: string, earlier: seq<Action>, a: Action, s: State, t: State, f: nat)
    requires s == Reached(version, earlier) && t == Apply(s, a) && AllAccepted(version, earlier, s)
    requires f < |t.flights| && CallOf(t.flights[f]).Some?
    ensures AcceptedBefore(version, earlier + [a], CallOf(t.flights[f]).value, |t.ledger|)
  {
    var actions, n, call := earlier + [a], |earlier|, CallOf(t.flights[f]).value;
    assert actions[..n] == earlier;
    StepCalls(s, a);
    LedgerGrows(s, a);
    if AcceptedCall(s, a) == Some(call) {
      assert AcceptedAt(version, actions, call, |t.ledger|, n);
    } else {
      AcceptedGrows(version, earlier, a, call, |s.ledger|, |t.ledger|);
    }
  }

  lemma EntryAccepted(version: string, earlier: seq<Action>, a: Action, s: State, e: Entry, i: nat)
    requires AllAccepted(version, earlier, s) && e.channel == WEBHOOK
    requires if i < |s.ledger| then s.ledger[i] == e
             else i == |s.ledger| && Carried(s, Call(e.charge, e.status, e.eventKey))
    ensures AcceptedBefore(version, earlier + [a], Call(e.charge, e.status, e.eventKey), i)
  {
    AcceptedGrows(version, earlier, a, Call(e.charge, e.status, e.eventKey), i, i);
  }

  lemma StepAccepted(version: string, earlier: seq<Action>, a: Action, s: State, t: State)
    requires s == Reached(version, earlier) && t == Apply(s, a) && AllAccepted(version, earlier, s)
    ensures AllAccepted(version, earlier + [a], t)
  {
    forall f | 0 <= f < |t.flights| && CallOf(t.flights[f]).Some?
      ensures AcceptedBefore(version, earlier + [a], CallOf(t.flights[f]).value, |t.ledger|)
    {
      FlightsAccepted(version, earlier, a, s, t, f);
    }
    forall i | 0 <= i < |t.ledger| && t.ledger[i].channel == WEBHOOK
      ensures AcceptedBefore(version, earlier + [a], Call(t.ledger[i].charge, t.ledger[i].status, t.ledger[i].eventKey), i)
    {
      LedgerGrows(s, a);
      if i >= |s.ledger| { StepEntries(s, a, i); }
      EntryAccepted(version, earlier, a, s, t.ledger[i], i);
    }
  }

  lemma {:induction false} RunsAccept(version: string, actions: seq<Action>)
    ensures AllAccepted(version, actions, Reached(version, actions))
  {
    if actions != [] {
      var n := |actions| - 1;
      RunsAccept(version, actions[..n]);
      StepAccepted(version, actions[..n], actions[n], Reached(version, actions[..n]), Reached(version, actions));
      assert actions[..n] + [actions[n]] == actions;
    }
  }

  lemma {:induction false} VersionIsFixed(version: string, actions: seq<Action>)
    ensures Reached(version, actions).version == version
  {
    if actions != [] {
      var n := |actions| - 1;
      VersionIsFixed(version, actions[..n]);
      LedgerGrows(Reached(version, actions[..n]), actions[n]);
    }
  }

  lemma CallWithinAcceptance(version: string, actions: seq<Action>, call: Call, i: nat)
    requires i < |Reached(version, actions).ledger| && RecordOf(Exactly(call))(Reached(version, actions).ledger[i])
    ensures 0 < Count(Reached(version, actions).ledger, RecordOf(Exactly(call))) <= AcceptedIn(version, actions, Exactly(call))
  {
    AcceptedAreRecorded(version, actions, Exactly(call));
    CountZeroExactly(Reached(version, actions).ledger, RecordOf(Exactly(call)));
  }

  /** No webhook log is written without a delivery of its own: before the log was written the run had a delivery of its
      charge, status and event key that passed every check in the state it arrived in (the provider's agent in the
      configured version, a charge event, a charge the provider had); and no call has more logs than accepted deliveries. */
  lemma NoLogWithoutAcceptance(version: string, actions: seq<Action>, i: nat)
    requires i < |Reached(version, actions).db.logs| && Reached(version, actions).db.logs[i].channel == WEBHOOK
    ensures
      var s := Reached(version, actions);
      var log := s.db.logs[i];
      && |s.ledger| == |s.db.logs|
      && (exists j ::
            && 0 <= j < |actions| && actions[j].Deliver?
            && |Reached(version, actions[..j]).db.logs| <= i
            && actions[j].charge == s.ledger[i].charge < |Reached(version, actions[..j]).charges|
            && actions[j].status == log.status
            && actions[j].eventKey == Some(log.eventKey) && IsChargeEvent(log.eventKey)
            && actions[j].agent.Some? && ToLower(actions[j].agent.value) == OMISE + "/" + version
            && actions[j].found)
      && var call := Call(s.ledger[i].charge, log.status, log.eventKey);
         0 < Count(s.ledger, RecordOf(Exactly(call))) <= AcceptedIn(version, actions, Exactly(call))
  {
    ReachedSatisfiesInv(version, actions);
    RunsAccept(version, actions);
    var s := Reached(version, actions);
    var call := Call(s.ledger[i].charge, s.ledger[i].status, s.ledger[i].eventKey);
    assert AcceptedBefore(version, actions, call, i);
    var j :| 0 <= j < |actions| && AcceptedAt(version, actions, call, i, j);
    var at := Reached(version, actions[..j]);
    VersionIsFixed(version, actions[..j]);
    ReachedSatisfiesInv(version, actions[..j]);
    AcceptsExactly(Some(at.charges[call.charge].id), actions[j].agent, actions[j].eventKey, version, actions[j].found);
    CallWithinAcceptance(version, actions, call, i);
  }

  lemma {:induction false} CountZeroExactly<T>(xs: seq<T>, p: T -> bool)
    ensures Count(xs, p) == 0 <==> forall i :: 0 <= i < |xs| ==> !p(xs[i])
  {
    if xs != [] {
      var n := |xs| - 1;
      CountZeroExactly(xs[..n], p);
      assert forall i :: 0 <= i < n ==> xs[..n][i] == xs[i];
    }
  }

  /* ---------- credits of one charge ---------- */

  /** Successful calls of one charge. */
  function SuccessOf(k: nat): Call -> bool {
    (c: Call) => c.charge == k && c.status == SUCCESSFUL
  }

  /** Credits for the charge with the given id. */
  function CreditFor(id: string): Effect -> bool {
    (e: Effect) => e.deed.Sent? && e.deed.msg.referenceId == id
  }

  /** Successful callbacks of one charge that are saved but not credited. */
  function AwaitsCreditOf(k: nat): Flight -> bool {
    (fl: Flight) => (fl.Crediting? || fl.Uncredited?) && fl.call.charge == k
  }

  ghost predicate ChargeBalanced(s: State, k: nat) {
    k < |s.charges| ==>
      Count(s.ledger, RecordOf(SuccessOf(k))) == Count(s.trace, CreditFor(s.charges[k].id)) + Count(s.flights, AwaitsCreditOf(k))
  }

  lemma ChargeBalanceKept(s: State, t: State, f: nat, fl: Flight, effects: seq<Effect>, entries: seq<Entry>, k: nat)
    requires StepOf(s, t, f, fl, effects, entries) && k < |s.charges| && ChargeBalanced(s, k)
    requires Ones(entries, RecordOf(SuccessOf(k))) + One(AwaitsCreditOf(k)(s.flights[f]))
          == Ones(effects, CreditFor(s.charges[k].id)) + One(AwaitsCreditOf(k)(fl))
    ensures ChargeBalanced(t, k)
  {
    CountMore(s.ledger, entries, RecordOf(SuccessOf(k)));
    CountMore(s.trace, effects, CreditFor(s.charges[k].id));
    CountUpdate(s.flights, f, fl, AwaitsCreditOf(k));
  }

  /** A charge that has just been opened has no logs, no credits and no callbacks. */
  lemma NewChargeIsBalanced(s: State, f: nat, id: string, qrCode: Option<string>, card: Option<string>)
    requires Inv(s) && f < |s.flights| && s.flights[f].Charging?
    requires ProviderAccepts(s.charges, id, s.flights[f].sourceId)
    ensures ChargeBalanced(DoChargeOpen(s, f, id, qrCode, card), |s.charges|)
  {
    var k, t := |s.charges|, DoChargeOpen(s, f, id, qrCode, card);
    forall i | 0 <= i < |t.ledger| ensures !RecordOf(SuccessOf(k))(t.ledger[i]) {
      assert EntryOk(s.charges, s.ledger[i]);
    }
    forall i | 0 <= i < |t.trace| ensures !CreditFor(id)(t.trace[i]) {
      assert EffectOk(s.origins, s.charges, s.ledger, s.trace[i]);
    }
    forall g | 0 <= g < |t.flights| ensures !AwaitsCreditOf(k)(t.flights[g]) {
      assert FlightOk(s.origins, s.charges, s.ledger, s.flights[g]);
    }
    CountZeroExactly(t.ledger, RecordOf(SuccessOf(k)));
    CountZeroExactly(t.trace, CreditFor(id));
    CountZeroExactly(t.flights, AwaitsCreditOf(k));
  }

  lemma NewFlightKeepsCharge(s: State, t: State, fl: Flight, k: nat)
    requires ChargeBalanced(s, k) && !AwaitsCreditOf(k)(fl)
    requires t.flights == s.flights + [fl] && t.ledger == s.ledger && t.trace == s.trace && t.charges == s.charges
    ensures ChargeBalanced(t, k)
  {
    CountSnoc(s.flights, fl, AwaitsCreditOf(k));
  }

  lemma OpenKeepsCharge(s: State, f: nat, id: string, qrCode: Option<string>, card: Option<string>, k: nat)
    requires f < |s.flights| && s.flights[f].Charging?
    requires k < |s.charges| && ChargeBalanced(s, k)
    ensures ChargeBalanced(DoChargeOpen(s, f, id, qrCode, card), k)
  {
    var t := DoChargeOpen(s, f, id, qrCode, card);
    assert t.ledger == s.ledger + [] && t.trace == s.trace + [];
    ChargeBalanceKept(s, t, f, t.flights[f], [], [], k);
  }

  lemma CommitKeepsCharge(s: State, f: nat, now: int, k: nat)
    requires Inv(s) && f < |s.flights| && s.flights[f].Opened?
    requires k < |s.charges| && ChargeBalanced(s, k)
    ensures ChargeBalanced(DoChargeCommit(s, f, now), k)
  {
    CommitFacts(s, f, now);
    var t := DoChargeCommit(s, f, now);
    assert t.trace == s.trace + [];
    ChargeBalanceKept(s, t, f, ChargeEnded, [], [Entry(s.flights[f].tx, s.flights[f].charge, API, PENDING, CHARGE_CREATE)], k);
  }

  lemma SaveCounts(call: Call, tx: nat, row: Row, charge: Charge, loaded: Row, ids: seq<nat>, f: nat, id: string, k: nat)
    ensures Ones([Entry(tx, call.charge, WEBHOOK, call.status, call.eventKey)], RecordOf(SuccessOf(k)))
              + One(AwaitsCreditOf(k)(Loaded(call, tx, loaded, ids)))
         == Ones([Effect(f, tx, Saved(call.status))], CreditFor(id)) + One(AwaitsCreditOf(k)(AfterSave(call, tx, row, charge)))
  {
  }

  lemma SaveKeepsCharge(s: State, f: nat, now: int, k: nat)
    requires Inv(s) && f < |s.flights| && s.flights[f].Loaded?
    requires k < |s.charges| && ChargeBalanced(s, k)
    ensures ChargeBalanced(DoDeliverSave(s, f, now), k)
  {
    CallbackStep(s, f, now);
    var Loaded(call, tx, loaded, ids) := s.flights[f];
    var charge := s.charges[call.charge];
    var row := CalledBackRow(loaded, charge, call.status, now);
    SaveCounts(call, tx, row, charge, loaded, ids, f, s.charges[k].id, k);
    ChargeBalanceKept(s, DoDeliverSave(s, f, now), f, AfterSave(call, tx, row, charge), [Effect(f, tx, Saved(call.status))],
                      [Entry(tx, call.charge, WEBHOOK, call.status, call.eventKey)], k);
  }

  /** A credit names the charge of its callback, and no other charge has that id. */
  lemma SqsKeepsCharge(s: State, f: nat, k: nat)
    requires History(s) && FlightsOk(s) && f < |s.flights| && s.flights[f].Crediting?
    requires k < |s.charges| && ChargeBalanced(s, k)
    ensures ChargeBalanced(DoDeliverSqs(s, f), k)
  {
    var Crediting(call, tx, msg) := s.flights[f];
    var t := DoDeliverSqs(s, f);
    assert FlightOk(s.origins, s.charges, s.ledger, s.flights[f]);
    assert msg.referenceId == s.charges[call.charge].id;
    assert t.ledger == s.ledger + [];
    ChargeBalanceKept(s, t, f, t.flights[f], [Effect(f, tx, Sent(msg))], [], k);
  }

  /** The steps that neither save nor credit. */
  lemma QuietMoveKeepsCharge(s: State, t: State, f: nat, fl: Flight, k: nat)
    requires f < |s.flights| && t.flights == s.flights[f := fl]
    requires t.ledger == s.ledger && t.trace == s.trace && t.charges == s.charges && t.origins == s.origins
    requires k < |s.charges| && ChargeBalanced(s, k)
    requires AwaitsCreditOf(k)(fl) == AwaitsCreditOf(k)(s.flights[f])
    ensures ChargeBalanced(t, k)
  {
    CountUpdate(s.flights, f, fl, AwaitsCreditOf(k));
  }

  lemma NotifyKeepsCharge(s: State, f: nat, k: nat)
    requires f < |s.flights| && s.flights[f].Notifying?
    requires k < |s.charges| && ChargeBalanced(s, k)
    ensures ChargeBalanced(DoDeliverNotify(s, f), k)
  {
    var Notifying(call, tx, msg) := s.flights[f];
    var t := DoDeliverNotify(s, f);
    var push := PreparePush(call.status, msg);
    var effects := if push.Err? then [] else [Effect(f, tx, Pushed(push.value))];
    assert t.ledger == s.ledger + [] && t.trace == s.trace + effects;
    ChargeBalanceKept(s, t, f, t.flights[f], effects, [], k);
  }

  lemma ReadOrFailKeepsCharge(s: State, a: Action, k: nat)
    requires a.DeliverRead? || a.Fail?
    requires k < |s.charges| && ChargeBalanced(s, k)
    ensures ChargeBalanced(Apply(s, a), k)
  {
    var t := Apply(s, a);
    if t != s {
      QuietMoveKeepsCharge(s, t, a.flight, t.flights[a.flight], k);
    }
  }

  /** Only an opening adds to the provider's charges, and it adds one. */
  predicate Opens(s: State, a: Action) {
    a.ChargeOpen? && a.flight < |s.flights| && s.flights[a.flight].Charging?
    && ProviderAccepts(s.charges, a.id, s.flights[a.flight].sourceId)
  }

  lemma ChargesGrowByOpening(s: State, a: Action)
    ensures |Apply(s, a).charges| == |s.charges| + One(Opens(s, a))
    ensures Opens(s, a) ==> Apply(s, a) == DoChargeOpen(s, a.flight, a.id, a.qrCode, a.card)
  {
  }

  lemma StepStartsCharge(s: State, a: Action, k: nat)
    requires Inv(s) && k >= |s.charges|
    ensures ChargeBalanced(Apply(s, a), k)
  {
    ChargesGrowByOpening(s, a);
    if Opens(s, a) && k == |s.charges| {
      NewChargeIsBalanced(s, a.flight, a.id, a.qrCode, a.card);
    }
  }

  lemma ChargeStepKeepsCharge(s: State, a: Action, k: nat)
    requires Inv(s) && k < |s.charges| && ChargeBalanced(s, k)
    requires a.ChargeRead? || a.ChargeOpen? || a.ChargeCommit?
    ensures ChargeBalanced(Apply(s, a), k)
  {
    var t := Apply(s, a);
    if t != s {
      if a.ChargeRead? {
        NewFlightKeepsCharge(s, t, Charging(a.tx, a.sourceId, s.db.rows[a.tx]), k);
      } else if a.ChargeOpen? {
        OpenKeepsCharge(s, a.flight, a.id, a.qrCode, a.card, k);
      } else {
        CommitKeepsCharge(s, a.flight, a.now, k);
      }
    }
  }

  lemma DeliverKeepsCharge(s: State, a: Action, k: nat)
    requires k < |s.charges| && ChargeBalanced(s, k) && a.Deliver?
    ensures ChargeBalanced(Apply(s, a), k)
  {
    if AcceptedCall(s, a).Some? {
      NewFlightKeepsCharge(s, Apply(s, a), Received(AcceptedCall(s, a).value), k);
    }
  }

  lemma SqsStepKeepsCharge(s: State, a: Action, k: nat)
    requires Inv(s) && k < |s.charges| && ChargeBalanced(s, k) && a.DeliverSqs?
    ensures ChargeBalanced(Apply(s, a), k)
  {
    var t := Apply(s, a);
    if t != s {
      assert t == DoDeliverSqs(s, a.flight);
      SqsKeepsCharge(s, a.flight, k);
    }
  }

  lemma NotifyStepKeepsCharge(s: State, a: Action, k: nat)
    requires k < |s.charges| && ChargeBalanced(s, k) && a.DeliverNotify?
    ensures ChargeBalanced(Apply(s, a), k)
  {
    var t := Apply(s, a);
    if t != s {
      assert t == DoDeliverNotify(s, a.flight);
      NotifyKeepsCharge(s, a.flight, k);
    }
  }

  lemma SaveStepKeepsCharge(s: State, a: Action, k: nat)
    requires Inv(s) && k < |s.charges| && ChargeBalanced(s, k) && a.DeliverSave?
    ensures ChargeBalanced(Apply(s, a), k)
  {
    var t := Apply(s, a);
    if t != s {
      assert t == DoDeliverSave(s, a.flight, a.now);
      SaveKeepsCharge(s, a.flight, a.now, k);
    }
  }

  lemma StepKeepsCharge(s: State, a: Action, k: nat)
    requires Inv(s) && ChargeBalanced(s, k)
    ensures ChargeBalanced(Apply(s, a), k)
  {
    if k >= |s.charges| {
      StepStartsCharge(s, a, k);
    } else if a.Pay? {
    } else if a.Deliver? {
      DeliverKeepsCharge(s, a, k);
    } else if a.ChargeRead? || a.ChargeOpen? || a.ChargeCommit? {
      ChargeStepKeepsCharge(s, a, k);
    } else {
      if a.DeliverSave? {
        SaveStepKeepsCharge(s, a, k);
      } else if a.DeliverSqs? {
        SqsStepKeepsCharge(s, a, k);
      } else if a.DeliverNotify? {
        NotifyStepKeepsCharge(s, a, k);
      } else {
        ReadOrFailKeepsCharge(s, a, k);
      }
    }
  }

  lemma {:induction false} RunsBalanceCharge(version: string, actions: seq<Action>, k: nat)
    ensures ChargeBalanced(Reached(version, actions), k)
  {
    if actions != [] {
      var n := |actions| - 1;
      RunsBalanceCharge(version, actions[..n], k);
      ReachedSatisfiesInv(version, actions[..n]);
      StepKeepsCharge(Reached(version, actions[..n]), actions[n], k);
    }
  }

  ghost predicate NoneIn<T>(xs: seq<T>, p: T -> bool) {
    forall i :: 0 <= i < |xs| ==> !p(xs[i])
  }

  /** Charge by charge: the accepted successful deliveries of a charge are its credits, its callbacks saved but not
      credited, and its callbacks without a log; so no charge is credited more often than it was accepted, and exactly as
      often just when none of its successful callbacks waits, failed or was ignored before its credit. */
  lemma ChargesAreCreditedAsAccepted(version: string, actions: seq<Action>, k: nat)
    requires k < |Reached(version, actions).charges|
    ensures
      var s := Reached(version, actions);
      var accepted := AcceptedIn(version, actions, SuccessOf(k));
      var credits := Count(s.trace, CreditFor(s.charges[k].id));
      && accepted == credits + Count(s.flights, AwaitsCreditOf(k)) + Count(s.flights, Unrecorded(SuccessOf(k)))
      && credits <= accepted
      && (credits == accepted <==> NoneIn(s.flights, AwaitsCreditOf(k)) && NoneIn(s.flights, Unrecorded(SuccessOf(k))))
  {
    var s := Reached(version, actions);
    RunsBalanceCharge(version, actions, k);
    AcceptedAreRecorded(version, actions, SuccessOf(k));
    CountZeroExactly(s.flights, AwaitsCreditOf(k));
    CountZeroExactly(s.flights, Unrecorded(SuccessOf(k)));
  }

  /* ---------- credits of one transaction ---------- */

  /** Successful calls of the charges of one transaction. */
  function SuccessFor(charges: seq<Charge>, tx: nat): Call -> bool {
    (c: Call) => c.charge < |charges| && charges[c.charge].txId == tx && c.status == SUCCESSFUL
  }

  lemma {:induction false} CountSame<T>(xs: seq<T>, p: T -> bool, q: T -> bool)
    requires forall i :: 0 <= i < |xs| ==> p(xs[i]) == q(xs[i])
    ensures Count(xs, p) == Count(xs, q)
  {
    if xs != [] {
      CountSame(xs[..|xs| - 1], p, q);
    }
  }

  /** The successful logs of a transaction are those of the calls of its charges. */
  lemma LogsOfItsCharges(s: State, tx: nat)
    requires History(s)
    ensures SuccessfulLogs(s, tx) == Count(s.ledger, RecordOf(SuccessFor(s.charges, tx)))
  {
    forall i | 0 <= i < |s.ledger|
      ensures SuccessfulEntry(tx)(s.ledger[i]) == RecordOf(SuccessFor(s.charges, tx))(s.ledger[i])
    {
      assert EntryOk(s.charges, s.ledger[i]);
    }
    CountSame(s.ledger, SuccessfulEntry(tx), RecordOf(SuccessFor(s.charges, tx)));
  }

  lemma {:induction false} CoinsAreCounted(trace: seq<Effect>, tx: nat, coins: int)
    requires forall i :: 0 <= i < |trace| && trace[i].tx == tx && trace[i].deed.Sent? ==>
               ParseInt(trace[i].deed.msg.coinValue) == coins
    ensures CoinsSent(trace, tx) == Count(trace, CreditEffect(tx)) * coins
  {
    if trace != [] {
      var earlier := trace[..|trace| - 1];
      CoinsAreCounted(earlier, tx, coins);
      var n := Count(earlier, CreditEffect(tx));
      assert (n + 1) * coins == n * coins + coins;
    }
  }

  /** The coins sent for a transaction are those of its package once for every credit. */
  lemma CoinsOfCredits(version: string, actions: seq<Action>, tx: nat)
    requires tx < |Reached(version, actions).origins|
    ensures
      var s := Reached(version, actions);
      CoinsSent(s.trace, tx) == Credits(s, tx) * CoinsOwed(s.origins[tx].package, s.origins[tx].paymentType)
  {
    var s := Reached(version, actions);
    var o := s.origins[tx];
    forall i | 0 <= i < |s.trace| && s.trace[i].tx == tx && s.trace[i].deed.Sent?
      ensures ParseInt(s.trace[i].deed.msg.coinValue) == CoinsOwed(o.package, o.paymentType)
    {
      EveryCreditIsPaidFor(version, actions, i);
    }
    CoinsAreCounted(s.trace, tx, CoinsOwed(o.package, o.paymentType));
  }

  /** The accepted successful deliveries of a transaction. */
  function AcceptedSuccesses(version: string, actions: seq<Action>, tx: nat): nat {
    AcceptedIn(version, actions, SuccessFor(Reached(version, actions).charges, tx))
  }

  /** The exact balance of a transaction, end to end: every accepted successful delivery has its log, waits for it, or ended
      without it; every successful log is credited, on its way to be, or belongs to a callback that failed in between; every
      credit is notified, on its way, or its callback failed in between. Each credit is for the coins of its package. */
  lemma CreditsAreConserved(version: string, actions: seq<Action>, tx: nat)
    requires tx < |Reached(version, actions).origins|
    ensures
      var s := Reached(version, actions);
      && AcceptedSuccesses(version, actions, tx)
           == SuccessfulLogs(s, tx) + Count(s.flights, Unrecorded(SuccessFor(s.charges, tx)))
      && SuccessfulLogs(s, tx) == Credits(s, tx) + Count(s.flights, AwaitsCredit(tx))
      && Credits(s, tx) == SuccessPushes(s, tx) + Count(s.flights, AwaitsPush(tx))
      && SuccessPushes(s, tx) <= Credits(s, tx) <= SuccessfulLogs(s, tx) <= AcceptedSuccesses(version, actions, tx)
      && CoinsSent(s.trace, tx) == Credits(s, tx) * CoinsOwed(s.origins[tx].package, s.origins[tx].paymentType)
  {
    ReachedSatisfiesInv(version, actions);
    var s := Reached(version, actions);
    assert Balanced(s, tx);
    AcceptedAreRecorded(version, actions, SuccessFor(s.charges, tx));
    LogsOfItsCharges(s, tx);
    CoinsOfCredits(version, actions, tx);
  }

  /** Nothing is lost exactly when nothing waits or failed: credits equal the accepted successful deliveries just when no
      successful callback of the transaction waits, failed or was ignored before its credit, and then the coins sent are that
      many times the package's; credits equal the successful logs just when none waits or failed between the two; and
      successful notifications equal the accepted deliveries just when none waits, failed or was ignored at all. */
  lemma NothingLostNothingWaiting(version: string, actions: seq<Action>, tx: nat)
    requires tx < |Reached(version, actions).origins|
    ensures
      var s := Reached(version, actions);
      var accepted := AcceptedSuccesses(version, actions, tx);
      var recorded := NoneIn(s.flights, Unrecorded(SuccessFor(s.charges, tx)));
      var credited := NoneIn(s.flights, AwaitsCredit(tx));
      var notified := NoneIn(s.flights, AwaitsPush(tx));
      && (Credits(s, tx) == accepted <==> recorded && credited)
      && (recorded && credited ==>
            CoinsSent(s.trace, tx) == accepted * CoinsOwed(s.origins[tx].package, s.origins[tx].paymentType))
      && (Credits(s, tx) == SuccessfulLogs(s, tx) <==> credited)
      && (credited ==>
            CoinsSent(s.trace, tx) == SuccessfulLogs(s, tx) * CoinsOwed(s.origins[tx].package, s.origins[tx].paymentType))
      && (SuccessPushes(s, tx) == SuccessfulLogs(s, tx) <==> credited && notified)
      && (SuccessPushes(s, tx) == accepted <==> recorded && credited && notified)
  {
    var s := Reached(version, actions);
    CreditsAreConserved(version, actions, tx);
    CountZeroExactly(s.flights, Unrecorded(SuccessFor(s.charges, tx)));
    CountZeroExactly(s.flights, AwaitsCredit(tx));
    CountZeroExactly(s.flights, AwaitsPush(tx));
  }
}
