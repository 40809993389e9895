/** A callback handled from start to end without another request in between, and how it relates to the steps. */
module CallbackHandling {
  import opened Results
  import opened Text
  import opened Packages
  import opened TransactionTables
  import opened Validation
  import opened Notifications
  import opened Lifecycle

  /** The await that throws, if any. */
  datatype Fault = NoFault | ReadFails | SaveFails | QueueFails | PushFails

  /** What a callback leaves behind; `saved` is the transaction whose save succeeded. */
  datatype Outcome = Outcome(db: Tables, saved: Option<nat>, sent: seq<SqsMessage>, pushed: seq<Push>)

  function Notified(status: string, msg: SqsMessage, fault: Fault): seq<Push> {
    var prepared := PreparePush(status, msg);
    if prepared.Err? || fault == PushFails then [] else [prepared.value]
  }

  function HandleCallback(db: Tables, charge: Charge, status: string, eventKey: string, now: int, fault: Fault): Outcome {
    var found := FindBySource(db.rows, charge.sourceId);
    if fault == ReadFails || found.None? || fault == SaveFails then Outcome(db, None, [], [])
    else
      var tx := found.value;
      var row := CalledBackRow(db.rows[tx], charge, status, now);
      var saved := Save(db, tx, row, Attached(db.logs, tx), Log(status, WEBHOOK, eventKey, now, None));
      if saved.Err? then Outcome(db, None, [], [])
      else
        var composed := Compose(tx, row.productId, row.metadata.terms, charge.userRefId, charge.id);
        if composed.Err? || (status != SUCCESSFUL && status != FAILED) then Outcome(saved.value, Some(tx), [], [])
        else if status == SUCCESSFUL then
          if fault == QueueFails then Outcome(saved.value, Some(tx), [], [])
          else Outcome(saved.value, Some(tx), [composed.value], Notified(status, composed.value, fault))
        else Outcome(saved.value, Some(tx), [], Notified(status, composed.value, fault))
  }

  /** The notification due to a user about a charge with the given status: their own, with the symbol and the coins. */
  ghost predicate DueTo(push: Push, userRef: string, tx: nat, status: string, symbol: string, coins: Option<int>) {
    && push.userRef == userRef
    && push.transactionId == tx
    && push.status == status
    && push.coinName == symbol
    && ParseInt(push.coinValue) == (if coins.Some? then coins.value else 0)
  }

  /** Terms from which a message can be composed. */
  predicate Composable(terms: Terms) {
    terms.tokenAmount.Some? || terms.tokenBonus != 0
  }

  lemma HandlingSaves(db: Tables, charge: Charge, status: string, eventKey: string, now: int, fault: Fault, tx: nat)
    requires FindBySource(db.rows, charge.sourceId) == Some(tx) && !SourceTaken(db.rows, tx, Some(charge.sourceId))
    requires fault != ReadFails && fault != SaveFails
    ensures Save(db, tx, CalledBackRow(db.rows[tx], charge, status, now), Attached(db.logs, tx),
                 Log(status, WEBHOOK, eventKey, now, None))
         == Ok(HandleCallback(db, charge, status, eventKey, now, fault).db)
  {
  }

  /** What a callback that is not refused or failed before its save leaves in the tables: status, provider reference and
      timestamp of the row it found, one log of its own attached last, and everything else as it was. */
  lemma CallbackSaves(db: Tables, charge: Charge, status: string, eventKey: string, now: int, fault: Fault, tx: nat)
    requires FindBySource(db.rows, charge.sourceId) == Some(tx) && !SourceTaken(db.rows, tx, Some(charge.sourceId))
    requires fault != ReadFails && fault != SaveFails
    ensures
      var t := HandleCallback(db, charge, status, eventKey, now, fault).db;
      && |t.rows| == |db.rows| && |t.logs| == |db.logs| + 1
      && t.rows[tx].status == status && t.rows[tx].providerRefId == Some(charge.id) && t.rows[tx].updatedAt == Some(now)
      && t.rows[tx] == db.rows[tx].(status := t.rows[tx].status, providerRefId := t.rows[tx].providerRefId,
                                    updatedAt := t.rows[tx].updatedAt)
      && (forall i :: 0 <= i < |db.rows| && i != tx ==> t.rows[i] == db.rows[i])
      && t.logs[|db.logs|] == Log(status, "webhook", eventKey, now, Some(tx))
      && (forall i :: 0 <= i < |db.logs| ==> t.logs[i] == db.logs[i])
      && Attached(t.logs, tx) == Attached(db.logs, tx) + [|db.logs|]
  {
    var row := CalledBackRow(db.rows[tx], charge, status, now);
    HandlingSaves(db, charge, status, eventKey, now, fault, tx);
    SaveWithItsLogs(db, tx, row, Log(status, WEBHOOK, eventKey, now, None));
  }

  /** What an undisturbed callback does once it has found its row, by status: `successful` credits and notifies, `failed`
      notifies, any other status does neither; and nobody is notified without a user. */
  lemma UndisturbedOutcome(db: Tables, charge: Charge, status: string, eventKey: string, now: int, tx: nat)
    requires FindBySource(db.rows, charge.sourceId) == Some(tx) && !SourceTaken(db.rows, tx, Some(charge.sourceId))
    requires Composable(db.rows[tx].metadata.terms)
    ensures
      var o := HandleCallback(db, charge, status, eventKey, now, NoFault);
      var terms := db.rows[tx].metadata.terms;
      && o.saved == Some(tx)
      && |o.sent| == (if status == "successful" then 1 else 0)
      && |o.pushed| == (if (status == "successful" || status == "failed") && charge.userRefId != "" then 1 else 0)
      && (o.pushed != [] ==> DueTo(o.pushed[0], charge.userRefId, tx, status, terms.tokenSymbol, terms.tokenAmount))
  {
    var terms := db.rows[tx].metadata.terms;
    TextRoundTrip(OrZero(terms.tokenAmount));
  }

  /** The steps of one uninterrupted callback; `f` is its flight. */
  function CallbackActions(f: nat, k: nat, status: string, agent: string, eventKey: string, now: int, fault: Fault): seq<Action> {
    [ Deliver(k, status, Some(agent), Some(eventKey), true),
      if fault == ReadFails then Fail(f) else DeliverRead(f),
      if fault == SaveFails then Fail(f) else DeliverSave(f, now),
      if fault == QueueFails && status == SUCCESSFUL then Fail(f) else DeliverSqs(f),
      if fault == PushFails then Fail(f) else DeliverNotify(f) ]
  }

  /** The effects an outcome adds to the trace. */
  function EffectsOf(f: nat, status: string, o: Outcome): seq<Effect> {
    if o.saved.None? then []
    else
      [Effect(f, o.saved.value, Saved(status))]
      + (if |o.sent| > 0 then [Effect(f, o.saved.value, Sent(o.sent[0]))] else [])
      + (if |o.pushed| > 0 then [Effect(f, o.saved.value, Pushed(o.pushed[0]))] else [])
  }

  lemma ExecFive(s: State, a: Action, b: Action, c: Action, d: Action, e: Action)
    ensures Exec(s, [a, b, c, d, e]) == Apply(Apply(Apply(Apply(Apply(s, a), b), c), d), e)
  {
    assert [a, b, c, d, e][..4] == [a, b, c, d];
    assert [a, b, c, d][..3] == [a, b, c];
    assert [a, b, c][..2] == [a, b];
    assert [a, b][..1] == [a];
    assert [a][..0] == [];
    assert Exec(s, [a]) == Apply(s, a);
    assert Exec(s, [a, b]) == Apply(Exec(s, [a]), b);
    assert Exec(s, [a, b, c]) == Apply(Exec(s, [a, b]), c);
    assert Exec(s, [a, b, c, d]) == Apply(Exec(s, [a, b, c]), d);
  }

  function AfterRead(s: State, call: Call, charge: Charge, fault: Fault): Flight {
    var found := FindBySource(s.db.rows, charge.sourceId);
    if fault == ReadFails || found.None? then Ignored(call)
    else Loaded(call, found.value, s.db.rows[found.value], Attached(s.db.logs, found.value))
  }

  lemma UpToTheRead(s: State, k: nat, status: string, agent: string, eventKey: string, fault: Fault)
    requires k < |s.charges|
    requires ValidateChargeEvent(Some(s.charges[k].id), Some(agent), Some(eventKey), s.version, true).Ok?
    ensures
      var f := |s.flights|;
      Apply(Apply(s, Deliver(k, status, Some(agent), Some(eventKey), true)), if fault == ReadFails then Fail(f) else DeliverRead(f))
      == s.(flights := s.flights + [AfterRead(s, Call(k, status, eventKey), s.charges[k], fault)])
  {
    var f, call := |s.flights|, Call(k, status, eventKey);
    var s1 := Apply(s, Deliver(k, status, Some(agent), Some(eventKey), true));
    assert s1 == s.(flights := s.flights + [Received(call)]);
    var fl := AfterRead(s, call, s.charges[k], fault);
    assert (s.flights + [Received(call)])[f := fl] == s.flights + [fl];
    if fault == ReadFails {
      assert Apply(s1, Fail(f)) == Put(s1, f, fl);
    } else {
      assert Apply(s1, DeliverRead(f)) == DoDeliverRead(s1, f) == Put(s1, f, fl);
    }
  }

  /** The state when the save has been made, or the callback has ended without one. */
  ghost predicate AtTheSave(s: State, t: State, call: Call, charge: Charge, now: int, o: Outcome) {
    var f := |s.flights|;
    && t.db == o.db && t.charges == s.charges && |t.flights| == f + 1
    && if o.saved.None? then t.flights[f] == Ignored(call) && t.trace == s.trace
       else
         && FindBySource(s.db.rows, charge.sourceId) == o.saved
         && t.trace == s.trace + [Effect(f, o.saved.value, Saved(call.status))]
         && t.flights[f] == AfterSave(call, o.saved.value,
                                      CalledBackRow(s.db.rows[o.saved.value], charge, call.status, now), charge)
  }

  lemma UpToTheSave(s: State, t: State, call: Call, now: int, fault: Fault)
    requires call.charge < |s.charges|
    requires
      var fl := AfterRead(s, call, s.charges[call.charge], fault);
      t == Apply(s.(flights := s.flights + [fl]), if fault == SaveFails then Fail(|s.flights|) else DeliverSave(|s.flights|, now))
    ensures AtTheSave(s, t, call, s.charges[call.charge], now,
                      HandleCallback(s.db, s.charges[call.charge], call.status, call.eventKey, now, fault))
  {
    var charge, f := s.charges[call.charge], |s.flights|;
    var fl := AfterRead(s, call, charge, fault);
    var s2 := s.(flights := s.flights + [fl]);
    if fault == SaveFails {
      assert t == Put(s2, f, Failed(fl));
    } else if fl.Loaded? {
      assert t == DoDeliverSave(s2, f, now);
    } else {
      assert t == s2;
    }
  }

  /** The credit and notification of a callback whose save has been made. */
  lemma AfterTheSave(t: State, f: nat, tx: nat, call: Call, row: Row, charge: Charge, d: Action, e: Action, fault: Fault)
    requires f < |t.flights| && t.flights[f] == AfterSave(call, tx, row, charge)
    requires d == if fault == QueueFails && call.status == SUCCESSFUL then Fail(f) else DeliverSqs(f)
    requires e == if fault == PushFails then Fail(f) else DeliverNotify(f)
    ensures
      var u := Apply(Apply(t, d), e);
      var composed := Compose(tx, row.productId, row.metadata.terms, charge.userRefId, charge.id);
      && u.db == t.db && u.charges == t.charges && |u.flights| == |t.flights|
      && u.trace == t.trace
           + (if composed.Err? then []
              else
                (if call.status == SUCCESSFUL && fault != QueueFails then [Effect(f, tx, Sent(composed.value))] else [])
                + (if (call.status == SUCCESSFUL && fault != QueueFails) || call.status == FAILED then
                     (var pushed := Notified(call.status, composed.value, fault);
                      if |pushed| > 0 then [Effect(f, tx, Pushed(pushed[0]))] else [])
                   else []))
  {
    var t1 := Apply(t, d);
    var composed := Compose(tx, row.productId, row.metadata.terms, charge.userRefId, charge.id);
    if composed.Ok? && call.status == SUCCESSFUL && fault != QueueFails {
      assert t1 == Put(t.(trace := t.trace + [Effect(f, tx, Sent(composed.value))]), f, Notifying(call, tx, composed.value));
    }
  }

  lemma OutcomeEffects(s: State, t: State, u: State, call: Call, now: int, fault: Fault)
    requires call.charge < |s.charges|
    requires
      var charge := s.charges[call.charge];
      var o := HandleCallback(s.db, charge, call.status, call.eventKey, now, fault);
      && AtTheSave(s, t, call, charge, now, o)
      && u == Apply(Apply(t, if fault == QueueFails && call.status == SUCCESSFUL then Fail(|s.flights|) else DeliverSqs(|s.flights|)),
                    if fault == PushFails then Fail(|s.flights|) else DeliverNotify(|s.flights|))
    ensures
      var o := HandleCallback(s.db, s.charges[call.charge], call.status, call.eventKey, now, fault);
      && u.db == o.db && u.charges == s.charges && |u.flights| == |s.flights| + 1
      && u.trace == s.trace + EffectsOf(|s.flights|, call.status, o)
  {
    var charge, f := s.charges[call.charge], |s.flights|;
    var o := HandleCallback(s.db, charge, call.status, call.eventKey, now, fault);
    var d := if fault == QueueFails && call.status == SUCCESSFUL then Fail(f) else DeliverSqs(f);
    var e := if fault == PushFails then Fail(f) else DeliverNotify(f);
    if o.saved.Some? {
      var tx := o.saved.value;
      AfterTheSave(t, f, tx, call, CalledBackRow(s.db.rows[tx], charge, call.status, now), charge, d, e, fault);
    } else {
      IgnoredStays(t, f, d);
      IgnoredStays(t, f, e);
    }
  }

  lemma IgnoredStays(t: State, f: nat, a: Action)
    requires f < |t.flights| && t.flights[f].Ignored?
    requires a == Fail(f) || a == DeliverSqs(f) || a == DeliverNotify(f)
    ensures Apply(t, a) == t
  {
  }

  /** Handling a callback in one go is one of the runs: the same tables, and exactly the outcome's effects. */
  lemma HandlingIsARun(s: State, k: nat, status: string, agent: string, eventKey: string, now: int, fault: Fault)
    requires k < |s.charges|
    requires ValidateChargeEvent(Some(s.charges[k].id), Some(agent), Some(eventKey), s.version, true).Ok?
    ensures
      var f := |s.flights|;
      var o := HandleCallback(s.db, s.charges[k], status, eventKey, now, fault);
      var t := Exec(s, CallbackActions(f, k, status, agent, eventKey, now, fault));
      && t.db == o.db && t.charges == s.charges && t.version == s.version && |t.flights| == f + 1
      && t.trace == s.trace + EffectsOf(f, status, o)
  {
    var f, call := |s.flights|, Call(k, status, eventKey);
    var acts := CallbackActions(f, k, status, agent, eventKey, now, fault);
    ExecFive(s, acts[0], acts[1], acts[2], acts[3], acts[4]);
    UpToTheRead(s, k, status, agent, eventKey, fault);
    var t := Apply(Apply(Apply(s, acts[0]), acts[1]), acts[2]);
    UpToTheSave(s, t, call, now, fault);
    OutcomeEffects(s, t, Apply(Apply(t, acts[3]), acts[4]), call, now, fault);
    VersionKept(s, acts);
  }

  lemma {:induction false} VersionKept(s: State, actions: seq<Action>)
    ensures Exec(s, actions).version == s.version
  {
    if actions != [] {
      VersionKept(s, actions[..|actions| - 1]);
    }
  }
}
