/** What one more undisturbed delivery does in any reachable state: nothing is deduplicated and no status is final. */
module CallbackTheorems {
  import opened Results
  import opened Text
  import opened Packages
  import opened TransactionTables
  import opened Validation
  import opened Counting
  import opened Lifecycle
  import opened LifecycleInvariant
  import opened LifecycleSteps
  import opened CallbackHandling

  /** The package can be announced: it has a coin count or earns a bonus. */
  ghost predicate Announceable(o: Origin) {
    o.package.noOfCoins.Some? || OrZero(o.package.bonus) + PaymentBonusOwed(o.package.paymentBonus, o.paymentType) != 0
  }

  /** Charge `k` can be delivered and its source is on its row. */
  ghost predicate Deliverable(s: State, k: nat, agent: string, eventKey: string) {
    && Inv(s)
    && k < |s.charges|
    && ToLower(agent) == OMISE + "/" + s.version
    && IsChargeEvent(eventKey)
    && FindBySource(s.db.rows, s.charges[k].sourceId) == Some(s.charges[k].txId)
  }

  function Redelivered(s: State, k: nat, status: string, agent: string, eventKey: string, now: int): State {
    Exec(s, CallbackActions(|s.flights|, k, status, agent, eventKey, now, NoFault))
  }

  lemma OutcomeOfASave(db: Tables, c: Charge, status: string, eventKey: string, now: int, o: Origin)
    requires FindBySource(db.rows, c.sourceId) == Some(c.txId)
    requires !SourceTaken(db.rows, c.txId, Some(c.sourceId))
    requires FixedBy(o, db.rows[c.txId])
    ensures
      var out := HandleCallback(db, c, status, eventKey, now, NoFault);
      && out.saved == Some(c.txId)
      && Save(db, c.txId, CalledBackRow(db.rows[c.txId], c, status, now), Attached(db.logs, c.txId),
              Log(status, WEBHOOK, eventKey, now, None)) == Ok(out.db)
      && |out.sent| == (if status == SUCCESSFUL && Announceable(o) then 1 else 0)
      && (out.sent != [] ==> ParseInt(out.sent[0].coinValue) == CoinsOwed(o.package, o.paymentType))
  {
    ComposeFailsExactlyWithoutCoins(c.txId, db.rows[c.txId].productId, o.package, o.paymentType, c.userRefId, c.id);
    TermsHoldTheCoinsOwed(o.package, o.paymentType);
    TextRoundTrip(CoinsOwed(o.package, o.paymentType));
  }

  lemma SaveSucceeds(s: State, k: nat, status: string, eventKey: string, now: int)
    requires Inv(s) && k < |s.charges|
    requires FindBySource(s.db.rows, s.charges[k].sourceId) == Some(s.charges[k].txId)
    ensures
      var c := s.charges[k];
      && c.txId < |s.origins| == |s.db.rows|
      && !SourceTaken(s.db.rows, c.txId, Some(c.sourceId))
      && FixedBy(s.origins[c.txId], s.db.rows[c.txId])
  {
    assert RowCoherent(s, s.charges[k].txId);
    NoSourceConflict(s, k);
  }

  lemma CreditsOfThree(trace: seq<Effect>, saved: Effect, sent: seq<Effect>, pushed: seq<Effect>, tx: nat)
    requires saved.deed.Saved? && |sent| <= 1 && |pushed| <= 1
    requires sent != [] ==> sent[0].tx == tx && sent[0].deed.Sent?
    requires pushed != [] ==> pushed[0].deed.Pushed?
    ensures
      var t := trace + [saved] + sent + pushed;
      && Count(t, CreditEffect(tx)) == Count(trace, CreditEffect(tx)) + |sent|
      && CoinsSent(t, tx) == CoinsSent(trace, tx) + if sent == [] then 0 else ParseInt(sent[0].deed.msg.coinValue)
  {
    CreditSnoc(trace, saved, tx);
    CreditMore(trace + [saved], sent, tx);
    CreditMore(trace + [saved] + sent, pushed, tx);
  }

  lemma Regroup<T>(a: seq<T>, b: seq<T>, c: seq<T>, d: seq<T>)
    ensures a + (b + c + d) == a + b + c + d
  {
  }

  /** Effects of an outcome one after the other. */
  lemma EffectsInOrder(trace: seq<Effect>, f: nat, status: string, o: Outcome, tx: nat)
    requires o.saved == Some(tx)
    ensures
      var sent := if |o.sent| > 0 then [Effect(f, tx, Sent(o.sent[0]))] else [];
      var pushed := if |o.pushed| > 0 then [Effect(f, tx, Pushed(o.pushed[0]))] else [];
      trace + EffectsOf(f, status, o) == trace + [Effect(f, tx, Saved(status))] + sent + pushed
  {
    var sent := if |o.sent| > 0 then [Effect(f, tx, Sent(o.sent[0]))] else [];
    var pushed := if |o.pushed| > 0 then [Effect(f, tx, Pushed(o.pushed[0]))] else [];
    Regroup(trace, [Effect(f, tx, Saved(status))], sent, pushed);
  }

  lemma EffectCounts(trace: seq<Effect>, f: nat, status: string, o: Outcome, tx: nat)
    requires o.saved == Some(tx) && |o.sent| <= 1
    ensures
      var t := trace + EffectsOf(f, status, o);
      && Count(t, CreditEffect(tx)) == Count(trace, CreditEffect(tx)) + |o.sent|
      && CoinsSent(t, tx) == CoinsSent(trace, tx) + if o.sent == [] then 0 else ParseInt(o.sent[0].coinValue)
  {
    var sent := if |o.sent| > 0 then [Effect(f, tx, Sent(o.sent[0]))] else [];
    var pushed := if |o.pushed| > 0 then [Effect(f, tx, Pushed(o.pushed[0]))] else [];
    EffectsInOrder(trace, f, status, o, tx);
    CreditsOfThree(trace, Effect(f, tx, Saved(status)), sent, pushed, tx);
  }

  lemma CreditMore(trace: seq<Effect>, more: seq<Effect>, tx: nat)
    requires |more| <= 1
    ensures
      var credit := more != [] && more[0].tx == tx && more[0].deed.Sent?;
      && Count(trace + more, CreditEffect(tx)) == Count(trace, CreditEffect(tx)) + (if credit then 1 else 0)
      && CoinsSent(trace + more, tx) == CoinsSent(trace, tx) + (if credit then ParseInt(more[0].deed.msg.coinValue) else 0)
  {
    if more == [] {
      assert trace + more == trace;
    } else {
      assert more == [more[0]];
      CreditSnoc(trace, more[0], tx);
    }
  }

  lemma CreditSnoc(trace: seq<Effect>, e: Effect, tx: nat)
    ensures Count(trace + [e], CreditEffect(tx)) == Count(trace, CreditEffect(tx)) + if e.tx == tx && e.deed.Sent? then 1 else 0
    ensures CoinsSent(trace + [e], tx)
      == CoinsSent(trace, tx) + if e.tx == tx && e.deed.Sent? then ParseInt(e.deed.msg.coinValue) else 0
  {
    CountSnoc(trace, e, CreditEffect(tx));
    assert (trace + [e])[..|trace|] == trace;
  }

  /** One more delivery, whatever was delivered before: the log is attached last, the delivered status replaces the stored
      one (a `pending` replaces a `successful`), and a successful status credits the package's coins once more. */
  lemma OneMoreDelivery(s: State, k: nat, status: string, agent: string, eventKey: string, now: int)
    requires Deliverable(s, k, agent, eventKey)
    ensures
      var tx := s.charges[k].txId;
      var t := Redelivered(s, k, status, agent, eventKey, now);
      && Deliverable(t, k, agent, eventKey) && t.charges == s.charges
      && tx < |s.origins| && s.origins <= t.origins && tx < |t.db.rows|
      && t.db.rows[tx].status == status
      && Attached(t.db.logs, tx) == Attached(s.db.logs, tx) + [|s.db.logs|]
      && Credits(t, tx) == Credits(s, tx) + (if status == SUCCESSFUL && Announceable(s.origins[tx]) then 1 else 0)
      && CoinsSent(t.trace, tx) == CoinsSent(s.trace, tx)
           + (if status == SUCCESSFUL && Announceable(s.origins[tx])
              then CoinsOwed(s.origins[tx].package, s.origins[tx].paymentType) else 0)
  {
    var c := s.charges[k];
    var tx := c.txId;
    assert ChargeOk(s.origins, c);
    AcceptsExactly(Some(c.id), Some(agent), Some(eventKey), s.version, true);
    HandlingIsARun(s, k, status, agent, eventKey, now, NoFault);
    var acts := CallbackActions(|s.flights|, k, status, agent, eventKey, now, NoFault);
    var t := Exec(s, acts);
    RunKeepsInv(s, acts);
    SaveSucceeds(s, k, status, eventKey, now);
    OutcomeOfASave(s.db, c, status, eventKey, now, s.origins[tx]);
    var o := HandleCallback(s.db, c, status, eventKey, now, NoFault);
    EffectCounts(s.trace, |s.flights|, status, o, tx);
    var row := CalledBackRow(s.db.rows[tx], c, status, now);
    AttachedAreTheLinked(s.db.logs, tx);
    SaveAttaches(s.db, tx, row, Attached(s.db.logs, tx), Log(status, WEBHOOK, eventKey, now, None));
    SourceStays(t, k, tx);
    OriginsStay(s, acts);
  }

  /** The last two steps of an undisturbed callback, by what its save left to do. */
  lemma UndisturbedEnd(t: State, f: nat, tx: nat, call: Call, row: Row, charge: Charge)
    requires f < |t.flights| && t.flights[f] == AfterSave(call, tx, row, charge)
    requires Composable(row.metadata.terms)
    ensures
      var u := Apply(Apply(t, DeliverSqs(f)), DeliverNotify(f));
      f < |u.flights| && u.flights[f] ==
        if (call.status == "successful" || call.status == "failed") && charge.userRefId == "" then Unnotified(call, tx)
        else Completed(call, tx)
  {
  }

  /** After an undisturbed delivery its flight has ended: without its notification exactly if that was due to nobody. */
  lemma UndisturbedEnds(s: State, k: nat, status: string, agent: string, eventKey: string, now: int)
    requires Deliverable(s, k, agent, eventKey)
    requires s.charges[k].txId < |s.origins| && Announceable(s.origins[s.charges[k].txId])
    ensures
      var t := Redelivered(s, k, status, agent, eventKey, now);
      var call, tx := Call(k, status, eventKey), s.charges[k].txId;
      |t.flights| == |s.flights| + 1 && t.flights[|s.flights|] ==
        if (status == "successful" || status == "failed") && s.charges[k].userRefId == "" then Unnotified(call, tx)
        else Completed(call, tx)
  {
    var f, call, charge := |s.flights|, Call(k, status, eventKey), s.charges[k];
    var acts := CallbackActions(f, k, status, agent, eventKey, now, NoFault);
    AcceptsExactly(Some(charge.id), Some(agent), Some(eventKey), s.version, true);
    SaveSucceeds(s, k, status, eventKey, now);
    AnnounceableIsComposable(s.origins[charge.txId]);
    ExecFive(s, acts[0], acts[1], acts[2], acts[3], acts[4]);
    UpToTheRead(s, k, status, agent, eventKey, NoFault);
    var t := Apply(Apply(Apply(s, acts[0]), acts[1]), acts[2]);
    CallbackHandling.UpToTheSave(s, t, call, now, NoFault);
    UndisturbedOutcome(s.db, charge, status, eventKey, now, charge.txId);
    UndisturbedEnd(t, f, charge.txId, call, CalledBackRow(s.db.rows[charge.txId], charge, status, now), charge);
    HandlingIsARun(s, k, status, agent, eventKey, now, NoFault);
  }

  lemma AnnounceableIsComposable(o: Origin)
    ensures Announceable(o) <==> Composable(TermsOf(o.package, o.paymentType))
  {
    TermsHoldThePackage(o.package, o.paymentType);
  }

  lemma EffectsAdded(trace: seq<Effect>, f: nat, status: string, o: Outcome, tx: nat)
    requires o.saved == Some(tx) && |o.sent| <= 1 && |o.pushed| <= 1
    ensures
      var t := trace + EffectsOf(f, status, o);
      && |t| == |trace| + 1 + |o.sent| + |o.pushed| && trace <= t
      && (forall i :: |trace| <= i < |t| ==> t[i].flight == f && t[i].tx == tx)
      && t[|trace|].deed == Saved(status)
      && (o.sent != [] ==> t[|trace| + 1].deed == Sent(o.sent[0]))
      && (o.pushed != [] ==> t[|t| - 1].deed == Pushed(o.pushed[0]))
  {
  }

  /** Every due notification is pushed: an undisturbed delivery adds its save, then the credit if it is `successful`, then,
      if it is `successful` or `failed` and the transaction has a user, one notification to that user with the delivered
      status, the package's symbol and its coin count; it adds nothing else, and completes unless a due one had no user. */
  lemma EveryDueNotificationIsPushed(s: State, k: nat, status: string, agent: string, eventKey: string, now: int)
    requires Deliverable(s, k, agent, eventKey)
    requires s.charges[k].txId < |s.origins| && Announceable(s.origins[s.charges[k].txId])
    ensures
      var t := Redelivered(s, k, status, agent, eventKey, now);
      var f, tx := |s.flights|, s.charges[k].txId;
      var o := s.origins[tx];
      var credits := if status == "successful" then 1 else 0;
      var due := status == "successful" || status == "failed";
      var pushes := if due && o.userRefId != "" then 1 else 0;
      && |t.flights| == f + 1
      && t.flights[f] == (if due && o.userRefId == "" then Unnotified(Call(k, status, eventKey), tx)
                          else Completed(Call(k, status, eventKey), tx))
      && |t.trace| == |s.trace| + 1 + credits + pushes && s.trace <= t.trace
      && (forall i :: |s.trace| <= i < |t.trace| ==> t.trace[i].flight == f && t.trace[i].tx == tx)
      && t.trace[|s.trace|].deed == Saved(status)
      && (credits == 1 ==> t.trace[|s.trace| + 1].deed.Sent?)
      && (pushes == 1 ==>
            var last := t.trace[|t.trace| - 1];
            last.deed.Pushed? && DueTo(last.deed.push, o.userRefId, tx, status, o.package.tokenSymbol, o.package.noOfCoins))
  {
    var c := s.charges[k];
    assert ChargeOk(s.origins, c);
    AcceptsExactly(Some(c.id), Some(agent), Some(eventKey), s.version, true);
    UndisturbedEnds(s, k, status, agent, eventKey, now);
    HandlingIsARun(s, k, status, agent, eventKey, now, NoFault);
    SaveSucceeds(s, k, status, eventKey, now);
    AnnounceableIsComposable(s.origins[c.txId]);
    TermsHoldThePackage(s.origins[c.txId].package, s.origins[c.txId].paymentType);
    UndisturbedOutcome(s.db, c, status, eventKey, now, c.txId);
    EffectsAdded(s.trace, |s.flights|, status, HandleCallback(s.db, c, status, eventKey, now, NoFault), c.txId);
  }

  lemma SourceStays(t: State, k: nat, tx: nat)
    requires Inv(t) && k < |t.charges| && tx < |t.db.rows|
    requires t.db.rows[tx].source == Some(t.charges[k].sourceId)
    ensures FindBySource(t.db.rows, t.charges[k].sourceId) == Some(tx)
  {
    var found := FindBySource(t.db.rows, t.charges[k].sourceId);
    SourceSitsOnItsRow(t, k, tx);
    SourceSitsOnItsRow(t, k, found.value);
  }

  lemma {:induction false} OriginsStay(s: State, actions: seq<Action>)
    ensures s.origins <= Exec(s, actions).origins
  {
    if actions != [] {
      OriginsStay(s, actions[..|actions| - 1]);
    }
  }

  /** State `t` is still deliverable and has `n` more credits than `s`, for `coins` coins each. */
  ghost predicate MoreCredits(s: State, t: State, k: nat, agent: string, eventKey: string, n: nat, coins: int)
    requires k < |s.charges|
  {
    var tx := s.charges[k].txId;
    && Deliverable(t, k, agent, eventKey) && t.charges == s.charges && s.origins <= t.origins
    && Credits(t, tx) == Credits(s, tx) + n
    && CoinsSent(t.trace, tx) == CoinsSent(s.trace, tx) + n * coins
  }

  lemma NoMoreCredits(s: State, k: nat, agent: string, eventKey: string, coins: int)
    requires Deliverable(s, k, agent, eventKey)
    ensures MoreCredits(s, s, k, agent, eventKey, 0, coins)
  {
  }

  lemma OneMoreCredit(s: State, p: State, t: State, k: nat, agent: string, eventKey: string, now: int, n: nat, coins: int)
    requires k < |s.charges| && MoreCredits(s, p, k, agent, eventKey, n, coins)
    requires s.charges[k].txId < |s.origins| && Announceable(s.origins[s.charges[k].txId])
    requires coins == CoinsOwed(s.origins[s.charges[k].txId].package, s.origins[s.charges[k].txId].paymentType)
    requires t == Redelivered(p, k, SUCCESSFUL, agent, eventKey, now)
    ensures MoreCredits(s, t, k, agent, eventKey, n + 1, coins)
  {
    assert p.origins[s.charges[k].txId] == s.origins[s.charges[k].txId];
    OneMoreDelivery(p, k, SUCCESSFUL, agent, eventKey, now);
    assert (n + 1) * coins == n * coins + coins;
  }

  /** States one duplicate delivery after another. */
  ghost predicate DeliveredInTurn(states: seq<State>, k: nat, agent: string, eventKey: string, now: int) {
    forall i :: 0 < i < |states| ==> states[i] == Redelivered(states[i - 1], k, SUCCESSFUL, agent, eventKey, now)
  }

  /** Duplicate deliveries are not recognised: after n more deliveries of a successful charge, n times its coins have been credited. */
  lemma {:induction false} EveryDuplicateCreditsAgain(states: seq<State>, k: nat, agent: string, eventKey: string, now: int, n: nat)
    requires n < |states| && DeliveredInTurn(states, k, agent, eventKey, now)
    requires Deliverable(states[0], k, agent, eventKey)
    requires states[0].charges[k].txId < |states[0].origins| && Announceable(states[0].origins[states[0].charges[k].txId])
    ensures
      var o := states[0].origins[states[0].charges[k].txId];
      MoreCredits(states[0], states[n], k, agent, eventKey, n, CoinsOwed(o.package, o.paymentType))
  {
    var o := states[0].origins[states[0].charges[k].txId];
    if n == 0 {
      NoMoreCredits(states[0], k, agent, eventKey, CoinsOwed(o.package, o.paymentType));
    } else {
      EveryDuplicateCreditsAgain(states, k, agent, eventKey, now, n - 1);
      OneMoreCredit(states[0], states[n - 1], states[n], k, agent, eventKey, now, n - 1, CoinsOwed(o.package, o.paymentType));
    }
  }

  lemma ExecFour(s: State, a: Action, b: Action, c: Action, d: Action)
    ensures Exec(s, [a, b, c, d]) == Apply(Apply(Apply(Apply(s, a), b), c), d)
  {
    assert [a, b, c, d][..3] == [a, b, c];
    assert [a, b, c][..2] == [a, b];
    assert [a, b][..1] == [a];
    assert [a][..0] == [];
    assert Exec(s, [a]) == Apply(s, a);
    assert Exec(s, [a, b]) == Apply(Exec(s, [a]), b);
    assert Exec(s, [a, b, c]) == Apply(Exec(s, [a, b]), c);
  }

  /** Two deliveries of charge `k` that both load the row before either saves it. */
  function OverlappingReads(f: nat, k: nat, status: string, agent: string, eventKey: string): seq<Action> {
    var deliver := Deliver(k, status, Some(agent), Some(eventKey), true);
    [deliver, DeliverRead(f), deliver, DeliverRead(f + 1)]
  }

  /** The flight of a callback that has loaded the row of its charge. */
  function LoadedBy(s: State, k: nat, tx: nat, status: string, eventKey: string): Flight
    requires tx < |s.db.rows|
  {
    Loaded(Call(k, status, eventKey), tx, s.db.rows[tx], Attached(s.db.logs, tx))
  }

  lemma ReadLoads(s: State, k: nat, tx: nat, status: string, agent: string, eventKey: string)
    requires k < |s.charges| && FindBySource(s.db.rows, s.charges[k].sourceId) == Some(tx)
    requires ValidateChargeEvent(Some(s.charges[k].id), Some(agent), Some(eventKey), s.version, true).Ok?
    ensures Apply(Apply(s, Deliver(k, status, Some(agent), Some(eventKey), true)), DeliverRead(|s.flights|))
         == s.(flights := s.flights + [LoadedBy(s, k, tx, status, eventKey)])
  {
    UpToTheRead(s, k, status, agent, eventKey, NoFault);
  }

  lemma TwoReadsLoad(s: State, t: State, k: nat, tx: nat, status: string, agent: string, eventKey: string)
    requires k < |s.charges| && FindBySource(s.db.rows, s.charges[k].sourceId) == Some(tx)
    requires ValidateChargeEvent(Some(s.charges[k].id), Some(agent), Some(eventKey), s.version, true).Ok?
    requires t == Exec(s, OverlappingReads(|s.flights|, k, status, agent, eventKey))
    ensures t == s.(flights := s.flights + [LoadedBy(s, k, tx, status, eventKey)] + [LoadedBy(s, k, tx, status, eventKey)])
  {
    var deliver, f := Deliver(k, status, Some(agent), Some(eventKey), true), |s.flights|;
    ExecFour(s, deliver, DeliverRead(f), deliver, DeliverRead(f + 1));
    ReadLoads(s, k, tx, status, agent, eventKey);
    ReadLoads(s.(flights := s.flights + [LoadedBy(s, k, tx, status, eventKey)]), k, tx, status, agent, eventKey);
  }

  /** Overlapping callbacks occur: from every reached state with a deliverable charge a run continues to one in which two
      callbacks have loaded the same row and the same logs, so the save of the second will cut the link of the first one's log. */
  lemma OverlapOccurs(version: string, actions: seq<Action>, s: State, k: nat, status: string, agent: string, eventKey: string)
    requires s == Reached(version, actions) && Deliverable(s, k, agent, eventKey)
    ensures
      var f, tx := |s.flights|, s.charges[k].txId;
      var t := Reached(version, actions + OverlappingReads(f, k, status, agent, eventKey));
      && t.db == s.db && |t.flights| == f + 2 && tx < |s.db.rows|
      && t.flights[f] == t.flights[f + 1] == LoadedBy(s, k, tx, status, eventKey)
  {
    var acts := OverlappingReads(|s.flights|, k, status, agent, eventKey);
    assert ChargeOk(s.origins, s.charges[k]);
    AcceptsExactly(Some(s.charges[k].id), Some(agent), Some(eventKey), s.version, true);
    TwoReadsLoad(s, Exec(s, acts), k, s.charges[k].txId, status, agent, eventKey);
    ExecConcat(Init(version), actions, acts);
  }
}
