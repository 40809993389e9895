/** A charge request handled from start to end without another request in between, and how it relates to the steps. */
module ChargeHandling {
  import opened Results
  import opened TransactionTables
  import opened Sources
  import opened Lifecycle

  /** What the provider answers to a charge request. */
  datatype Reply = Reply(
    id: string,
    status: string,
    qrCode: Option<string>,
    image: Option<string>,
    authorizeUri: Option<string>,
    returnUri: Option<string>,
    card: Option<string>)

  datatype ChargeError = InvalidPaymentType | TransactionNotFound | ProviderFailed | SaveFailed

  /** What the client is told of a charge. */
  datatype ChargeResponse = ChargeResponse(
    status: string,
    id: nat,
    source: string,
    providerRefId: string,
    image: Option<string>,
    authorizeUri: Option<string>,
    returnUri: Option<string>)

  /** `charged` is the charge the provider holds afterwards, whether or not it was saved. */
  datatype ChargeOutcome = ChargeOutcome(db: Tables, charged: Option<Charge>, result: Result<ChargeResponse, ChargeError>)

  /** `retrieved` is the reported type of the source, `reply` the provider's answer; `None` is a failed call. */
  function HandleCharge(
    db: Tables, tx: nat, sourceId: string, retrieved: Option<string>, reply: Option<Reply>, saveFails: bool, now: int)
    : ChargeOutcome
  {
    if !Chargeable(sourceId, retrieved) then ChargeOutcome(db, None, Err(InvalidPaymentType))
    else if tx >= |db.rows| then ChargeOutcome(db, None, Err(TransactionNotFound))
    else if reply.None? then ChargeOutcome(db, None, Err(ProviderFailed))
    else
      var Reply(id, status, qrCode, image, authorizeUri, returnUri, card) := reply.value;
      var row := db.rows[tx];
      var charge := ChargeFor(tx, row, id, sourceId, qrCode, card);
      var saved := Save(db, tx, ChargedRow(row, row, charge), [], ApiLog(now));
      if saveFails || saved.Err? then ChargeOutcome(db, Some(charge), Err(SaveFailed))
      else ChargeOutcome(saved.value, Some(charge), Ok(ChargeResponse(status, tx, sourceId, id, image, authorizeUri, returnUri)))
  }

  function ChargeActions(
    f: nat, tx: nat, sourceId: string, retrieved: Option<string>, reply: Option<Reply>, saveFails: bool, now: int)
    : seq<Action>
  {
    [ ChargeRead(tx, sourceId, retrieved),
      if reply.None? then Fail(f) else ChargeOpen(f, reply.value.id, reply.value.qrCode, reply.value.card),
      if saveFails then Fail(f) else ChargeCommit(f, now) ]
  }

  lemma ExecThree(s: State, a: Action, b: Action, c: Action)
    ensures Exec(s, [a, b, c]) == Apply(Apply(Apply(s, a), b), c)
  {
    assert [a, b, c][..2] == [a, b];
    assert [a, b][..1] == [a];
    assert [a][..0] == [];
    assert Exec(s, [a]) == Apply(s, a);
    assert Exec(s, [a, b]) == Apply(Exec(s, [a]), b);
  }

  lemma UpToTheSave(s: State, tx: nat, sourceId: string, retrieved: Option<string>, reply: Reply)
    requires Chargeable(sourceId, retrieved) && tx < |s.db.rows|
    requires ProviderAccepts(s.charges, reply.id, sourceId)
    ensures
      var f, row := |s.flights|, s.db.rows[tx];
      var charge := ChargeFor(tx, row, reply.id, sourceId, reply.qrCode, reply.card);
      Apply(Apply(s, ChargeRead(tx, sourceId, retrieved)), ChargeOpen(f, reply.id, reply.qrCode, reply.card))
      == s.(charges := s.charges + [charge], flights := s.flights + [Opened(tx, row, |s.charges|)])
  {
  }

  /** The save of a charge whose flight holds the row as it still is. */
  lemma AtTheSave(s: State, t: State, tx: nat, charge: Charge, saveFails: bool, now: int)
    requires tx < |s.db.rows|
    requires t == s.(charges := s.charges + [charge], flights := s.flights + [Opened(tx, s.db.rows[tx], |s.charges|)])
    ensures
      var u := Apply(t, if saveFails then Fail(|s.flights|) else ChargeCommit(|s.flights|, now));
      var saved := Save(s.db, tx, ChargedRow(s.db.rows[tx], s.db.rows[tx], charge), [], ApiLog(now));
      && u.trace == s.trace && u.charges == s.charges + [charge]
      && u.db == if saveFails || saved.Err? then s.db else saved.value
  {
  }

  lemma WithoutReply(s: State, tx: nat, sourceId: string, retrieved: Option<string>, c: Action)
    requires c == Fail(|s.flights|) || (c.ChargeCommit? && c.flight == |s.flights|)
    ensures
      var t := Apply(Apply(Apply(s, ChargeRead(tx, sourceId, retrieved)), Fail(|s.flights|)), c);
      t.db == s.db && t.trace == s.trace && t.charges == s.charges
  {
  }

  /** A refused request starts no flight, so the later steps have nothing to act on. */
  lemma Refused(s: State, tx: nat, sourceId: string, retrieved: Option<string>, b: Action, c: Action)
    requires !Chargeable(sourceId, retrieved) || tx >= |s.db.rows|
    requires b == Fail(|s.flights|) || (b.ChargeOpen? && b.flight == |s.flights|)
    requires c == Fail(|s.flights|) || (c.ChargeCommit? && c.flight == |s.flights|)
    ensures Apply(Apply(Apply(s, ChargeRead(tx, sourceId, retrieved)), b), c) == s
  {
  }

  /** Handling a charge in one go, with any of its calls failing, is one of the runs: the same tables, and exactly the
      outcome's charge at the provider, which stays there when the save fails. */
  lemma ChargingIsARun(
    s: State, tx: nat, sourceId: string, retrieved: Option<string>, reply: Option<Reply>, saveFails: bool, now: int)
    requires reply.Some? ==> ProviderAccepts(s.charges, reply.value.id, sourceId)
    ensures
      var o := HandleCharge(s.db, tx, sourceId, retrieved, reply, saveFails, now);
      var t := Exec(s, ChargeActions(|s.flights|, tx, sourceId, retrieved, reply, saveFails, now));
      && t.db == o.db
      && t.trace == s.trace
      && t.charges == s.charges + (if o.charged.Some? then [o.charged.value] else [])
      && (o.result.Err? ==> t.db == s.db)
  {
    var f := |s.flights|;
    var acts := ChargeActions(f, tx, sourceId, retrieved, reply, saveFails, now);
    ExecThree(s, acts[0], acts[1], acts[2]);
    if !Chargeable(sourceId, retrieved) || tx >= |s.db.rows| {
      Refused(s, tx, sourceId, retrieved, acts[1], acts[2]);
    } else if reply.None? {
      WithoutReply(s, tx, sourceId, retrieved, acts[2]);
    } else {
      UpToTheSave(s, tx, sourceId, retrieved, reply.value);
      var charge := ChargeFor(tx, s.db.rows[tx], reply.value.id, sourceId, reply.value.qrCode, reply.value.card);
      AtTheSave(s, Apply(Apply(s, acts[0]), acts[1]), tx, charge, saveFails, now);
    }
  }
}
