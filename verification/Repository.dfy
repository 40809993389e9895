/** The tables as the repositories update them in place. */
module Repository {
  import opened Results
  import opened Packages
  import opened TransactionTables

  /** A log in an entity's relation: one loaded from the table, or one not saved yet. */
  datatype LogRef = Stored(id: nat) | Unsaved(log: Log)

  /** The relation of an entity as it is loaded. */
  function Loaded(ids: seq<nat>): (refs: seq<LogRef>)
    ensures |refs| == |ids| && forall i :: 0 <= i < |ids| ==> refs[i] == Stored(ids[i])
  {
    seq(|ids|, i requires 0 <= i < |ids| => Stored(ids[i]))
  }

  function StoredIds(refs: seq<LogRef>): seq<nat> {
    if refs == [] then []
    else (if refs[0].Stored? then [refs[0].id] else []) + StoredIds(refs[1..])
  }

  lemma {:induction false} StoredIdsOfLoaded(ids: seq<nat>)
    ensures StoredIds(Loaded(ids)) == ids
  {
    if ids != [] {
      StoredIdsOfLoaded(ids[1..]);
      assert Loaded(ids)[1..] == Loaded(ids[1..]);
    }
  }

  /** A transaction row loaded into memory, with its log relation; services assign its fields and save it. */
  class TransactionStatus {
    const id: nat
    var paymentType: string
    var provider: string
    var userRefId: string
    var amount: int
    var currency: string
    var productId: string
    var createdAt: int
    var source: Option<string>
    var providerRefId: Option<string>
    var status: string
    var metadata: Metadata
    var updatedAt: Option<int>
    var transactionLogs: seq<LogRef>

    function ToRow(): Row
      reads this
    {
      Row(paymentType, provider, userRefId, amount, currency, productId, createdAt,
          source, providerRefId, status, metadata, updatedAt)
    }

    constructor Load(id: nat, row: Row, logs: seq<nat>)
      ensures this.id == id && ToRow() == row
      ensures transactionLogs == Loaded(logs)
    {
      this.id := id;
      paymentType, provider, userRefId := row.paymentType, row.provider, row.userRefId;
      amount, currency, productId, createdAt := row.amount, row.currency, row.productId, row.createdAt;
      source, providerRefId, status := row.source, row.providerRefId, row.status;
      metadata, updatedAt := row.metadata, row.updatedAt;
      transactionLogs := Loaded(logs);
    }
  }

  class Database {
    var rows: seq<Row>
    var logs: seq<Log>

    function Contents(): Tables
      reads this
    {
      Tables(rows, logs)
    }

    constructor ()
      ensures Contents() == Tables([], [])
    {
      rows, logs := [], [];
    }

    method InsertRow(row: Row) returns (id: nat)
      modifies this
      ensures Contents() == Insert(old(Contents()), row)
      ensures id == old(|rows|)
    {
      id := |rows|;
      rows := rows + [row];
    }

    /** Writes row `tx`, makes its attached logs the kept ones plus a new one, and detaches all others. */
    method SaveRow(tx: nat, row: Row, kept: seq<nat>, added: Log) returns (ok: bool)
      requires tx < |rows|
      modifies this
      ensures match Save(old(Contents()), tx, row, kept, added)
              case Ok(t) => ok && Contents() == t
              case Err(_) => !ok && Contents() == old(Contents())
    {
      var saved := Save(Contents(), tx, row, kept, added);
      if saved.Err? {
        return false;
      }
      rows, logs := saved.value.rows, saved.value.logs;
      ok := true;
    }

    /** Saves an entity whose relation is the loaded logs followed by one new log. */
    method SaveEntity(e: TransactionStatus, ghost kept: seq<nat>, ghost added: Log) returns (ok: bool)
      requires e.id < |rows|
      requires e.transactionLogs == Loaded(kept) + [Unsaved(added)]
      modifies this
      ensures match Save(old(Contents()), e.id, old(e.ToRow()), kept, added)
              case Ok(t) => ok && Contents() == t
              case Err(_) => !ok && Contents() == old(Contents())
    {
      var refs := e.transactionLogs;
      var n := |refs| - 1;
      assert refs[..n] == Loaded(kept) && refs[n] == Unsaved(added);
      StoredIdsOfLoaded(kept);
      ok := SaveRow(e.id, e.ToRow(), StoredIds(refs[..n]), refs[n].log);
    }
  }
}
