/** The two tables and the repository operations on them.

    A log row holds the link to its transaction; the logs attached to a transaction are the log rows
    that link to it, in insertion order. `Save` is one atomic write: it replaces the row, makes the
    attached logs exactly the given ones plus one new log, and fails on a source another row holds. */
module TransactionTables {
  import opened Results
  import opened Packages

  const PENDING := "pending"
  const SUCCESSFUL := "successful"
  const FAILED := "failed"
  const API := "api"
  const WEBHOOK := "webhook"

  datatype Row = Row(
    paymentType: string,
    provider: string,
    userRefId: string,
    amount: int,
    currency: string,
    productId: string,
    createdAt: int,
    source: Option<string>,
    providerRefId: Option<string>,
    status: string,
    metadata: Metadata,
    updatedAt: Option<int>)

  datatype Log = Log(status: string, channel: string, eventKey: string, createdAt: int, link: Option<nat>)

  datatype Tables = Tables(rows: seq<Row>, logs: seq<Log>)

  datatype SaveError = DuplicateSource

  /* ---------- reads ---------- */

  /** The ids of the logs attached to a transaction, in insertion order. */
  function Attached(logs: seq<Log>, tx: nat): (ids: seq<nat>)
    ensures forall j :: 0 <= j < |ids| ==> ids[j] < |logs|
  {
    if logs == [] then []
    else
      var n := |logs| - 1;
      Attached(logs[..n], tx) + if logs[n].link == Some(tx) then [n] else []
  }

  /** The row a source lookup returns. */
  function FindBySource(rows: seq<Row>, source: string): (found: Option<nat>)
    ensures found.Some? ==> found.value < |rows| && rows[found.value].source == Some(source)
    ensures found.None? ==> forall i :: 0 <= i < |rows| ==> rows[i].source != Some(source)
  {
    if rows == [] then None
    else
      var n := |rows| - 1;
      var earlier := FindBySource(rows[..n], source);
      if earlier.Some? then earlier
      else if rows[n].source == Some(source) then Some(n)
      else None
  }

  /* ---------- writes ---------- */

  predicate SourceTaken(rows: seq<Row>, tx: nat, source: Option<string>) {
    source.Some? && exists i :: 0 <= i < |rows| && i != tx && rows[i].source == source
  }

  function Relinked(log: Log, id: nat, tx: nat, kept: seq<nat>): Log {
    if id in kept then log.(link := Some(tx))
    else if log.link == Some(tx) then log.(link := None)
    else log
  }

  function Relink(logs: seq<Log>, tx: nat, kept: seq<nat>): (r: seq<Log>)
    ensures |r| == |logs|
    ensures forall i :: 0 <= i < |logs| ==> r[i] == Relinked(logs[i], i, tx, kept)
  {
    seq(|logs|, i requires 0 <= i < |logs| => Relinked(logs[i], i, tx, kept))
  }

  function Save(t: Tables, tx: nat, row: Row, kept: seq<nat>, added: Log): Result<Tables, SaveError>
    requires tx < |t.rows|
  {
    if SourceTaken(t.rows, tx, row.source) then Err(DuplicateSource)
    else Ok(Tables(t.rows[tx := row], Relink(t.logs, tx, kept) + [added.(link := Some(tx))]))
  }

  function Insert(t: Tables, row: Row): Tables {
    t.(rows := t.rows + [row])
  }

  /* ---------- the unique index ---------- */

  /** No two rows hold the same source; any number of rows may hold none. */
  ghost predicate Indexed(rows: seq<Row>) {
    forall i, j :: 0 <= i < j < |rows| && rows[i].source.Some? ==> rows[i].source != rows[j].source
  }

  /** A save is refused exactly when the rows would break the unique index, and a refused one is the only failure. */
  lemma SaveRespectsTheIndex(t: Tables, tx: nat, row: Row, kept: seq<nat>, added: Log)
    requires tx < |t.rows| && Indexed(t.rows)
    ensures Save(t, tx, row, kept, added).Ok? <==> Indexed(t.rows[tx := row])
    ensures Save(t, tx, row, kept, added).Ok? ==> Save(t, tx, row, kept, added).value.rows == t.rows[tx := row]
  {
    var after := t.rows[tx := row];
    if Indexed(after) {
      forall i | 0 <= i < |t.rows| && i != tx ensures row.source.None? || t.rows[i].source != row.source {
        assert after[i] == t.rows[i] && after[tx] == row;
      }
    }
  }

  /** A lookup by source finds the row wherever it is, and the index makes it the only one. */
  lemma LookupFindsTheRow(rows: seq<Row>, tx: nat, source: string)
    requires tx < |rows| && Indexed(rows) && rows[tx].source == Some(source)
    ensures FindBySource(rows, source) == Some(tx)
  {
    var found := FindBySource(rows, source);
    assert found.Some? && rows[found.value].source == rows[tx].source;
    assert !(found.value < tx) && !(tx < found.value);
  }

  /* ---------- attached logs and saves ---------- */

  predicate Increasing(ids: seq<nat>) {
    forall i, j :: 0 <= i < j < |ids| ==> ids[i] < ids[j]
  }

  lemma IncreasingSnoc(ids: seq<nat>, n: nat)
    requires Increasing(ids) && forall i :: i in ids ==> i < n
    ensures Increasing(ids + [n])
  {
    forall i, j | 0 <= i < j < |ids| + 1 ensures (ids + [n])[i] < (ids + [n])[j] {
      assert ids[i] in ids;
    }
  }

  lemma {:induction false} AttachedAreTheLinked(logs: seq<Log>, tx: nat)
    ensures Increasing(Attached(logs, tx))
    ensures forall i: nat :: i in Attached(logs, tx) <==> i < |logs| && logs[i].link == Some(tx)
  {
    if logs != [] {
      var n := |logs| - 1;
      AttachedAreTheLinked(logs[..n], tx);
      IncreasingSnoc(Attached(logs[..n], tx), n);
    }
  }

  /** A strictly increasing sequence is determined by its elements. */
  lemma {:induction false} IncreasingIsDetermined(a: seq<nat>, b: seq<nat>)
    requires Increasing(a) && Increasing(b)
    requires forall i :: i in a <==> i in b
    ensures a == b
  {
    assert a != [] ==> a[0] in a;
    assert b != [] ==> b[0] in b;
    if a != [] {
      var x, y := a[|a| - 1], b[|b| - 1];
      assert x in a && x in b;
      assert y in b && y in a;
      assert x == y;
      var a', b' := a[..|a| - 1], b[..|b| - 1];
      forall i ensures i in a' <==> i in b' {
        assert i in a <==> i in a' || i == x;
        assert i in b <==> i in b' || i == x;
        assert x !in a' && x !in b';
      }
      IncreasingIsDetermined(a', b');
    }
  }

  lemma {:induction false} AttachedDependsOnLinks(logs: seq<Log>, other: seq<Log>, tx: nat)
    requires |logs| == |other|
    requires forall i :: 0 <= i < |logs| ==> (logs[i].link == Some(tx) <==> other[i].link == Some(tx))
    ensures Attached(logs, tx) == Attached(other, tx)
  {
    if logs != [] {
      var n := |logs| - 1;
      AttachedDependsOnLinks(logs[..n], other[..n], tx);
    }
  }

  lemma LinkedAfterSave(t: Tables, tx: nat, row: Row, kept: seq<nat>, added: Log, i: nat)
    requires tx < |t.rows| && !SourceTaken(t.rows, tx, row.source)
    requires forall i :: i in kept ==> i < |t.logs|
    ensures
      var logs := Save(t, tx, row, kept, added).value.logs;
      i < |logs| && logs[i].link == Some(tx) <==> i in kept || i == |t.logs|
  {
    if i < |t.logs| {
      assert Save(t, tx, row, kept, added).value.logs[i] == Relinked(t.logs[i], i, tx, kept);
    }
  }

  /** After a save the attached logs are exactly the given ones followed by the new one, in that order. */
  lemma SaveAttaches(t: Tables, tx: nat, row: Row, kept: seq<nat>, added: Log)
    requires tx < |t.rows| && !SourceTaken(t.rows, tx, row.source)
    requires Increasing(kept) && forall i :: i in kept ==> i < |t.logs|
    ensures Attached(Save(t, tx, row, kept, added).value.logs, tx) == kept + [|t.logs|]
  {
    var logs := Save(t, tx, row, kept, added).value.logs;
    var want := kept + [|t.logs|];
    AttachedAreTheLinked(logs, tx);
    IncreasingSnoc(kept, |t.logs|);
    forall i: nat ensures i in Attached(logs, tx) <==> i in want {
      LinkedAfterSave(t, tx, row, kept, added, i);
      assert i in want <==> i in kept || i == |t.logs|;
    }
    IncreasingIsDetermined(Attached(logs, tx), want);
  }

  /** A save with the relation as it is in the table only adds its log. */
  lemma SaveWithItsLogs(t: Tables, tx: nat, row: Row, added: Log)
    requires tx < |t.rows| && !SourceTaken(t.rows, tx, row.source)
    ensures
      var saved := Save(t, tx, row, Attached(t.logs, tx), added);
      && saved == Ok(Tables(t.rows[tx := row], t.logs + [added.(link := Some(tx))]))
      && Attached(saved.value.logs, tx) == Attached(t.logs, tx) + [|t.logs|]
  {
    AttachedAreTheLinked(t.logs, tx);
    SaveAttaches(t, tx, row, Attached(t.logs, tx), added);
    forall i | 0 <= i < |t.logs| ensures Relinked(t.logs[i], i, tx, Attached(t.logs, tx)) == t.logs[i] {
    }
    assert Relink(t.logs, tx, Attached(t.logs, tx)) == t.logs;
  }

  /** A save leaves the attached logs of every transaction alone that none of the kept logs is linked to. */
  lemma SaveKeepsOthers(t: Tables, tx: nat, row: Row, kept: seq<nat>, added: Log, other: nat)
    requires tx < |t.rows| && !SourceTaken(t.rows, tx, row.source)
    requires other != tx
    requires forall i: nat :: i in kept && i < |t.logs| ==> t.logs[i].link != Some(other)
    ensures Attached(Save(t, tx, row, kept, added).value.logs, other) == Attached(t.logs, other)
  {
    var logs := Save(t, tx, row, kept, added).value.logs;
    assert logs[..|t.logs|] == Relink(t.logs, tx, kept);
    AttachedDependsOnLinks(logs[..|t.logs|], t.logs, other);
  }

  /** The logs a save cuts loose are exactly those attached to its row and not among the kept. */
  lemma SaveDetachesExactly(t: Tables, tx: nat, row: Row, kept: seq<nat>, added: Log, i: nat)
    requires tx < |t.rows| && !SourceTaken(t.rows, tx, row.source) && i < |t.logs|
    ensures
      var logs := Save(t, tx, row, kept, added).value.logs;
      t.logs[i].link.Some? && logs[i].link.None? <==> t.logs[i].link == Some(tx) && i !in kept
  {
  }
}
