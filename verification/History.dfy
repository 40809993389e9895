/** The transaction history of a user: the query and its windows. */
module History {
  import opened TransactionTables
  import opened Windows
  import opened Lifecycle
  import opened LifecycleInvariant
  import opened LifecycleSteps

  /** Newest first; rows created at the same time are ordered by id, which the query adds as its last sort key. */
  predicate Before(rows: seq<Row>, a: nat, b: nat)
    requires a < |rows| && b < |rows|
  {
    rows[a].createdAt > rows[b].createdAt || (rows[a].createdAt == rows[b].createdAt && a < b)
  }

  predicate Listed(row: Row, userRefId: string) {
    row.userRefId == userRefId && row.status != PENDING
  }

  predicate IdsOf(rows: seq<Row>, ids: seq<nat>) {
    forall i :: 0 <= i < |ids| ==> ids[i] < |rows|
  }

  function Place(rows: seq<Row>, ids: seq<nat>, x: nat): (r: seq<nat>)
    requires x < |rows| && IdsOf(rows, ids)
    ensures IdsOf(rows, r) && |r| == |ids| + 1
  {
    if ids == [] then [x]
    else if Before(rows, x, ids[0]) then [x] + ids
    else [ids[0]] + Place(rows, ids[1..], x)
  }

  /** The listed rows among the first `n`, newest first. */
  function ListedIds(rows: seq<Row>, userRefId: string, n: nat): (ids: seq<nat>)
    requires n <= |rows|
    ensures IdsOf(rows, ids) && |ids| <= n
  {
    if n == 0 then []
    else
      var earlier := ListedIds(rows, userRefId, n - 1);
      if Listed(rows[n - 1], userRefId) then Place(rows, earlier, n - 1) else earlier
  }

  function HistoryIds(rows: seq<Row>, userRefId: string): (ids: seq<nat>)
    ensures IdsOf(rows, ids) && |ids| <= |rows|
  {
    ListedIds(rows, userRefId, |rows|)
  }

  /** The query's defaults are the first ten. */
  function HistoryPage(rows: seq<Row>, userRefId: string, offset: nat := 0, limit: nat := 10): (ids: seq<nat>)
    ensures IdsOf(rows, ids)
  {
    Window(HistoryIds(rows, userRefId), offset, limit)
  }

  lemma FirstTen(rows: seq<Row>, userRefId: string)
    ensures HistoryPage(rows, userRefId)
         == HistoryIds(rows, userRefId)[..if |HistoryIds(rows, userRefId)| < 10 then |HistoryIds(rows, userRefId)| else 10]
  {
  }

  /* ---------- what the list is ---------- */

  ghost predicate Sorted(rows: seq<Row>, ids: seq<nat>) {
    && IdsOf(rows, ids)
    && forall i, j :: 0 <= i < j < |ids| ==> Before(rows, ids[i], ids[j])
  }

  lemma {:induction false} PlaceKeepsSorted(rows: seq<Row>, ids: seq<nat>, x: nat)
    requires Sorted(rows, ids) && x < |rows| && x !in ids
    ensures Sorted(rows, Place(rows, ids, x))
    ensures forall i: nat :: i in Place(rows, ids, x) <==> i == x || i in ids
  {
    if ids != [] && !Before(rows, x, ids[0]) {
      var rest := ids[1..];
      PlaceKeepsSorted(rows, rest, x);
      var placed := Place(rows, rest, x);
      assert ids == [ids[0]] + rest;
      forall j | 0 <= j < |placed| ensures Before(rows, ids[0], placed[j]) {
        assert placed[j] in placed;
        if placed[j] != x {
          var m :| 0 <= m < |rest| && rest[m] == placed[j];
          assert ids[m + 1] == placed[j];
        }
      }
    }
  }

  lemma {:induction false} ListedIdsAreTheListed(rows: seq<Row>, userRefId: string, n: nat)
    requires n <= |rows|
    ensures Sorted(rows, ListedIds(rows, userRefId, n))
    ensures forall i: nat :: i in ListedIds(rows, userRefId, n) <==> i < n && Listed(rows[i], userRefId)
  {
    if n > 0 {
      var earlier, ids := ListedIds(rows, userRefId, n - 1), ListedIds(rows, userRefId, n);
      ListedIdsAreTheListed(rows, userRefId, n - 1);
      if Listed(rows[n - 1], userRefId) {
        PlaceKeepsSorted(rows, earlier, n - 1);
        assert ids == Place(rows, earlier, n - 1);
      } else {
        assert ids == earlier;
      }
    }
  }

  /** The ids of rows from the latest creation time to the earliest, and by id where the times are equal. */
  ghost predicate NewestFirst(rows: seq<Row>, ids: seq<nat>)
    requires IdsOf(rows, ids)
  {
    forall i, j :: 0 <= i < j < |ids| ==>
      rows[ids[i]].createdAt >= rows[ids[j]].createdAt
      && (rows[ids[i]].createdAt == rows[ids[j]].createdAt ==> ids[i] < ids[j])
  }

  /** Consecutive windows of the history, put together, are one list without repetitions, newest first, of
      exactly the user's rows that are not pending. */
  lemma HistoryWindowsTile(rows: seq<Row>, userRefId: string, limit: nat, n: nat)
    requires limit > 0 && n >= |rows|
    ensures FirstWindows<nat>(HistoryIds(rows, userRefId), limit, n) == HistoryIds(rows, userRefId)
    ensures NewestFirst(rows, HistoryIds(rows, userRefId))
    ensures forall i, j :: 0 <= i < j < |HistoryIds(rows, userRefId)| ==>
              HistoryIds(rows, userRefId)[i] != HistoryIds(rows, userRefId)[j]
    ensures forall i: nat :: i in HistoryIds(rows, userRefId) <==>
              i < |rows| && rows[i].userRefId == userRefId && rows[i].status != "pending"
  {
    ListedIdsAreTheListed(rows, userRefId, |rows|);
    WindowsCover(HistoryIds(rows, userRefId), limit, n);
  }

  /** A window of the history is its rows from the offset on, as many as asked for and there are, newest first. */
  lemma WindowOfHistory(rows: seq<Row>, userRefId: string, offset: nat, limit: nat)
    ensures
      var all, ids := HistoryIds(rows, userRefId), HistoryPage(rows, userRefId, offset, limit);
      && |ids| == (if offset + limit <= |all| then limit else if offset <= |all| then |all| - offset else 0)
      && (forall i :: 0 <= i < |ids| ==> ids[i] == all[offset + i])
      && NewestFirst(rows, ids)
      && (forall i :: 0 <= i < |ids| ==> rows[ids[i]].userRefId == userRefId && rows[ids[i]].status != "pending")
  {
    ListedIdsAreTheListed(rows, userRefId, |rows|);
    WindowHoldsItsItems(HistoryIds(rows, userRefId), offset, limit);
    var all, ids := HistoryIds(rows, userRefId), HistoryPage(rows, userRefId, offset, limit);
    forall i | 0 <= i < |ids| ensures rows[ids[i]].userRefId == userRefId && rows[ids[i]].status != "pending" {
      assert all[offset + i] in all;
    }
  }

  /** In every run a row is in its user's history exactly when its last committed callback was not `pending`; a row no
      callback has committed for is never there, nor is any row in another user's history. */
  lemma HistoryShowsFinishedCallbacks(version: string, actions: seq<Action>, tx: nat, userRefId: string)
    requires tx < |Reached(version, actions).db.rows|
    ensures
      var s := Reached(version, actions);
      && tx < |s.origins|
      && (tx in HistoryIds(s.db.rows, userRefId) <==>
            s.origins[tx].userRefId == userRefId && LastStatus(s.ledger, tx) != PENDING)
      && (tx in HistoryIds(s.db.rows, userRefId) ==> CalledBack(s.ledger, tx))
  {
    ReachedSatisfiesInv(version, actions);
    var s := Reached(version, actions);
    assert RowCoherent(s, tx) && StatusRecorded(s, tx);
    ListedIdsAreTheListed(s.db.rows, userRefId, |s.db.rows|);
    NoCallbackIsPending(s.ledger, tx);
  }

  lemma {:induction false} NoCallbackIsPending(ledger: seq<Entry>, tx: nat)
    ensures !CalledBack(ledger, tx) ==> LastStatus(ledger, tx) == PENDING
  {
    if ledger != [] {
      var n := |ledger| - 1;
      NoCallbackIsPending(ledger[..n], tx);
      LastStatusSnoc(ledger[..n], ledger[n], tx);
      assert ledger[..n] + [ledger[n]] == ledger;
    }
  }
}
