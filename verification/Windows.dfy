/** Contiguous windows of a list, as offset/limit queries and page slices take them. */
module Windows {

  function Min(a: int, b: int): int {
    if a < b then a else b
  }

  function Window<T>(list: seq<T>, offset: nat, limit: nat): seq<T> {
    list[Min(offset, |list|)..Min(offset + limit, |list|)]
  }

  /** A window holds the items from the offset on, as many as asked for and there are. */
  lemma WindowHoldsItsItems<T>(list: seq<T>, offset: nat, limit: nat)
    ensures
      var w := Window(list, offset, limit);
      && |w| == (if offset + limit <= |list| then limit else if offset <= |list| then |list| - offset else 0)
      && forall i :: 0 <= i < |w| ==> w[i] == list[offset + i]
  {
  }

  /** The first `n` consecutive windows of `limit` items each, put together. */
  function FirstWindows<T>(list: seq<T>, limit: nat, n: nat): seq<T> {
    if n == 0 then [] else FirstWindows(list, limit, n - 1) + Window(list, (n - 1) * limit, limit)
  }

  /** Two adjoining windows are one window. */
  lemma WindowsAdjoin<T>(list: seq<T>, offset: nat, first: nat, second: nat)
    ensures Window(list, offset, first) + Window(list, offset + first, second) == Window(list, offset, first + second)
  {
  }

  /** Consecutive windows reproduce the list up to where they reach. */
  lemma {:induction false} WindowsTile<T>(list: seq<T>, limit: nat, n: nat)
    ensures n * limit >= 0
    ensures FirstWindows(list, limit, n) == list[..Min(n * limit, |list|)]
  {
    if n > 0 {
      WindowsTile(list, limit, n - 1);
      assert n * limit == (n - 1) * limit + limit;
      WindowsAdjoin(list, 0, (n - 1) * limit, limit);
    }
  }

  /** With a positive limit some number of windows covers the whole list, and no further window adds anything. */
  lemma WindowsCover<T>(list: seq<T>, limit: nat, n: nat)
    requires limit > 0 && n >= |list|
    ensures FirstWindows(list, limit, n) == list
    ensures Window(list, n * limit, limit) == []
  {
    WindowsTile(list, limit, n);
    assert n * limit >= n by { Scale(n, limit); }
  }

  lemma Scale(n: nat, limit: nat)
    requires limit > 0
    ensures n * limit >= n
  {
    assert n * limit == n * (limit - 1) + n;
    assert n * (limit - 1) >= 0;
  }
}
