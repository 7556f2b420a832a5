/**
 * `Array<*>.toPairMap()`: a flat array `[k1, v1, k2, v2, …]` read as a map.
 * Each element is given here by its `toString()`, `None` standing for `null`.
 */
module ArrayExtensions {
  import opened Wrappers

  /** Index `i` is a key position of `a` holding the key `k`. */
  predicate KeyAt(a: seq<Option<string>>, i: int, k: string) {
    0 <= i < |a| && i % 2 == 0 && a[i] == Some(k)
  }

  /** The value paired with the key at `i`: the next element, `""` when it is `null` or missing. */
  function ValueAfter(a: seq<Option<string>>, i: nat): string {
    if i + 1 < |a| then a[i + 1].GetOr("") else ""
  }

  /** The map built from the key positions below `n`, applied left to right. */
  function PairsBefore(a: seq<Option<string>>, n: nat): map<string, string> {
    if n == 0 then map[]
    else if n - 1 < |a| && (n - 1) % 2 == 0 && a[n - 1].Some? then
      PairsBefore(a, n - 1)[a[n - 1].value := ValueAfter(a, n - 1)]
    else PairsBefore(a, n - 1)
  }

  /** The keys are exactly the non-null elements at even indices below `n`. */
  lemma {:induction false} PairsBeforeKeys(a: seq<Option<string>>, n: nat, k: string)
    ensures k in PairsBefore(a, n) <==> exists i :: i < n && KeyAt(a, i, k)
  {
    if n > 0 {
      PairsBeforeKeys(a, n - 1, k);
      if KeyAt(a, n - 1, k) {
        assert k in PairsBefore(a, n);
      }
      if exists i :: i < n && KeyAt(a, i, k) {
        var i :| i < n && KeyAt(a, i, k);
        if i < n - 1 {
          assert k in PairsBefore(a, n - 1);
        }
      }
    }
  }

  /** A key is bound to the value after its last occurrence: later duplicates overwrite earlier ones. */
  lemma {:induction false} PairsBeforeLastWins(a: seq<Option<string>>, n: nat, i: nat, k: string)
    requires i < n && KeyAt(a, i, k)
    requires forall j :: i < j < n ==> !KeyAt(a, j, k)
    ensures k in PairsBefore(a, n) && PairsBefore(a, n)[k] == ValueAfter(a, i)
  {
    if i < n - 1 {
      PairsBeforeLastWins(a, n - 1, i, k);
      assert !KeyAt(a, n - 1, k);
    }
  }

  /**
   * The keys of the result are exactly the non-null elements at even
   * indices; each is bound to the value after its last occurrence.
   */
  method ToPairMap(a: seq<Option<string>>) returns (result: map<string, string>)
    ensures a == [] ==> result == map[]
    ensures result == PairsBefore(a, |a|)
    ensures forall k :: k in result <==> exists i :: KeyAt(a, i, k)
    ensures forall k, i {:trigger KeyAt(a, i, k)} ::
              KeyAt(a, i, k) && (forall j :: i < j ==> !KeyAt(a, j, k)) ==> result[k] == ValueAfter(a, i)
  {
    if a == [] {
      return map[];
    }
    result := map[];
    var i := 0;
    while i < |a|
      invariant 0 <= i <= |a| + 1 && i % 2 == 0
      invariant result == PairsBefore(a, i)
    {
      if a[i].Some? {
        var key := a[i].value;
        var value := if i + 1 < |a| then a[i + 1].GetOr("") else "";
        result := result[key := value];
      }
      i := i + 2;
    }
    assert result == PairsBefore(a, |a|);
    forall k ensures k in result <==> exists i :: KeyAt(a, i, k) {
      PairsBeforeKeys(a, |a|, k);
    }
    forall k, i | KeyAt(a, i, k) && (forall j :: i < j ==> !KeyAt(a, j, k))
      ensures result[k] == ValueAfter(a, i)
    {
      PairsBeforeLastWins(a, |a|, i, k);
    }
  }
}
