/**
 * A `LinkedHashMap` created with `accessOrder = true` whose
 * `removeEldestEntry` answers `size > cap`: the entries are kept from the
 * least to the most recently accessed. `put` and `get` of a present key move
 * it to the end; `put` of a new key appends it and then drops the eldest
 * entry if the map has grown past `cap`. A `put` of a present key never evicts.
 */
module AccessOrder {
  import opened Wrappers

  /** The value bound to `k`, from the first entry with that key. */
  function Lookup<V>(s: seq<(string, V)>, k: string): Option<V> {
    if s == [] then None
    else if s[0].0 == k then Some(s[0].1)
    else Lookup(s[1..], k)
  }

  /** No key occurs twice. */
  predicate DistinctKeys<V>(s: seq<(string, V)>) {
    s == [] || (Lookup(s[1..], s[0].0).None? && DistinctKeys(s[1..]))
  }

  /** `s` without the entries for `k`, the rest in order. */
  function Remove<V>(s: seq<(string, V)>, k: string): seq<(string, V)> {
    if s == [] then []
    else if s[0].0 == k then Remove(s[1..], k)
    else [s[0]] + Remove(s[1..], k)
  }

  /** `put(k, v)` followed by `removeEldestEntry` */
  function Put<V>(s: seq<(string, V)>, k: string, v: V, cap: nat): seq<(string, V)> {
    if Lookup(s, k).Some? then Remove(s, k) + [(k, v)]
    else if |s| + 1 > cap then (s + [(k, v)])[1..]
    else s + [(k, v)]
  }

  /** The reordering done by `get(k)`. */
  function Touch<V>(s: seq<(string, V)>, k: string): seq<(string, V)> {
    match Lookup(s, k)
    case None => s
    case Some(v) => Remove(s, k) + [(k, v)]
  }

  lemma {:induction false} LookupAppend<V>(s: seq<(string, V)>, t: seq<(string, V)>, k: string)
    ensures Lookup(s + t, k) == if Lookup(s, k).Some? then Lookup(s, k) else Lookup(t, k)
  {
    if s != [] {
      assert (s + t)[1..] == s[1..] + t;
      LookupAppend(s[1..], t, k);
    } else {
      assert s + t == t;
    }
  }

  lemma {:induction false} LookupRemove<V>(s: seq<(string, V)>, k: string, k': string)
    ensures Lookup(Remove(s, k), k') == if k' == k then None else Lookup(s, k')
  {
    if s != [] {
      LookupRemove(s[1..], k, k');
      if s[0].0 != k {
        assert ([s[0]] + Remove(s[1..], k))[1..] == Remove(s[1..], k);
      }
    }
  }

  lemma {:induction false} RemoveAbsent<V>(s: seq<(string, V)>, k: string)
    requires Lookup(s, k).None?
    ensures Remove(s, k) == s
  {
    if s != [] {
      RemoveAbsent(s[1..], k);
      assert [s[0]] + s[1..] == s;
    }
  }

  lemma {:induction false} RemoveSubset<V>(s: seq<(string, V)>, k: string)
    ensures forall e :: e in Remove(s, k) ==> e in s
  {
    if s != [] {
      RemoveSubset(s[1..], k);
    }
  }

  lemma {:induction false} LookupFound<V>(s: seq<(string, V)>, k: string)
    requires Lookup(s, k).Some?
    ensures (k, Lookup(s, k).value) in s
  {
    if s[0].0 != k {
      LookupFound(s[1..], k);
    }
  }

  lemma {:induction false} RemoveLength<V>(s: seq<(string, V)>, k: string)
    requires DistinctKeys(s) && Lookup(s, k).Some?
    ensures |Remove(s, k)| == |s| - 1
  {
    if s[0].0 == k {
      RemoveAbsent(s[1..], k);
    } else {
      RemoveLength(s[1..], k);
    }
  }

  lemma {:induction false} RemoveDistinct<V>(s: seq<(string, V)>, k: string)
    requires DistinctKeys(s)
    ensures DistinctKeys(Remove(s, k))
  {
    if s != [] {
      RemoveDistinct(s[1..], k);
      if s[0].0 != k {
        var r := Remove(s[1..], k);
        LookupRemove(s[1..], k, s[0].0);
        assert ([s[0]] + r)[1..] == r;
      }
    }
  }

  lemma {:induction false} SnocDistinct<V>(s: seq<(string, V)>, k: string, v: V)
    requires DistinctKeys(s) && Lookup(s, k).None?
    ensures DistinctKeys(s + [(k, v)])
  {
    if s == [] {
      assert s + [(k, v)] == [(k, v)];
    } else {
      assert (s + [(k, v)])[1..] == s[1..] + [(k, v)];
      LookupAppend(s[1..], [(k, v)], s[0].0);
      SnocDistinct(s[1..], k, v);
    }
  }

  /** The entry appended last is found under its key when the key is nowhere else. */
  lemma LookupSnoc<V>(s: seq<(string, V)>, k: string, v: V, k': string)
    requires Lookup(s, k).None?
    ensures Lookup(s + [(k, v)], k') == if k' == k then Some(v) else Lookup(s, k')
  {
    LookupAppend(s, [(k, v)], k');
  }

  /**
   * `put` keeps the map within `cap` entries with distinct keys, binds the
   * key to the new value and makes it the most recently accessed entry; it
   * evicts only when the key is new and the map was full.
   */
  lemma PutShape<V>(s: seq<(string, V)>, k: string, v: V, cap: nat)
    requires DistinctKeys(s) && |s| <= cap && cap >= 1
    ensures var r := Put(s, k, v, cap);
      && DistinctKeys(r) && |r| <= cap
      && Lookup(r, k) == Some(v)
      && r != [] && r[|r| - 1] == (k, v)
      && (forall e :: e in r ==> e in s || e == (k, v))
    ensures Lookup(s, k).Some? ==> |Put(s, k, v, cap)| == |s|
    ensures Lookup(s, k).None? && |s| < cap ==> |Put(s, k, v, cap)| == |s| + 1
    ensures Lookup(s, k).None? && |s| == cap ==> |Put(s, k, v, cap)| == cap
  {
    var r := Put(s, k, v, cap);
    if Lookup(s, k).Some? {
      RemoveDistinct(s, k);
      RemoveLength(s, k);
      RemoveSubset(s, k);
      LookupRemove(s, k, k);
      SnocDistinct(Remove(s, k), k, v);
      LookupSnoc(Remove(s, k), k, v, k);
    } else {
      SnocDistinct(s, k, v);
      LookupSnoc(s, k, v, k);
      if |s| + 1 > cap {
        var t := s + [(k, v)];
        assert t[1..] == s[1..] + [(k, v)];
        assert s[0].0 != k;
        assert Lookup(s[1..], k).None?;
        LookupSnoc(s[1..], k, v, k);
      }
    }
  }

  /**
   * Every other key keeps its value under `put`, except the eldest entry,
   * which is dropped when a new key arrives in a full map.
   */
  lemma PutOthers<V>(s: seq<(string, V)>, k: string, v: V, cap: nat, k': string)
    requires DistinctKeys(s) && |s| <= cap && cap >= 1 && k' != k
    ensures Lookup(Put(s, k, v, cap), k')
         == if Lookup(s, k).None? && |s| == cap && s[0].0 == k' then None else Lookup(s, k')
  {
    if Lookup(s, k).Some? {
      LookupRemove(s, k, k);
      LookupRemove(s, k, k');
      LookupSnoc(Remove(s, k), k, v, k');
    } else if |s| + 1 > cap {
      var t := s + [(k, v)];
      assert t[1..] == s[1..] + [(k, v)];
      assert Lookup(s[1..], k).None?;
      LookupSnoc(s[1..], k, v, k');
    } else {
      LookupSnoc(s, k, v, k');
    }
  }

  /** `get` changes the order only: every lookup is as before, and a present key becomes the most recent. */
  lemma TouchShape<V>(s: seq<(string, V)>, k: string, k': string)
    requires DistinctKeys(s)
    ensures var r := Touch(s, k);
      && DistinctKeys(r) && |r| == |s|
      && Lookup(r, k') == Lookup(s, k')
      && (Lookup(s, k).Some? ==> r[|r| - 1] == (k, Lookup(s, k).value))
      && (forall e :: e in r ==> e in s)
  {
    if Lookup(s, k).Some? {
      var v := Lookup(s, k).value;
      LookupFound(s, k);
      RemoveSubset(s, k);
      RemoveDistinct(s, k);
      RemoveLength(s, k);
      LookupRemove(s, k, k);
      LookupRemove(s, k, k');
      SnocDistinct(Remove(s, k), k, v);
      LookupSnoc(Remove(s, k), k, v, k');
    }
  }

  /** A `get` of the most recently accessed key leaves the order as it is. */
  lemma {:induction false} TouchNewest<V>(s: seq<(string, V)>, k: string, v: V)
    requires DistinctKeys(s) && s != [] && s[|s| - 1] == (k, v)
    ensures Lookup(s, k) == Some(v)
    ensures Touch(s, k) == s
  {
    if |s| == 1 {
      assert Remove(s, k) == Remove(s[1..], k) == [];
    } else {
      var t := s[1..];
      TouchNewest(t, k, v);
      assert s[0].0 != k;
      assert Remove(s, k) == [s[0]] + Remove(t, k);
      assert Touch(s, k) == [s[0]] + (Remove(t, k) + [(k, v)]);
      assert [s[0]] + t == s;
    }
  }
}
