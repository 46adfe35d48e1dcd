/**
 * The memo table `functools.lru_cache` keeps for a decorated function:
 * at most `maxSize` results keyed by the call's arguments, ordered from the
 * least to the most recently used. A hit makes its entry the most recent;
 * storing into a full table evicts the least recent entry. Results of calls
 * that raise are never stored.
 */
module LruCache {
  import opened Wrappers

  /** `lru_cache`'s bound when the decorator is used bare. */
  const DefaultMaxSize: nat := 128

  /** The position of the key in the table, if it is there. */
  function IndexOf<K(==), V>(es: seq<(K, V)>, k: K): (r: Option<nat>)
    ensures r.None? <==> forall i :: 0 <= i < |es| ==> es[i].0 != k
    ensures r.Some? ==> r.value < |es| && es[r.value].0 == k
                        && forall i :: 0 <= i < r.value ==> es[i].0 != k
  {
    if |es| == 0 then None
    else if es[0].0 == k then Some(0)
    else
      match IndexOf(es[1..], k)
      case None => None
      case Some(i) => Some(i + 1)
  }

  predicate DistinctKeys<K(==), V>(es: seq<(K, V)>) {
    forall i, j :: 0 <= i < j < |es| ==> es[i].0 != es[j].0
  }

  /** The stored result for the key. */
  function Lookup<K(==), V>(es: seq<(K, V)>, k: K): (r: Option<V>)
    ensures r.None? <==> forall i :: 0 <= i < |es| ==> es[i].0 != k
    ensures r.Some? ==> exists i :: 0 <= i < |es| && es[i] == (k, r.value)
  {
    match IndexOf(es, k)
    case None => None
    case Some(i) => Some(es[i].1)
  }

  /** A hit: the key's entry moves to the most recent end, the others keep their order. */
  function Touch<K(==), V>(es: seq<(K, V)>, k: K): (r: seq<(K, V)>)
    requires IndexOf(es, k).Some?
    ensures |r| == |es| && r[|r| - 1] == es[IndexOf(es, k).value]
  {
    var i := IndexOf(es, k).value;
    es[..i] + es[i + 1..] + [es[i]]
  }

  /**
   * Storing the result of a miss: a key already present (stored meanwhile)
   * is left alone; otherwise a full table first drops its least recent
   * entry, and the new entry becomes the most recent.
   */
  function Insert<K(==), V>(es: seq<(K, V)>, k: K, v: V, maxSize: nat): (r: seq<(K, V)>)
    ensures IndexOf(es, k).Some? ==> r == es
    ensures IndexOf(es, k).None? ==> |r| > 0 && r[|r| - 1] == (k, v)
  {
    if IndexOf(es, k).Some? then es
    else if |es| >= maxSize && |es| > 0 then es[1..] + [(k, v)]
    else es + [(k, v)]
  }

  /** A table within its bound and with every key once. */
  ghost predicate WellFormed<K, V>(es: seq<(K, V)>, maxSize: nat) {
    |es| <= maxSize && DistinctKeys(es)
  }

  /** With distinct keys, every entry is what a lookup of its key finds. */
  lemma LookupDistinct<K, V>(es: seq<(K, V)>, i: nat)
    requires DistinctKeys(es) && i < |es|
    ensures Lookup(es, es[i].0) == Some(es[i].1)
  {
  }

  /** With distinct keys, a lookup finds exactly the stored pairs. */
  lemma LookupIsMembership<K, V>(es: seq<(K, V)>, k: K, v: V)
    requires DistinctKeys(es)
    ensures Lookup(es, k) == Some(v) <==> (k, v) in es
  {
    if (k, v) in es {
      var j :| 0 <= j < |es| && es[j] == (k, v);
      LookupDistinct(es, j);
    }
  }

  /** Two tables with distinct keys and the same entries find the same results. */
  lemma SameEntriesSameLookups<K, V>(a: seq<(K, V)>, b: seq<(K, V)>)
    requires DistinctKeys(a) && DistinctKeys(b) && multiset(a) == multiset(b)
    ensures forall k :: Lookup(a, k) == Lookup(b, k)
  {
    forall k ensures Lookup(a, k) == Lookup(b, k) {
      if Lookup(a, k).Some? {
        var v := Lookup(a, k).value;
        LookupIsMembership(a, k, v);
        assert (k, v) in multiset(b);
        LookupIsMembership(b, k, v);
      } else if Lookup(b, k).Some? {
        var v := Lookup(b, k).value;
        LookupIsMembership(b, k, v);
        assert (k, v) in multiset(a);
        LookupIsMembership(a, k, v);
      }
    }
  }

  /** A hit keeps the bound and every stored result; only the order changes. */
  lemma TouchKeepsContents<K, V>(es: seq<(K, V)>, k: K, maxSize: nat)
    requires WellFormed(es, maxSize) && IndexOf(es, k).Some?
    ensures WellFormed(Touch(es, k), maxSize)
    ensures multiset(Touch(es, k)) == multiset(es)
    ensures forall k' :: Lookup(Touch(es, k), k') == Lookup(es, k')
  {
    TouchPermutes(es, k);
    TouchDistinct(es, k);
    SameEntriesSameLookups(Touch(es, k), es);
  }

  lemma TouchPermutes<K, V>(es: seq<(K, V)>, k: K)
    requires IndexOf(es, k).Some?
    ensures multiset(Touch(es, k)) == multiset(es)
  {
    var i := IndexOf(es, k).value;
    assert es == es[..i] + [es[i]] + es[i + 1..];
  }

  lemma TouchDistinct<K, V>(es: seq<(K, V)>, k: K)
    requires DistinctKeys(es) && IndexOf(es, k).Some?
    ensures DistinctKeys(Touch(es, k))
  {
    var i := IndexOf(es, k).value;
    var r := Touch(es, k);
    forall a, b | 0 <= a < b < |r| ensures r[a].0 != r[b].0 {
      var fa := if a < i then a else if a < |r| - 1 then a + 1 else i;
      var fb := if b < i then b else if b < |r| - 1 then b + 1 else i;
      assert r[a] == es[fa] && r[b] == es[fb];
    }
  }

  /** With distinct keys, the most recent entry's key is found at the end. */
  lemma IndexOfLast<K, V>(es: seq<(K, V)>, k: K)
    requires DistinctKeys(es) && |es| > 0 && es[|es| - 1].0 == k
    ensures IndexOf(es, k) == Some(|es| - 1)
  {
    var i := IndexOf(es, k).value;
    assert es[i].0 == k;
  }

  /** A hit on the most recent entry leaves the table as it is. */
  lemma TouchLast<K, V>(es: seq<(K, V)>, k: K)
    requires DistinctKeys(es) && |es| > 0 && es[|es| - 1].0 == k
    ensures Touch(es, k) == es
  {
    IndexOfLast(es, k);
    var n := |es| - 1;
    assert es[n + 1..] == [];
    assert es[..n] + [es[n]] == es;
  }

  /**
   * Storing a new key keeps the table well formed, makes the key find the
   * stored result, and keeps every other result except that of the evicted
   * least recent entry when the table was full.
   */
  lemma InsertStores<K, V>(es: seq<(K, V)>, k: K, v: V, maxSize: nat)
    requires WellFormed(es, maxSize) && maxSize >= 1 && Lookup(es, k).None?
    ensures WellFormed(Insert(es, k, v, maxSize), maxSize)
    ensures Lookup(Insert(es, k, v, maxSize), k) == Some(v)
    ensures forall k' :: k' != k && (|es| < maxSize || es[0].0 != k') ==>
      Lookup(Insert(es, k, v, maxSize), k') == Lookup(es, k')
    ensures |es| >= maxSize ==> Lookup(Insert(es, k, v, maxSize), es[0].0).None?
  {
    InsertDistinct(es, k, v, maxSize);
    LookupIsMembership(Insert(es, k, v, maxSize), k, v);
    InsertKeepsOthers(es, k, v, maxSize);
    if |es| >= maxSize {
      InsertEvicts(es, k, v, maxSize);
    }
  }

  /** The entries kept by storing a new key: all, or all but the least recent one. */
  lemma InsertShape<K, V>(es: seq<(K, V)>, k: K, v: V, maxSize: nat)
    requires |es| <= maxSize && maxSize >= 1 && Lookup(es, k).None?
    ensures var drop := if |es| >= maxSize then 1 else 0;
      Insert(es, k, v, maxSize) == es[drop..] + [(k, v)]
  {
  }

  lemma InsertDistinct<K, V>(es: seq<(K, V)>, k: K, v: V, maxSize: nat)
    requires WellFormed(es, maxSize) && maxSize >= 1 && Lookup(es, k).None?
    ensures WellFormed(Insert(es, k, v, maxSize), maxSize)
  {
    InsertShape(es, k, v, maxSize);
    var r := Insert(es, k, v, maxSize);
    var drop := if |es| >= maxSize then 1 else 0;
    forall a | 0 <= a < |r| - 1 ensures r[a] == es[a + drop] {
      assert r[a] == es[drop..][a];
    }
  }

  lemma InsertKeepsOthers<K, V>(es: seq<(K, V)>, k: K, v: V, maxSize: nat)
    requires WellFormed(es, maxSize) && maxSize >= 1 && Lookup(es, k).None?
    ensures forall k' :: k' != k && (|es| < maxSize || es[0].0 != k') ==>
      Lookup(Insert(es, k, v, maxSize), k') == Lookup(es, k')
  {
    InsertDistinct(es, k, v, maxSize);
    InsertShape(es, k, v, maxSize);
    var r := Insert(es, k, v, maxSize);
    var drop := if |es| >= maxSize then 1 else 0;
    forall k' | k' != k && (|es| < maxSize || es[0].0 != k')
      ensures Lookup(r, k') == Lookup(es, k')
    {
      if Lookup(es, k').Some? {
        var w := Lookup(es, k').value;
        LookupIsMembership(es, k', w);
        var j :| 0 <= j < |es| && es[j] == (k', w);
        assert r[j - drop] == es[drop..][j - drop];
        LookupIsMembership(r, k', w);
      } else {
        forall a | 0 <= a < |r| ensures r[a].0 != k' {
          if a < |r| - 1 {
            assert r[a] == es[drop..][a];
          }
        }
      }
    }
  }

  lemma InsertEvicts<K, V>(es: seq<(K, V)>, k: K, v: V, maxSize: nat)
    requires WellFormed(es, maxSize) && maxSize >= 1 && Lookup(es, k).None? && |es| >= maxSize
    ensures Lookup(Insert(es, k, v, maxSize), es[0].0).None?
  {
    InsertShape(es, k, v, maxSize);
    var r := Insert(es, k, v, maxSize);
    forall a | 0 <= a < |r| ensures r[a].0 != es[0].0 {
      if a < |r| - 1 {
        assert r[a] == es[a + 1];
      }
    }
  }

  /** A memo table, as a mutable object shared by every call of the decorated function. */
  class Cache<K(==), V> {
    var entries: seq<(K, V)>
    const maxSize: nat

    ghost predicate Valid()
      reads this
    {
      maxSize >= 1 && WellFormed(entries, maxSize)
    }

    constructor (maxSize: nat)
      requires maxSize >= 1
      ensures Valid() && this.maxSize == maxSize && entries == []
    {
      this.maxSize := maxSize;
      entries := [];
    }

    /** Looks the key up; a hit becomes the most recent entry. */
    method Get(k: K) returns (r: Option<V>)
      requires Valid()
      modifies this
      ensures Valid()
      ensures r == Lookup(old(entries), k)
      ensures r.Some? ==> entries == Touch(old(entries), k)
      ensures r.None? ==> entries == old(entries)
    {
      r := Lookup(entries, k);
      if r.Some? {
        TouchKeepsContents(entries, k, maxSize);
        entries := Touch(entries, k);
      }
    }

    /** Stores the result of a call that returned. */
    method Put(k: K, v: V)
      requires Valid()
      modifies this
      ensures Valid()
      ensures entries == Insert(old(entries), k, v, maxSize)
      ensures Lookup(entries, k).Some?
      ensures Lookup(old(entries), k).None? ==> Lookup(entries, k) == Some(v)
    {
      if Lookup(entries, k).None? {
        InsertStores(entries, k, v, maxSize);
      }
      entries := Insert(entries, k, v, maxSize);
    }
  }
}
