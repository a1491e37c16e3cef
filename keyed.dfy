/**
 * The three list operations every store performs on records keyed by a
 * string (a product id, an order id, a user id or PIN, a cart line id):
 * `Array.prototype.find`, `filter` with `!==` and `map` that rewrites the
 * matching records.  The key is passed as a function so that one definition
 * serves all of them.
 */
module Keyed {
  import opened Wrappers

  /** The index of the first record whose key is `k` (what `find` locates). */
  function Find<T>(s: seq<T>, key: T -> string, k: string): (r: Option<nat>)
    ensures r.Some? ==> r.value < |s| && key(s[r.value]) == k
    ensures r.Some? ==> forall j :: 0 <= j < r.value ==> key(s[j]) != k
    ensures r.None? <==> forall j :: 0 <= j < |s| ==> key(s[j]) != k
  {
    if s == [] then None
    else if key(s[0]) == k then Some(0)
    else match Find(s[1..], key, k)
      case None => None
      case Some(j) => Some(j + 1)
  }

  /** Number of records whose key is `k`. */
  function Count<T>(s: seq<T>, key: T -> string, k: string): (n: nat)
    ensures n <= |s|
    ensures n == 0 <==> forall j :: 0 <= j < |s| ==> key(s[j]) != k
  {
    if s == [] then 0
    else (if key(s[0]) == k then 1 else 0) + Count(s[1..], key, k)
  }

  /** `s.filter(x => key(x) !== k)`: drops every record whose key is `k`. */
  function Remove<T>(s: seq<T>, key: T -> string, k: string): (r: seq<T>)
    ensures |r| == |s| - Count(s, key, k)
    ensures forall i :: 0 <= i < |r| ==> key(r[i]) != k
    ensures Count(s, key, k) == 0 ==> r == s
  {
    if s == [] then []
    else if key(s[0]) == k then Remove(s[1..], key, k)
    else [s[0]] + Remove(s[1..], key, k)
  }

  /** What the filter keeps are records of the input, and it keeps every record without the key. */
  lemma {:induction false} RemoveMembers<T>(s: seq<T>, key: T -> string, k: string)
    ensures forall i :: 0 <= i < |Remove(s, key, k)| ==> Remove(s, key, k)[i] in s
    ensures forall i :: 0 <= i < |s| && key(s[i]) != k ==> s[i] in Remove(s, key, k)
  {
    if s != [] {
      RemoveMembers(s[1..], key, k);
      var r, t := Remove(s, key, k), Remove(s[1..], key, k);
      forall i | 0 <= i < |r|
        ensures r[i] in s
      {
        if key(s[0]) == k {
          assert r[i] in t;
        } else if i > 0 {
          assert r[i] == t[i - 1];
        }
      }
      forall i | 0 <= i < |s| && key(s[i]) != k
        ensures s[i] in r
      {
        if i > 0 {
          assert s[i] == s[1..][i - 1];
        }
      }
    }
  }

  /** `s.map(x => key(x) === k ? f(x) : x)`. */
  function Update<T>(s: seq<T>, key: T -> string, k: string, f: T -> T): (r: seq<T>)
    ensures |r| == |s|
    ensures forall i :: 0 <= i < |s| && key(s[i]) == k ==> r[i] == f(s[i])
    ensures forall i :: 0 <= i < |s| && key(s[i]) != k ==> r[i] == s[i]
  {
    seq(|s|, i requires 0 <= i < |s| => if key(s[i]) == k then f(s[i]) else s[i])
  }

  /** Filtering distributes over concatenation, so the kept records stay in their order. */
  lemma {:induction false} RemoveAppend<T>(a: seq<T>, b: seq<T>, key: T -> string, k: string)
    ensures Remove(a + b, key, k) == Remove(a, key, k) + Remove(b, key, k)
  {
    if a == [] {
      assert a + b == b;
    } else {
      assert (a + b)[1..] == a[1..] + b;
      RemoveAppend(a[1..], b, key, k);
    }
  }

  /** Filtering a single record keeps it exactly when its key differs. */
  lemma RemoveSingleton<T>(x: T, key: T -> string, k: string)
    ensures Remove([x], key, k) == if key(x) == k then [] else [x]
  {
    assert [x][1..] == [];
  }

  /** Filtering twice by the same key is filtering once. */
  lemma {:induction false} RemoveIdempotent<T>(s: seq<T>, key: T -> string, k: string)
    ensures Remove(Remove(s, key, k), key, k) == Remove(s, key, k)
  {
    if s != [] {
      RemoveIdempotent(s[1..], key, k);
      if key(s[0]) != k {
        var t := Remove(s[1..], key, k);
        assert ([s[0]] + t)[1..] == t;
      }
    }
  }

  /** Two lists whose keys agree position by position have the same first match. */
  lemma {:induction false} FindAgree<T, U>(s: seq<T>, keyS: T -> string, t: seq<U>, keyT: U -> string, k: string)
    requires |s| == |t|
    requires forall i :: 0 <= i < |s| ==> keyS(s[i]) == keyT(t[i])
    ensures Find(s, keyS, k) == Find(t, keyT, k)
  {
    if s != [] {
      FindAgree(s[1..], keyS, t[1..], keyT, k);
    }
  }

  /** When only the record at `j` has its key, filtering that key closes the gap it leaves. */
  lemma RemoveAt<T>(s: seq<T>, key: T -> string, j: nat)
    requires j < |s|
    requires forall i :: 0 <= i < |s| && i != j ==> key(s[i]) != key(s[j])
    ensures Remove(s, key, key(s[j])) == s[..j] + s[j + 1..]
  {
    var k := key(s[j]);
    var before, after := s[..j], s[j + 1..];
    SplitAt(s, j);
    forall i | 0 <= i < |before|
      ensures key(before[i]) != k
    {
      assert before[i] == s[i];
    }
    forall i | 0 <= i < |after|
      ensures key(after[i]) != k
    {
      assert after[i] == s[j + 1 + i];
    }
    assert Remove(before, key, k) == before;
    assert Remove(after, key, k) == after;
    RemoveSingleton(s[j], key, k);
    RemoveAppend([s[j]], after, key, k);
    assert Remove([s[j]] + after, key, k) == after;
    RemoveAppend(before, [s[j]] + after, key, k);
  }

  lemma SplitAt<T>(s: seq<T>, j: nat)
    requires j < |s|
    ensures s == s[..j] + ([s[j]] + s[j + 1..])
  {
  }

  /** When only the record at `j` has key `k`, the map rewrites that record alone. */
  lemma UpdateAt<T>(s: seq<T>, key: T -> string, k: string, f: T -> T, j: nat)
    requires j < |s| && key(s[j]) == k
    requires forall i :: 0 <= i < |s| && i != j ==> key(s[i]) != k
    ensures Update(s, key, k, f) == s[j := f(s[j])]
  {
  }

  /** Rewriting records without touching their keys and then filtering is just filtering. */
  lemma {:induction false} RemoveUpdate<T>(s: seq<T>, key: T -> string, k: string, f: T -> T)
    requires forall i :: 0 <= i < |s| ==> key(f(s[i])) == key(s[i])
    ensures Remove(Update(s, key, k, f), key, k) == Remove(s, key, k)
  {
    if s != [] {
      var u := Update(s, key, k, f);
      assert u[1..] == Update(s[1..], key, k, f);
      RemoveUpdate(s[1..], key, k, f);
      if key(s[0]) != k {
        assert u[0] == s[0];
      }
    }
  }

  /** Rewriting records without touching their keys leaves every first match where it was. */
  lemma UpdateKeepsFind<T>(s: seq<T>, key: T -> string, k: string, f: T -> T, k': string)
    requires forall i :: 0 <= i < |s| ==> key(f(s[i])) == key(s[i])
    ensures Find(Update(s, key, k, f), key, k') == Find(s, key, k')
  {
    var u := Update(s, key, k, f);
    FindAgree(u, key, s, key, k');
  }
}
