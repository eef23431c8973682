/** Order-preserving filtering of sequences and the set of keys a sequence
    maps to: the two list operations the reconciliation is stated with. */
module Seqs {

  /** The elements of `s` that satisfy `p`, in their original order. */
  function Filter<T>(s: seq<T>, p: T -> bool): (r: seq<T>)
    ensures |r| <= |s|
  {
    if s == [] then [] else (if p(s[0]) then [s[0]] else []) + Filter(s[1..], p)
  }

  /** The set of keys of the elements of `s`. */
  function Image<T(==), K>(s: seq<T>, key: T -> K): set<K>
  {
    set x | x in s :: key(x)
  }

  /** No two elements of `s` share a key. */
  predicate Injective<T, K(==)>(s: seq<T>, key: T -> K)
  {
    forall i, j :: 0 <= i < j < |s| ==> key(s[i]) != key(s[j])
  }

  lemma {:induction false} FilterAppend<T>(a: seq<T>, b: seq<T>, p: T -> bool)
    ensures Filter(a + b, p) == Filter(a, p) + Filter(b, p)
  {
    if a == [] {
      assert a + b == b;
    } else {
      var head := if p(a[0]) then [a[0]] else [];
      assert (a + b)[0] == a[0];
      assert (a + b)[1..] == a[1..] + b;
      calc {
        Filter(a + b, p);
        head + Filter((a + b)[1..], p);
        head + Filter(a[1..] + b, p);
        { FilterAppend(a[1..], b, p); }
        head + (Filter(a[1..], p) + Filter(b, p));
        (head + Filter(a[1..], p)) + Filter(b, p);
      }
    }
  }

  /** Filtering one more element of `s` extends the filtered prefix by that
      element when it satisfies `p`. */
  lemma FilterSnoc<T>(s: seq<T>, i: nat, p: T -> bool)
    requires i < |s|
    ensures Filter(s[..i + 1], p) == Filter(s[..i], p) + (if p(s[i]) then [s[i]] else [])
  {
    assert s[..i + 1] == s[..i] + [s[i]];
    FilterAppend(s[..i], [s[i]], p);
    assert [s[i]][1..] == [];
  }

  /** An in-place filter that splices out elements: `cur` is the filtered
      prefix `kept` of `s0[..k]` followed by the unvisited rest, and the
      element at `index` is the next one to visit. */
  lemma SpliceAt<T>(s0: seq<T>, k: nat, p: T -> bool, kept: seq<T>, cur: seq<T>, index: int)
    requires k < |s0|
    requires kept == Filter(s0[..k], p) && cur == kept + s0[k..] && index == |kept|
    ensures 0 <= index < |cur| && cur[index] == s0[k]
  {
  }

  /** Keeping the visited element extends the filtered prefix. */
  lemma SpliceKeep<T>(s0: seq<T>, k: nat, p: T -> bool, kept: seq<T>, cur: seq<T>)
    requires k < |s0| && p(s0[k])
    requires kept == Filter(s0[..k], p) && cur == kept + s0[k..]
    ensures Filter(s0[..k + 1], p) == kept + [s0[k]]
    ensures cur == (kept + [s0[k]]) + s0[k + 1..]
  {
    FilterSnoc(s0, k, p);
    assert s0[k..] == [s0[k]] + s0[k + 1..];
  }

  /** Splicing out the visited element leaves the filtered prefix as it
      was, followed by the rest. */
  lemma SpliceDrop<T>(s0: seq<T>, k: nat, p: T -> bool, kept: seq<T>, cur: seq<T>, index: int)
    requires k < |s0| && !p(s0[k])
    requires kept == Filter(s0[..k], p) && cur == kept + s0[k..] && index == |kept|
    ensures Filter(s0[..k + 1], p) == kept
    ensures cur[..index] + cur[index + 1..] == kept + s0[k + 1..]
  {
    FilterSnoc(s0, k, p);
    assert s0[k..] == [s0[k]] + s0[k + 1..];
  }

  /** A condition no element meets keeps nothing. */
  lemma {:induction false} FilterNone<T>(s: seq<T>, p: T -> bool)
    requires forall x :: x in s ==> !p(x)
    ensures Filter(s, p) == []
  {
    if s != [] {
      FilterNone(s[1..], p);
    }
  }

  /** An element survives exactly when it is in `s` and satisfies `p`. */
  lemma {:induction false} FilterMembership<T>(s: seq<T>, p: T -> bool)
    ensures forall x :: x in Filter(s, p) <==> x in s && p(x)
  {
    if s != [] {
      FilterMembership(s[1..], p);
      assert s == [s[0]] + s[1..];
    }
  }

  /** Every element of a filtered sequence comes from a later-or-equal
      position of the original. */
  lemma {:induction false} FilterSource<T>(s: seq<T>, p: T -> bool, i: nat) returns (k: nat)
    requires i < |Filter(s, p)|
    ensures i <= k < |s| && s[k] == Filter(s, p)[i] && p(s[k])
  {
    var rest := Filter(s[1..], p);
    if p(s[0]) {
      assert Filter(s, p) == [s[0]] + rest;
      if i == 0 {
        k := 0;
      } else {
        var k' := FilterSource(s[1..], p, i - 1);
        k := k' + 1;
      }
    } else {
      assert Filter(s, p) == rest;
      var k' := FilterSource(s[1..], p, i);
      k := k' + 1;
    }
  }

  /** Filtering twice is filtering once by both conditions. */
  lemma {:induction false} FilterFilter<T>(s: seq<T>, p: T -> bool, q: T -> bool, both: T -> bool)
    requires forall x :: both(x) == (p(x) && q(x))
    ensures Filter(Filter(s, p), q) == Filter(s, both)
  {
    if s != [] {
      FilterFilter(s[1..], p, q, both);
      var head := if p(s[0]) then [s[0]] else [];
      FilterAppend(head, Filter(s[1..], p), q);
    }
  }

  /** Conditions that agree on the elements of `s` filter it alike. */
  lemma {:induction false} FilterAgree<T>(s: seq<T>, p: T -> bool, q: T -> bool)
    requires forall x :: x in s ==> p(x) == q(x)
    ensures Filter(s, p) == Filter(s, q)
  {
    if s != [] {
      FilterAgree(s[1..], p, q);
    }
  }

  /** A condition every element meets keeps the whole sequence. */
  lemma {:induction false} FilterAll<T>(s: seq<T>, p: T -> bool)
    requires forall x :: x in s ==> p(x)
    ensures Filter(s, p) == s
  {
    if s != [] {
      FilterAll(s[1..], p);
    }
  }

  /** Filtering keeps keys distinct. */
  lemma {:induction false} FilterInjective<T, K>(s: seq<T>, p: T -> bool, key: T -> K)
    requires Injective(s, key)
    ensures Injective(Filter(s, p), key)
  {
    if s != [] {
      var rest := Filter(s[1..], p);
      FilterInjective(s[1..], p, key);
      var r := Filter(s, p);
      if p(s[0]) {
        assert r == [s[0]] + rest;
        forall i, j | 0 <= i < j < |r| ensures key(r[i]) != key(r[j]) {
          if i == 0 {
            assert r[j] == rest[j - 1] && rest[j - 1] in rest;
            var k := FilterSource(s[1..], p, j - 1);
            assert s[k + 1] == r[j];
          } else {
            assert r[i] == rest[i - 1] && r[j] == rest[j - 1];
          }
        }
      }
    }
  }

  /** Two key-distinct sequences with no key in common concatenate to a
      key-distinct sequence. */
  lemma InjectiveAppend<T, K>(a: seq<T>, b: seq<T>, key: T -> K)
    requires Injective(a, key) && Injective(b, key)
    requires Image(a, key) !! Image(b, key)
    ensures Injective(a + b, key)
  {
    var ab := a + b;
    forall i, j | 0 <= i < j < |ab| ensures key(ab[i]) != key(ab[j]) {
      if i < |a| && j >= |a| {
        assert ab[i] == a[i] && a[i] in a;
        assert ab[j] == b[j - |a|] && b[j - |a|] in b;
        assert key(ab[i]) in Image(a, key) && key(ab[j]) in Image(b, key);
      } else if i >= |a| {
        assert ab[i] == b[i - |a|] && ab[j] == b[j - |a|];
      }
    }
  }

  lemma ImageAppend<T, K>(a: seq<T>, b: seq<T>, key: T -> K)
    ensures Image(a + b, key) == Image(a, key) + Image(b, key)
  {
    assert forall x :: x in a + b <==> x in a || x in b;
  }
}
