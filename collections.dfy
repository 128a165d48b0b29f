/** The list operations the controllers and stores apply to MongoDB result sets and to arrays. */
module Collections {
  import opened Common

  /** Newest first: the order `.sort({ createdAt: -1 })` gives a result set. */
  predicate SortedDesc<T>(s: seq<T>, key: T -> int)
  {
    forall i, j :: 0 <= i < j < |s| ==> key(s[i]) >= key(s[j])
  }

  /** An element no smaller than the head of a sorted list can go in front of it. */
  lemma SortedCons<T>(a: T, t: seq<T>, key: T -> int)
    requires SortedDesc(t, key) && (t == [] || key(a) >= key(t[0]))
    ensures SortedDesc([a] + t, key)
  {
    forall i, j | 0 <= i < j < |[a] + t| ensures key(([a] + t)[i]) >= key(([a] + t)[j]) {
      if i == 0 && j > 1 {
        assert key(t[0]) >= key(t[j - 1]);
      }
    }
  }

  function Insert<T(==)>(x: T, s: seq<T>, key: T -> int): (r: seq<T>)
    requires SortedDesc(s, key)
    ensures SortedDesc(r, key)
    ensures multiset(r) == multiset(s) + multiset{x}
    ensures key(r[0]) == key(x) || (s != [] && key(r[0]) == key(s[0]))
  {
    if s == [] || key(x) >= key(s[0]) then [x] + s
    else
      assert SortedDesc(s[1..], key);
      var tail := Insert(x, s[1..], key);
      assert s == [s[0]] + s[1..];
      SortedCons(s[0], tail, key);
      [s[0]] + tail
  }

  /** The elements of `s`, largest key first. */
  function SortDesc<T(==)>(s: seq<T>, key: T -> int): (r: seq<T>)
    ensures SortedDesc(r, key)
    ensures multiset(r) == multiset(s)
  {
    if s == [] then []
    else
      assert s == [s[0]] + s[1..];
      Insert(s[0], SortDesc(s[1..], key), key)
  }

  /** `array.filter(keep)`: the elements that pass, in their original order. */
  function Filter<T>(s: seq<T>, keep: T -> bool): (r: seq<T>)
    ensures |r| <= |s|
    ensures forall i :: 0 <= i < |r| ==> keep(r[i])
  {
    if s == [] then [] else (if keep(s[0]) then [s[0]] else []) + Filter(s[1..], keep)
  }

  /** Filtering keeps every passing element as often as it occurs, and no other element. */
  lemma {:induction false} FilterMultiplicity<T>(s: seq<T>, keep: T -> bool, x: T)
    ensures multiset(Filter(s, keep))[x] == if keep(x) then multiset(s)[x] else 0
  {
    if s != [] {
      FilterMultiplicity(s[1..], keep, x);
      assert s == [s[0]] + s[1..];
    }
  }

  lemma {:induction false} FilterMembers<T>(s: seq<T>, keep: T -> bool, x: T)
    ensures x in Filter(s, keep) <==> x in s && keep(x)
  {
    if s != [] {
      FilterMembers(s[1..], keep, x);
      assert x in s <==> x == s[0] || x in s[1..];
    }
  }

  lemma {:induction false} FilterConcat<T>(a: seq<T>, b: seq<T>, keep: T -> bool)
    ensures Filter(a + b, keep) == Filter(a, keep) + Filter(b, keep)
  {
    if a == [] {
      assert a + b == b;
    } else {
      FilterConcat(a[1..], b, keep);
      var head := if keep(a[0]) then [a[0]] else [];
      assert Filter(a + b, keep) == head + Filter(a[1..] + b, keep) by {
        assert (a + b)[0] == a[0] && (a + b)[1..] == a[1..] + b;
      }
      assert Filter(a, keep) == head + Filter(a[1..], keep);
    }
  }

  lemma {:induction false} FilterAll<T>(s: seq<T>, keep: T -> bool)
    requires forall i :: 0 <= i < |s| ==> keep(s[i])
    ensures Filter(s, keep) == s
  {
    if s != [] {
      FilterAll(s[1..], keep);
      assert s == [s[0]] + s[1..];
    }
  }

  /** Filtering out at least one element shortens the sequence. */
  lemma {:induction false} FilterShorter<T>(s: seq<T>, keep: T -> bool, k: nat)
    requires k < |s| && !keep(s[k])
    ensures |Filter(s, keep)| < |s|
  {
    if k > 0 {
      FilterShorter(s[1..], keep, k - 1);
    }
  }

  /** `list.filter(y => y !== x)`: every occurrence of `x` removed, the rest kept in order. */
  function RemoveAll<T(==,!new)>(s: seq<T>, x: T): (r: seq<T>)
    ensures x !in r
    ensures forall y :: y in r <==> y in s && y != x
    ensures x !in s ==> r == s
  {
    FilterMembersAll(s, x);
    if x in s then Filter(s, y => y != x)
    else FilterAll(s, y => y != x); Filter(s, y => y != x)
  }

  lemma FilterMembersAll<T(!new)>(s: seq<T>, x: T)
    ensures forall y :: y in Filter(s, z => z != x) <==> y in s && y != x
  {
    forall y ensures y in Filter(s, z => z != x) <==> y in s && y != x {
      FilterMembers(s, z => z != x, y);
    }
  }

  /** Removing keeps the relative order: it distributes over concatenation. */
  lemma RemoveAllConcat<T(!new)>(a: seq<T>, b: seq<T>, x: T)
    ensures RemoveAll(a + b, x) == RemoveAll(a, x) + RemoveAll(b, x)
  {
    FilterConcat(a, b, y => y != x);
  }

  /** No element occurs twice. */
  predicate Distinct<T(==)>(s: seq<T>)
  {
    forall i, j :: 0 <= i < j < |s| ==> s[i] != s[j]
  }

  lemma {:induction false} FilterDistinct<T>(s: seq<T>, keep: T -> bool)
    requires Distinct(s)
    ensures Distinct(Filter(s, keep))
  {
    if s != [] {
      FilterDistinct(s[1..], keep);
      FilterMembers(s[1..], keep, s[0]);
      assert s[0] !in s[1..];
      assert Filter(s, keep) == (if keep(s[0]) then [s[0]] else []) + Filter(s[1..], keep);
    }
  }

  /** Removing an element keeps a list free of duplicates. */
  lemma RemoveAllDistinct<T(!new)>(s: seq<T>, x: T)
    requires Distinct(s)
    ensures Distinct(RemoveAll(s, x))
  {
    FilterDistinct(s, y => y != x);
  }

  /** Appending an element that was absent and then removing it gives back the list. */
  lemma AppendThenRemove<T(!new)>(s: seq<T>, x: T)
    requires x !in s
    ensures RemoveAll(s + [x], x) == s
  {
    RemoveAllConcat(s, [x], x);
    assert RemoveAll([x], x) == [];
  }

  /** The position of the first element satisfying `p`, as `findOne` and `find` pick it. */
  function FirstIndex<T>(s: seq<T>, p: T -> bool): (r: Option<nat>)
    ensures r.Some? ==> r.value < |s| && p(s[r.value])
    ensures r.Some? ==> forall k :: 0 <= k < r.value ==> !p(s[k])
    ensures r.None? <==> forall k :: 0 <= k < |s| ==> !p(s[k])
  {
    if s == [] then None
    else if p(s[0]) then Some(0)
    else match FirstIndex(s[1..], p)
      case None => None
      case Some(i) => Some(i + 1)
  }

  /** Two lists that agree on every element satisfying `p` and on where such elements are
      find the same first one. */
  lemma {:induction false} FirstIndexAgree<T>(s: seq<T>, t: seq<T>, p: T -> bool)
    requires |s| <= |t|
    requires forall k :: 0 <= k < |t| ==> (p(t[k]) <==> k < |s| && p(s[k]))
    requires forall k :: 0 <= k < |s| && p(s[k]) ==> t[k] == s[k]
    ensures FirstIndex(s, p) == FirstIndex(t, p)
    ensures FirstIndex(s, p).Some? ==> s[FirstIndex(s, p).value] == t[FirstIndex(t, p).value]
  {
    if s != [] {
      FirstIndexAgree(s[1..], t[1..], p);
    } else if t != [] {
      assert forall k :: 0 <= k < |t| ==> !p(t[k]);
    }
  }

  /** Two lists of the same length on which `p` holds at the same positions have the same first
      match. */
  lemma {:induction false} FirstIndexSameTruth<T>(s: seq<T>, t: seq<T>, p: T -> bool)
    requires |s| == |t|
    requires forall k :: 0 <= k < |s| ==> (p(s[k]) <==> p(t[k]))
    ensures FirstIndex(s, p) == FirstIndex(t, p)
  {
    if s != [] {
      FirstIndexSameTruth(s[1..], t[1..], p);
    }
  }
}
