/** Array operations the pages share: `filter`, `find`, order-preserving sub-lists, and the
    de-duplication `Array.from(new Set(xs))` performs. */
module Collections {

  /** A value that may be absent: an optional field of a record, or `undefined`. */
  datatype Option<T> = None | Some(value: T)

  /** An optional text field used as a condition: present and non-empty. */
  predicate Truthy(o: Option<string>)
  {
    o.Some? && o.value != ""
  }

  /** `xs.find(p)`: the first element that passes, if any. */
  function Find<T(==)>(xs: seq<T>, p: T -> bool): (r: Option<T>)
    ensures r.Some? <==> exists i :: 0 <= i < |xs| && p(xs[i])
    ensures r.Some? ==> exists i :: 0 <= i < |xs| && xs[i] == r.value && p(xs[i]) &&
                                    forall j :: 0 <= j < i ==> !p(xs[j])
  {
    if xs == [] then None
    else if p(xs[0]) then Some(xs[0])
    else
      var r := Find(xs[1..], p);
      assert forall i :: 1 <= i < |xs| ==> xs[i] == xs[1..][i - 1];
      if r.Some? then
        var i :| 0 <= i < |xs[1..]| && xs[1..][i] == r.value && p(xs[1..][i]) &&
                 forall j :: 0 <= j < i ==> !p(xs[1..][j]);
        assert xs[i + 1] == r.value && forall j :: 0 <= j < i + 1 ==> !p(xs[j]);
        r
      else r
  }

  /** `find` gives the element at the first index that passes. */
  lemma {:induction false} FindFirst<T>(xs: seq<T>, p: T -> bool, i: nat)
    requires i < |xs| && p(xs[i])
    requires forall j :: 0 <= j < i ==> !p(xs[j])
    ensures Find(xs, p) == Some(xs[i])
  {
    if i > 0 {
      FindFirst(xs[1..], p, i - 1);
    }
  }

  /** `s.filter(p)`. */
  function Filter<T>(s: seq<T>, p: T -> bool): (r: seq<T>)
    ensures |r| <= |s|
  {
    if s == [] then [] else (if p(s[0]) then [s[0]] else []) + Filter(s[1..], p)
  }

  /** An element is kept exactly when it is in the input and passes the test. */
  lemma {:induction false} FilterMembership<T>(s: seq<T>, p: T -> bool)
    ensures forall x :: x in Filter(s, p) <==> x in s && p(x)
  {
    if s != [] {
      FilterMembership(s[1..], p);
      assert s == [s[0]] + s[1..];
    }
  }

  /** Every element of a filtered list passes the test. */
  lemma FilterAllPass<T>(s: seq<T>, p: T -> bool)
    ensures forall i :: 0 <= i < |Filter(s, p)| ==> p(Filter(s, p)[i])
  {
    FilterMembership(s, p);
    forall i | 0 <= i < |Filter(s, p)| ensures p(Filter(s, p)[i]) {
      assert Filter(s, p)[i] in Filter(s, p);
    }
  }

  lemma {:induction false} FilterAppend<T>(a: seq<T>, b: seq<T>, p: T -> bool)
    ensures Filter(a + b, p) == Filter(a, p) + Filter(b, p)
  {
    if a == [] {
      assert a + b == b;
    } else {
      var head := if p(a[0]) then [a[0]] else [];
      FilterAppend(a[1..], b, p);
      assert (a + b)[0] == a[0];
      assert (a + b)[1..] == a[1..] + b;
      calc {
        Filter(a + b, p);
        head + Filter(a[1..] + b, p);
        head + (Filter(a[1..], p) + Filter(b, p));
        (head + Filter(a[1..], p)) + Filter(b, p);
      }
    }
  }

  /** Filtering a prefix one element longer appends that element when it passes. */
  lemma FilterSnoc<T>(s: seq<T>, p: T -> bool, k: nat)
    requires k < |s|
    ensures Filter(s[..k + 1], p) == if p(s[k]) then Filter(s[..k], p) + [s[k]] else Filter(s[..k], p)
  {
    assert s[..k + 1] == s[..k] + [s[k]];
    FilterAppend(s[..k], [s[k]], p);
  }

  /** `if (fires) list.push(x)`, on values. */
  function PushIf<T>(list: seq<T>, fires: bool, x: T): seq<T>
  {
    if fires then list + [x] else list
  }

  /** After a conditional push, the list holds what it held, and the pushed element when it
      was pushed. */
  lemma PushIfContains<T>(list: seq<T>, fires: bool, x: T, y: T)
    ensures y in PushIf(list, fires, x) <==> y in list || (fires && y == x)
  {
  }

  /** Nothing is dropped exactly when every element passes; then the list is unchanged. */
  lemma {:induction false} FilterKeepsAll<T>(s: seq<T>, p: T -> bool)
    ensures |Filter(s, p)| == |s| <==> forall i :: 0 <= i < |s| ==> p(s[i])
    ensures (forall i :: 0 <= i < |s| ==> p(s[i])) ==> Filter(s, p) == s
  {
    if s != [] {
      var t := s[1..];
      FilterKeepsAll(t, p);
      assert forall i :: 1 <= i < |s| ==> s[i] == t[i - 1];
      assert (forall i :: 0 <= i < |s| ==> p(s[i])) <==> p(s[0]) && forall i :: 0 <= i < |t| ==> p(t[i]);
    }
  }

  /** Filters with tests that agree on every element give the same list. */
  lemma {:induction false} FilterCongruent<T>(s: seq<T>, p: T -> bool, q: T -> bool)
    requires forall i :: 0 <= i < |s| ==> p(s[i]) == q(s[i])
    ensures Filter(s, p) == Filter(s, q)
  {
    if s != [] {
      assert forall i :: 0 <= i < |s| - 1 ==> s[1..][i] == s[i + 1];
      FilterCongruent(s[1..], p, q);
    }
  }

  /** Filtering twice by the same test is filtering once. */
  lemma {:induction false} FilterIdempotent<T>(s: seq<T>, p: T -> bool)
    ensures Filter(Filter(s, p), p) == Filter(s, p)
  {
    if s != [] {
      FilterIdempotent(s[1..], p);
      FilterAppend(if p(s[0]) then [s[0]] else [], Filter(s[1..], p), p);
    }
  }

  /** A filter by a test and a filter by its negation split the list: together they hold
      every element exactly as often as the list does. */
  lemma {:induction false} FilterPartition<T>(s: seq<T>, p: T -> bool, q: T -> bool)
    requires forall x :: q(x) == !p(x)
    ensures multiset(Filter(s, p)) + multiset(Filter(s, q)) == multiset(s)
    ensures |Filter(s, p)| + |Filter(s, q)| == |s|
  {
    if s != [] {
      FilterPartition(s[1..], p, q);
      assert s == [s[0]] + s[1..];
    }
  }

  /** `a` is an order-preserving sub-list of `b`. */
  predicate Subsequence<T(==)>(a: seq<T>, b: seq<T>)
    decreases |b|
  {
    if a == [] then true
    else if b == [] then false
    else (a[0] == b[0] && Subsequence(a[1..], b[1..])) || Subsequence(a, b[1..])
  }

  /** A filtered list is an order-preserving sub-list of its input. */
  lemma {:induction false} FilterIsSubsequence<T>(s: seq<T>, p: T -> bool)
    ensures Subsequence(Filter(s, p), s)
  {
    if s != [] {
      var f := Filter(s, p);
      FilterIsSubsequence(s[1..], p);
      if p(s[0]) {
        assert f[0] == s[0] && f[1..] == Filter(s[1..], p);
      } else if f != [] {
        assert f == Filter(s[1..], p);
      }
    }
  }

  /** No element occurs twice. */
  predicate Distinct<T(==)>(s: seq<T>)
  {
    forall i, j :: 0 <= i < j < |s| ==> s[i] != s[j]
  }

  /** An order-preserving sub-list of a list without repeats has no repeats. */
  lemma {:induction false} SubsequenceDistinct<T>(a: seq<T>, b: seq<T>)
    requires Subsequence(a, b) && Distinct(b)
    ensures Distinct(a)
    ensures forall x :: x in a ==> x in b
    decreases |b|
  {
    if a != [] {
      assert forall i :: 0 <= i < |b| - 1 ==> b[1..][i] == b[i + 1];
      assert b == [b[0]] + b[1..];
      if a[0] == b[0] && Subsequence(a[1..], b[1..]) {
        SubsequenceDistinct(a[1..], b[1..]);
        assert b[0] !in b[1..];
        assert forall i :: 0 <= i < |a| - 1 ==> a[1..][i] == a[i + 1];
        assert a == [a[0]] + a[1..];
      } else {
        SubsequenceDistinct(a, b[1..]);
      }
    }
  }

  /** The index of the first occurrence of `x` in `s`. */
  function FirstIndex<T(==)>(s: seq<T>, x: T): (r: nat)
    requires x in s
    ensures r < |s| && s[r] == x
    ensures forall i :: 0 <= i < r ==> s[i] != x
  {
    if s[0] == x then 0 else 1 + FirstIndex(s[1..], x)
  }

  lemma {:induction false} FirstIndexAppend<T>(s: seq<T>, y: T, x: T)
    requires x in s
    ensures x in s + [y] && FirstIndex(s + [y], x) == FirstIndex(s, x)
  {
    if s[0] != x {
      assert (s + [y])[1..] == s[1..] + [y];
      FirstIndexAppend(s[1..], y, x);
    }
  }

  lemma FirstIndexOfLast<T>(s: seq<T>, x: T)
    requires x !in s
    ensures x in s + [x] && FirstIndex(s + [x], x) == |s|
  {
  }

  /** `Array.from(new Set(s))`: each element once, in the order of its first occurrence. */
  function Dedup<T(==)>(s: seq<T>): seq<T>
  {
    if s == [] then []
    else
      var d := Dedup(s[..|s| - 1]);
      if s[|s| - 1] in d then d else d + [s[|s| - 1]]
  }

  /** De-duplicating a list extended by one element: the element is appended when new. */
  lemma DedupAppend<T>(t: seq<T>, x: T)
    ensures Dedup(t + [x]) == if x in Dedup(t) then Dedup(t) else Dedup(t) + [x]
  {
    assert (t + [x])[..|t|] == t;
  }

  /** The de-duplicated list holds every element of the input exactly once, in the order
      of first occurrence. */
  lemma {:induction false} DedupSpec<T>(s: seq<T>)
    ensures Distinct(Dedup(s))
    ensures forall x :: x in Dedup(s) <==> x in s
    ensures forall i, j :: 0 <= i < j < |Dedup(s)| ==>
              Dedup(s)[i] in s && Dedup(s)[j] in s &&
              FirstIndex(s, Dedup(s)[i]) < FirstIndex(s, Dedup(s)[j])
  {
    if s != [] {
      var t, x := s[..|s| - 1], s[|s| - 1];
      assert s == t + [x];
      DedupSpec(t);
      var d := Dedup(t);
      forall y | y in t ensures FirstIndex(s, y) == FirstIndex(t, y) {
        FirstIndexAppend(t, x, y);
      }
      if x !in d {
        FirstIndexOfLast(t, x);
        var r := d + [x];
        forall i, j | 0 <= i < j < |r|
          ensures r[i] in s && r[j] in s && FirstIndex(s, r[i]) < FirstIndex(s, r[j])
        {
          assert r[i] == d[i] && d[i] in d;
          if j < |d| {
            assert r[j] == d[j];
          } else {
            assert FirstIndex(s, r[i]) == FirstIndex(t, d[i]) < |t|;
          }
        }
      }
    }
  }
}
