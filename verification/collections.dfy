/** Small vocabulary shared by every model: results, duplicate-free sequences and `dict.fromkeys`. */
module Collections {

  datatype Option<+T> = None | Some(value: T)

  datatype Result<+T, +E> = Ok(value: T) | Err(error: E) {
    predicate IsFailure() {
      Err?
    }

    function PropagateFailure<U>(): Result<U, E>
      requires Err?
    {
      Err(error)
    }

    function Extract(): T
      requires Ok?
    {
      value
    }
  }

  predicate NoDup<T(==)>(s: seq<T>) {
    forall i, j :: 0 <= i < j < |s| ==> s[i] != s[j]
  }

  function ToSet<T>(s: seq<T>): set<T> {
    set x | x in s
  }

  lemma {:induction false} NoDupCardinality<T>(s: seq<T>)
    requires NoDup(s)
    ensures |ToSet(s)| == |s|
  {
    if s == [] {
    } else {
      var front, last := s[..|s| - 1], s[|s| - 1];
      NoDupCardinality(front);
      assert ToSet(s) == ToSet(front) + {last};
      assert last !in ToSet(front);
    }
  }

  /** A sequence with a repeated element has fewer distinct elements than positions. */
  lemma {:induction false} CardinalityNoDup<T>(s: seq<T>)
    ensures |ToSet(s)| <= |s|
    ensures |ToSet(s)| == |s| ==> NoDup(s)
  {
    if s == [] {
    } else {
      var front, last := s[..|s| - 1], s[|s| - 1];
      CardinalityNoDup(front);
      assert s == front + [last];
      if last in front {
        assert ToSet(s) == ToSet(front);
      } else {
        assert ToSet(s) == ToSet(front) + {last};
      }
    }
  }

  lemma SubsetCardinality<T>(a: set<T>, b: set<T>)
    requires a <= b
    ensures |a| <= |b|
    ensures |a| == |b| ==> a == b
  {
    assert b == a + (b - a);
  }

  /** A duplicate-free sequence drawn from a set that it fills covers that set. */
  lemma NoDupCovers<T>(s: seq<T>, all: set<T>)
    requires NoDup(s) && ToSet(s) <= all
    ensures |s| <= |all|
    ensures |s| == |all| ==> ToSet(s) == all
  {
    NoDupCardinality(s);
    SubsetCardinality(ToSet(s), all);
  }

  /** `list(dict.fromkeys(s))`: the first occurrence of every element, in order. */
  function Dedup<T(==)>(s: seq<T>): (r: seq<T>)
    ensures NoDup(r)
    ensures forall x | x in s :: x in r
    ensures forall x | x in r :: x in s
  {
    if s == [] then []
    else
      var rest := Dedup(s[..|s| - 1]);
      var last := s[|s| - 1];
      if last in s[..|s| - 1] then rest else rest + [last]
  }

  /** `[x for x in s if keep(x)]`. */
  function Filter<T>(s: seq<T>, keep: T -> bool): (r: seq<T>)
    ensures forall x | x in s && keep(x) :: x in r
    ensures forall x | x in r :: x in s && keep(x)
    ensures |r| <= |s|
  {
    if s == [] then []
    else if keep(s[0]) then [s[0]] + Filter(s[1..], keep)
    else Filter(s[1..], keep)
  }

  lemma FilterEmpty<T>(s: seq<T>, keep: T -> bool)
    requires Filter(s, keep) == []
    ensures forall x | x in s :: !keep(x)
  {
    assert forall x | x in s && keep(x) :: x in Filter(s, keep);
  }

  lemma {:induction false} FilterNoDup<T>(s: seq<T>, keep: T -> bool)
    requires NoDup(s)
    ensures NoDup(Filter(s, keep))
  {
    if s == [] {
    } else {
      FilterNoDup(s[1..], keep);
    }
  }

  lemma {:induction false} NoDupMultiplicity<T>(s: seq<T>, x: T)
    requires NoDup(s)
    ensures multiset(s)[x] == if x in s then 1 else 0
  {
    if s != [] {
      var front := s[..|s| - 1];
      NoDupMultiplicity(front, x);
      assert s == front + [s[|s| - 1]];
      assert s[|s| - 1] !in front;
    }
  }

  lemma {:induction false} MultiplicityNoDup<T(!new)>(s: seq<T>)
    requires forall x :: multiset(s)[x] <= 1
    ensures NoDup(s)
  {
    if s != [] {
      var front, last := s[..|s| - 1], s[|s| - 1];
      assert s == front + [last];
      assert multiset(s) == multiset(front) + multiset{last};
      forall x ensures multiset(front)[x] <= 1 {
        assert multiset(s)[x] <= 1;
      }
      MultiplicityNoDup(front);
      assert multiset(s)[last] == multiset(front)[last] + 1;
      assert last !in multiset(front);
    }
  }

  lemma NoDupConcat<T>(a: seq<T>, b: seq<T>)
    ensures NoDup(a + b) <==> NoDup(a) && NoDup(b) && forall x :: x in b ==> x !in a
  {
    var c := a + b;
    if exists x | x in b :: x in a {
      var x :| x in b && x in a;
      var i :| 0 <= i < |a| && a[i] == x;
      var j :| 0 <= j < |b| && b[j] == x;
      assert c[i] == c[|a| + j];
    } else if NoDup(c) {
      forall i, j | 0 <= i < j < |a| ensures a[i] != a[j] {
        assert c[i] == a[i] && c[j] == a[j];
      }
      forall i, j | 0 <= i < j < |b| ensures b[i] != b[j] {
        assert c[|a| + i] == b[i] && c[|a| + j] == b[j];
      }
    } else {
      var i, j :| 0 <= i < j < |c| && c[i] == c[j];
      RepeatAcross(a, b, i, j);
    }
  }

  lemma RepeatAcross<T>(a: seq<T>, b: seq<T>, i: nat, j: nat)
    requires i < j < |a + b| && (a + b)[i] == (a + b)[j]
    ensures !NoDup(a) || !NoDup(b) || exists x :: x in b && x in a
  {
    if j < |a| {
      assert a[i] == a[j];
    } else if i >= |a| {
      assert b[i - |a|] == b[j - |a|];
    } else {
      assert a[i] in a && b[j - |a|] in b;
    }
  }

  lemma FilterHead<T>(s: seq<T>, keep: T -> bool)
    requires s != []
    ensures Filter(s, keep) == (if keep(s[0]) then [s[0]] else []) + Filter(s[1..], keep)
  {
  }

  lemma FilterSingle<T>(x: T, keep: T -> bool)
    ensures Filter([x], keep) == if keep(x) then [x] else []
  {
  }

  lemma ConcatAssociative<T>(a: seq<T>, b: seq<T>, c: seq<T>)
    ensures (a + b) + c == a + (b + c)
  {
  }

  lemma {:induction false} FilterConcat<T>(a: seq<T>, b: seq<T>, keep: T -> bool)
    ensures Filter(a + b, keep) == Filter(a, keep) + Filter(b, keep)
  {
    if a == [] {
      assert a + b == b;
    } else {
      hide Filter;
      FilterHead(a, keep);
      FilterHead(a + b, keep);
      assert (a + b)[1..] == a[1..] + b;
      FilterConcat(a[1..], b, keep);
      ConcatAssociative(if keep(a[0]) then [a[0]] else [], Filter(a[1..], keep), Filter(b, keep));
    }
  }

  lemma {:induction false} FilterTwice<T>(s: seq<T>, p: T -> bool, q: T -> bool, both: T -> bool)
    requires forall x :: x in s ==> (both(x) <==> p(x) && q(x))
    ensures Filter(Filter(s, p), q) == Filter(s, both)
  {
    if s != [] {
      assert s == [s[0]] + s[1..];
      FilterTwice(s[1..], p, q, both);
    }
  }

  lemma {:induction false} FilterNone<T>(s: seq<T>, p: T -> bool)
    requires forall x :: x in s ==> !p(x)
    ensures Filter(s, p) == []
  {
    if s != [] {
      assert s == [s[0]] + s[1..];
      FilterNone(s[1..], p);
    }
  }

  lemma {:induction false} FilterAgree<T>(s: seq<T>, p: T -> bool, q: T -> bool)
    requires forall x :: x in s ==> p(x) == q(x)
    ensures Filter(s, p) == Filter(s, q)
  {
    if s != [] {
      assert s == [s[0]] + s[1..];
      FilterAgree(s[1..], p, q);
    }
  }

  /** The only element of a kind stands at `k`. */
  ghost predicate SoleAt<T>(s: seq<T>, p: T -> bool, k: int) {
    0 <= k < |s| && p(s[k]) && forall j :: 0 <= j < |s| && p(s[j]) ==> j == k
  }

  lemma SoleInTail<T>(s: seq<T>, p: T -> bool)
    requires s != [] && !p(s[0])
    ensures forall k :: SoleAt(s, p, k) ==> SoleAt(s[1..], p, k - 1) && s[1..][k - 1] == s[k]
    ensures forall k :: SoleAt(s[1..], p, k) ==> SoleAt(s, p, k + 1) && s[k + 1] == s[1..][k]
  {
    assert forall j :: 0 <= j < |s| - 1 ==> s[1..][j] == s[j + 1];
    assert forall j :: 0 < j < |s| ==> s[j] == s[1..][j - 1];
  }

  /** A filter leaves one element exactly when there is only one of the kind. */
  lemma {:induction false} FilterSole<T>(s: seq<T>, p: T -> bool)
    ensures Filter(s, p) == [] <==> forall k :: 0 <= k < |s| ==> !p(s[k])
    ensures |Filter(s, p)| == 1 <==> exists k :: SoleAt(s, p, k)
    ensures forall k :: SoleAt(s, p, k) ==> Filter(s, p) == [s[k]]
  {
    if s != [] {
      var rest := s[1..];
      assert forall j :: 0 <= j < |rest| ==> rest[j] == s[j + 1];
      assert forall j :: 0 < j < |s| ==> s[j] == rest[j - 1];
      FilterSole(rest, p);
      if p(s[0]) {
        assert SoleAt(s, p, 0) <==> Filter(rest, p) == [];
      } else {
        SoleInTail(s, p);
        hide SoleAt;
        assert Filter(s, p) == Filter(rest, p);
        if k :| SoleAt(rest, p, k) {
          assert SoleAt(s, p, k + 1);
        }
      }
    }
  }
}
