/** Python's `sorted` and `list.sort`: a sorted permutation, unique when the order is antisymmetric. */
module Sorting {

  ghost predicate TotalPreorder<T(!new)>(leq: (T, T) -> bool) {
    && (forall x, y :: leq(x, y) || leq(y, x))
    && (forall x, y, z :: leq(x, y) && leq(y, z) ==> leq(x, z))
  }

  ghost predicate TotalOrder<T(!new)>(leq: (T, T) -> bool) {
    TotalPreorder(leq) && forall x, y :: leq(x, y) && leq(y, x) ==> x == y
  }

  ghost predicate Sorted<T>(leq: (T, T) -> bool, s: seq<T>) {
    forall i, j :: 0 <= i < j < |s| ==> leq(s[i], s[j])
  }

  function Insert<T>(leq: (T, T) -> bool, x: T, s: seq<T>): seq<T> {
    if s == [] || leq(x, s[0]) then [x] + s else [s[0]] + Insert(leq, x, s[1..])
  }

  function Sort<T>(leq: (T, T) -> bool, s: seq<T>): seq<T> {
    if s == [] then [] else Insert(leq, s[0], Sort(leq, s[1..]))
  }

  lemma HeadAndTail<T>(s: seq<T>)
    requires s != []
    ensures s == [s[0]] + s[1..] && multiset(s) == multiset{s[0]} + multiset(s[1..])
    ensures multiset(s[1..]) == multiset(s) - multiset{s[0]}
  {
    assert s == [s[0]] + s[1..];
  }

  lemma SortedCons<T>(leq: (T, T) -> bool, x: T, rest: seq<T>)
    requires Sorted(leq, rest) && forall y :: y in multiset(rest) ==> leq(x, y)
    ensures Sorted(leq, [x] + rest)
  {
    forall j | 0 <= j < |rest| ensures leq(x, rest[j]) {
      assert rest[j] in multiset(rest);
    }
  }

  lemma {:induction false} InsertCorrect<T(!new)>(leq: (T, T) -> bool, x: T, s: seq<T>)
    requires TotalPreorder(leq) && Sorted(leq, s)
    ensures Sorted(leq, Insert(leq, x, s))
    ensures multiset(Insert(leq, x, s)) == multiset(s) + multiset{x}
  {
    if s == [] {
    } else if leq(x, s[0]) {
      forall y | y in multiset(s) ensures leq(x, y) {
        var i :| 0 <= i < |s| && s[i] == y;
        assert i == 0 || leq(s[0], s[i]);
      }
      SortedCons(leq, x, s);
    } else {
      InsertCorrect(leq, x, s[1..]);
      HeadAndTail(s);
      forall y | y in multiset(s[1..]) + multiset{x} ensures leq(s[0], y) {
        if y in s[1..] {
          var i :| 0 <= i < |s[1..]| && s[1..][i] == y;
          assert leq(s[0], s[i + 1]);
        }
      }
      SortedCons(leq, s[0], Insert(leq, x, s[1..]));
    }
  }

  lemma {:induction false} SortCorrect<T(!new)>(leq: (T, T) -> bool, s: seq<T>)
    requires TotalPreorder(leq)
    ensures Sorted(leq, Sort(leq, s))
    ensures multiset(Sort(leq, s)) == multiset(s)
  {
    if s == [] {
    } else {
      SortCorrect(leq, s[1..]);
      InsertCorrect(leq, s[0], Sort(leq, s[1..]));
      assert s == [s[0]] + s[1..];
    }
  }

  lemma {:induction false} SortedUnique<T(!new)>(leq: (T, T) -> bool, a: seq<T>, b: seq<T>)
    requires TotalOrder(leq) && Sorted(leq, a) && Sorted(leq, b)
    requires multiset(a) == multiset(b)
    ensures a == b
  {
    if a == [] {
      assert |multiset(b)| == 0;
    } else {
      assert |multiset(a)| == |a| && |multiset(b)| == |b|;
      HeadAndTail(a);
      HeadAndTail(b);
      assert a[0] in multiset(b) && b[0] in multiset(a);
      assert leq(a[0], b[0]) && leq(b[0], a[0]);
      SortedUnique(leq, a[1..], b[1..]);
    }
  }

  /** Lexicographic order on sequences, the order Python uses on strings and on lists. */
  predicate LexLeq<T(==)>(leq: (T, T) -> bool, a: seq<T>, b: seq<T>) {
    if a == [] then true
    else if b == [] then false
    else if a[0] == b[0] then LexLeq(leq, a[1..], b[1..])
    else leq(a[0], b[0])
  }

  function Lex<T(==)>(leq: (T, T) -> bool): (seq<T>, seq<T>) -> bool {
    (a, b) => LexLeq(leq, a, b)
  }

  lemma {:induction false} LexTotal<T(!new)>(leq: (T, T) -> bool, a: seq<T>, b: seq<T>)
    requires TotalOrder(leq)
    ensures LexLeq(leq, a, b) || LexLeq(leq, b, a)
    ensures LexLeq(leq, a, b) && LexLeq(leq, b, a) ==> a == b
  {
    if a != [] && b != [] && a[0] == b[0] {
      LexTotal(leq, a[1..], b[1..]);
      assert a == [a[0]] + a[1..] && b == [b[0]] + b[1..];
    }
  }

  lemma {:induction false} LexTransitive<T(!new)>(leq: (T, T) -> bool, a: seq<T>, b: seq<T>, c: seq<T>)
    requires TotalOrder(leq)
    requires LexLeq(leq, a, b) && LexLeq(leq, b, c)
    ensures LexLeq(leq, a, c)
  {
    if a != [] && b != [] && c != [] && a[0] == b[0] && b[0] == c[0] {
      LexTransitive(leq, a[1..], b[1..], c[1..]);
    }
  }

  lemma LexIsTotalOrder<T(!new)>(leq: (T, T) -> bool)
    requires TotalOrder(leq)
    ensures TotalOrder(Lex(leq))
  {
    var lex := Lex(leq);
    forall a, b ensures lex(a, b) || lex(b, a) {
      LexTotal(leq, a, b);
    }
    forall a, b | lex(a, b) && lex(b, a) ensures a == b {
      LexTotal(leq, a, b);
    }
    forall a, b, c | lex(a, b) && lex(b, c) ensures lex(a, c) {
      LexTransitive(leq, a, b, c);
    }
  }

  /** What the order says: a prefix comes first, else the first difference decides. */
  ghost predicate Precedes<T>(leq: (T, T) -> bool, a: seq<T>, b: seq<T>) {
    a <= b || exists i :: 0 <= i < |a| && i < |b| && a[..i] == b[..i] && a[i] != b[i] && leq(a[i], b[i])
  }

  lemma {:induction false} LexMeans<T>(leq: (T, T) -> bool, a: seq<T>, b: seq<T>)
    ensures LexLeq(leq, a, b) <==> Precedes(leq, a, b)
  {
    if a != [] && b != [] && a[0] == b[0] {
      LexMeans(leq, a[1..], b[1..]);
      PrecedesUnderHead(leq, a, b);
    } else if a != [] && b != [] {
      assert a[..0] == b[..0];
    }
  }

  lemma PrecedesUnderHead<T>(leq: (T, T) -> bool, a: seq<T>, b: seq<T>)
    requires a != [] && b != [] && a[0] == b[0]
    ensures Precedes(leq, a[1..], b[1..]) <==> Precedes(leq, a, b)
  {
    assert a == [a[0]] + a[1..] && b == [b[0]] + b[1..];
    if i :| 0 <= i < |a| && i < |b| && a[..i] == b[..i] && a[i] != b[i] && leq(a[i], b[i]) {
      assert a[1..][..i - 1] == a[..i][1..] && b[1..][..i - 1] == b[..i][1..];
    }
    if i :| 0 <= i < |a[1..]| && i < |b[1..]| && a[1..][..i] == b[1..][..i] && a[1..][i] != b[1..][i]
            && leq(a[1..][i], b[1..][i]) {
      assert a[..i + 1] == [a[0]] + a[1..][..i] && b[..i + 1] == [b[0]] + b[1..][..i];
    }
  }

  predicate CharLeq(a: char, b: char) {
    a as int <= b as int
  }

  /** Python compares lists of strings by comparing their strings code point by code point. */
  function TextLeq(): (string, string) -> bool {
    Lex((a, b) => CharLeq(a, b))
  }

  lemma TextOrder()
    ensures TotalOrder(TextLeq())
    ensures TotalOrder(Lex(TextLeq()))
  {
    var charLeq := (a: char, b: char) => CharLeq(a, b);
    assert TotalOrder(charLeq);
    LexIsTotalOrder(charLeq);
    LexIsTotalOrder(TextLeq());
  }

  /** Strings compare by their first differing character, smaller code points first. */
  lemma TextMeans(a: string, b: string)
    ensures TextLeq()(a, b) <==>
      a <= b || exists i :: 0 <= i < |a| && i < |b| && a[..i] == b[..i] && (a[i] as int) < b[i] as int
  {
    LexMeans((x, y) => CharLeq(x, y), a, b);
    assert forall x, y :: CharLeq(x, y) && x != y <==> (x as int) < y as int;
  }
}
