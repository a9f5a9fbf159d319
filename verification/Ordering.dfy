/** The order of strings and of tuples of strings, and sorted sequences of identifiers. */
module Ordering {

  ghost predicate StrictOrder<T(!new)>(less: (T, T) -> bool) {
    && (forall x :: !less(x, x))
    && (forall x, y, z :: less(x, y) && less(y, z) ==> less(x, z))
  }

  ghost predicate StrictTotal<T(!new)>(less: (T, T) -> bool) {
    StrictOrder(less) && forall x, y :: less(x, y) || x == y || less(y, x)
  }

  predicate LexLess<T(==)>(less: (T, T) -> bool, a: seq<T>, b: seq<T>) {
    b != [] && (a == [] || less(a[0], b[0]) || (a[0] == b[0] && LexLess(less, a[1..], b[1..])))
  }

  lemma {:induction false} LexIrreflexive<T(!new)>(less: (T, T) -> bool, a: seq<T>)
    requires StrictTotal(less)
    ensures !LexLess(less, a, a)
  {
    if a != [] { LexIrreflexive(less, a[1..]); }
  }

  lemma {:induction false} LexTransitive<T(!new)>(less: (T, T) -> bool, a: seq<T>, b: seq<T>, c: seq<T>)
    requires StrictTotal(less) && LexLess(less, a, b) && LexLess(less, b, c)
    ensures LexLess(less, a, c)
  {
    if a != [] && a[0] == b[0] && b[0] == c[0] { LexTransitive(less, a[1..], b[1..], c[1..]); }
  }

  lemma {:induction false} LexTotal<T(!new)>(less: (T, T) -> bool, a: seq<T>, b: seq<T>)
    requires StrictTotal(less)
    ensures LexLess(less, a, b) || a == b || LexLess(less, b, a)
  {
    if a != [] && b != [] && a[0] == b[0] {
      LexTotal(less, a[1..], b[1..]);
      assert a == [a[0]] + a[1..] && b == [b[0]] + b[1..];
    }
  }

  const CHAR_ORDER: (char, char) -> bool := (x: char, y: char) => x < y
  const STRING_ORDER: (string, string) -> bool := (a: string, b: string) => Before(a, b)

  /** String comparison by code points */
  predicate Before(a: string, b: string) { LexLess(CHAR_ORDER, a, b) }

  lemma StringOrderIsTotal()
    ensures StrictTotal(STRING_ORDER)
  {
    assert StrictTotal(CHAR_ORDER);
    forall a: string ensures !Before(a, a) { LexIrreflexive(CHAR_ORDER, a); }
    forall a: string, b: string, c: string | Before(a, b) && Before(b, c) ensures Before(a, c) {
      LexTransitive(CHAR_ORDER, a, b, c);
    }
    forall a: string, b: string ensures Before(a, b) || a == b || Before(b, a) { LexTotal(CHAR_ORDER, a, b); }
  }

  lemma Irreflexive(a: string)
    ensures !Before(a, a)
  {
    StringOrderIsTotal();
    assert !STRING_ORDER(a, a);
  }

  lemma Transitive(a: string, b: string, c: string)
    requires Before(a, b) && Before(b, c)
    ensures Before(a, c)
  {
    StringOrderIsTotal();
    assert STRING_ORDER(a, b) && STRING_ORDER(b, c);
  }

  lemma Total(a: string, b: string)
    ensures Before(a, b) || a == b || Before(b, a)
  {
    StringOrderIsTotal();
    assert STRING_ORDER(a, b) || a == b || STRING_ORDER(b, a);
  }

  /** Tuple comparison of tuples of strings */
  predicate TupleBefore(a: seq<string>, b: seq<string>) { LexLess(STRING_ORDER, a, b) }

  predicate Distinct<T(==)>(s: seq<T>) { forall i, j | 0 <= i < j < |s| :: s[i] != s[j] }

  // ---------------------------------------------------------------- sorting records

  predicate SortedBy<T(!new)>(less: (T, T) -> bool, s: seq<T>) {
    forall i, j :: 0 <= i < j < |s| ==> less(s[i], s[j])
  }

  /** Every two positions hold records that the order tells apart. */
  predicate Separated<T(!new)>(less: (T, T) -> bool, s: seq<T>) {
    forall i, j :: 0 <= i < j < |s| ==> less(s[i], s[j]) || less(s[j], s[i])
  }

  function InsertBy<T>(less: (T, T) -> bool, x: T, s: seq<T>): seq<T> {
    if s == [] || !less(s[0], x) then [x] + s else [s[0]] + InsertBy(less, x, s[1..])
  }

  /** `sorted`, as a stable insertion sort */
  function SortBy<T>(less: (T, T) -> bool, s: seq<T>): seq<T> {
    if s == [] then [] else InsertBy(less, s[0], SortBy(less, s[1..]))
  }

  lemma SortedTail<T(!new)>(less: (T, T) -> bool, head: T, tail: seq<T>)
    requires SortedBy(less, [head] + tail)
    ensures SortedBy(less, tail) && forall y <- tail :: less(head, y)
  {
    var all := [head] + tail;
    forall i, j | 0 <= i < j < |tail| ensures less(tail[i], tail[j]) {
      assert less(all[i + 1], all[j + 1]);
    }
    forall y | y in tail ensures less(head, y) {
      var k :| 0 <= k < |tail| && tail[k] == y;
      assert less(all[0], all[k + 1]);
    }
  }

  lemma SortedCons<T(!new)>(less: (T, T) -> bool, head: T, tail: seq<T>)
    requires SortedBy(less, tail) && forall y <- tail :: less(head, y)
    ensures SortedBy(less, [head] + tail)
  {
  }

  lemma SortedFront<T(!new)>(less: (T, T) -> bool, x: T, s: seq<T>)
    requires StrictOrder(less) && SortedBy(less, s) && s != [] && less(x, s[0])
    ensures forall y <- s :: less(x, y)
  {
    forall y | y in s ensures less(x, y) {
      var k :| 0 <= k < |s| && s[k] == y;
      assert k == 0 || less(s[0], s[k]);
    }
  }

  lemma SeparatedTail<T(!new)>(less: (T, T) -> bool, head: T, tail: seq<T>)
    requires Separated(less, [head] + tail)
    ensures Separated(less, tail) && forall y <- tail :: less(head, y) || less(y, head)
  {
    var all := [head] + tail;
    forall i, j | 0 <= i < j < |tail| ensures less(tail[i], tail[j]) || less(tail[j], tail[i]) {
      assert less(all[i + 1], all[j + 1]) || less(all[j + 1], all[i + 1]);
    }
    forall y | y in tail ensures less(head, y) || less(y, head) {
      var k :| 0 <= k < |tail| && tail[k] == y;
      assert less(all[0], all[k + 1]) || less(all[k + 1], all[0]);
    }
  }

  /** Insertion splits a sorted sequence at the one place where the new record belongs. */
  lemma {:induction false} InsertedBy<T(!new)>(less: (T, T) -> bool, x: T, s: seq<T>) returns (left: seq<T>, right: seq<T>)
    requires StrictOrder(less) && SortedBy(less, s) && forall y <- s :: less(x, y) || less(y, x)
    ensures InsertBy(less, x, s) == left + [x] + right && s == left + right
    ensures SortedBy(less, InsertBy(less, x, s))
  {
    hide StrictOrder, SortedBy;
    if s == [] || !less(s[0], x) {
      left, right := [], s;
      assert s != [] ==> s[0] in s;
      if s != [] { SortedFront(less, x, s); }
      SortedCons(less, x, s);
    } else {
      var head, tail := s[0], s[1..];
      assert s == [head] + tail;
      SortedTail(less, head, tail);
      left, right := InsertedBy(less, x, tail);
      SortedCons(less, head, InsertBy(less, x, tail));
      left := [head] + left;
    }
  }

  lemma {:induction false} SortedAndSame<T(!new)>(less: (T, T) -> bool, s: seq<T>)
    requires StrictOrder(less) && Separated(less, s)
    ensures SortedBy(less, SortBy(less, s))
    ensures |SortBy(less, s)| == |s| && forall x :: x in SortBy(less, s) <==> x in s
  {
    hide StrictOrder, Separated, InsertBy;
    if s != [] {
      var head, tail := s[0], s[1..];
      assert s == [head] + tail;
      SeparatedTail(less, head, tail);
      SortedAndSame(less, tail);
      var left, right := InsertedBy(less, head, SortBy(less, tail));
      assert forall x :: x in tail <==> x in left || x in right;
    }
  }

  /** Two sorted sequences with the same members are equal. */
  lemma {:induction false} SortedUnique<T(!new)>(less: (T, T) -> bool, a: seq<T>, b: seq<T>)
    requires StrictOrder(less) && SortedBy(less, a) && SortedBy(less, b) && forall x :: x in a <==> x in b
    ensures a == b
  {
    assert a != [] ==> a[0] in b;
    assert b != [] ==> b[0] in a;
    if a != [] {
      assert a == [a[0]] + a[1..] && b == [b[0]] + b[1..];
      SortedTail(less, a[0], a[1..]);
      SortedTail(less, b[0], b[1..]);
      var x, y := a[0], b[0];
      assert x == y || less(x, y);
      forall x ensures x in a[1..] <==> x in b[1..] {
        assert x in a <==> x == a[0] || x in a[1..];
        assert x in b <==> x == b[0] || x in b[1..];
      }
      SortedUnique(less, a[1..], b[1..]);
    }
  }

  // ---------------------------------------------------------------- sorted identifiers

  ghost predicate Increasing(s: seq<string>) {
    forall i, j :: 0 <= i < j < |s| ==> Before(s[i], s[j])
  }

  lemma IncreasingUnique(a: seq<string>, b: seq<string>)
    requires Increasing(a) && Increasing(b) && forall x :: x in a <==> x in b
    ensures a == b
  {
    StringOrderIsTotal();
    SortedUnique(STRING_ORDER, a, b);
  }

  predicate IsLeast(x: string, ids: set<string>) { x in ids && forall y <- ids :: x == y || Before(x, y) }

  lemma {:induction false} LeastExists(ids: set<string>)
    requires ids != {}
    ensures exists x <- ids :: IsLeast(x, ids)
    decreases |ids|
  {
    var x :| x in ids;
    var rest := ids - {x};
    if rest == {} {
      assert ids == {x};
      assert IsLeast(x, ids);
    } else {
      LeastExists(rest);
      var least :| least in rest && IsLeast(least, rest);
      Total(x, least);
      var m := if Before(x, least) then x else least;
      forall y | y in ids ensures m == y || Before(m, y) {
        if y != x && m == x && least != y { Transitive(x, least, y); }
      }
      assert IsLeast(m, ids);
    }
  }

  lemma LeastUnique(ids: set<string>, x: string, y: string)
    requires IsLeast(x, ids) && IsLeast(y, ids)
    ensures x == y
  {
    if Before(x, y) && Before(y, x) {
      Transitive(x, y, x);
      Irreflexive(x);
    }
  }

  function Least(ids: set<string>): (r: string)
    requires ids != {}
    ensures IsLeast(r, ids)
  {
    LeastExists(ids);
    assert forall x, y | IsLeast(x, ids) && IsLeast(y, ids) :: x == y by {
      forall x, y | IsLeast(x, ids) && IsLeast(y, ids) ensures x == y { LeastUnique(ids, x, y); }
    }
    var least :| least in ids && IsLeast(least, ids);
    least
  }

  lemma IncreasingCons(x: string, s: seq<string>)
    requires Increasing(s) && forall y <- s :: Before(x, y)
    ensures Increasing([x] + s)
  {
  }

  lemma IncreasingSnoc(s: seq<string>, x: string)
    requires Increasing(s) && forall y <- s :: Before(y, x)
    ensures Increasing(s + [x])
  {
  }

  /** `sorted(ids)` of a set */
  function Sorted(ids: set<string>): (r: seq<string>)
    ensures Increasing(r)
    ensures forall x :: x in r <==> x in ids
    decreases |ids|
  {
    if ids == {} then []
    else
      var x := Least(ids);
      IncreasingCons(x, Sorted(ids - {x}));
      [x] + Sorted(ids - {x})
  }
}
