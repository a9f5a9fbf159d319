/** What the string and tuple orders, sorting and stripping amount to, position by position. */
module OrderingLaws {
  import opened Ordering
  import opened Text

  /** At the first position where the two differ, `a` has ended or holds the smaller element. */
  ghost predicate SmallerAt<T>(less: (T, T) -> bool, a: seq<T>, b: seq<T>, k: nat) {
    && k <= |a| && k < |b| && a[..k] == b[..k]
    && (k == |a| || less(a[k], b[k]))
  }

  lemma SameBeforeIt<T>(less: (T, T) -> bool, a: seq<T>, b: seq<T>, k: nat)
    requires SmallerAt(less, a, b, k)
    ensures k > 0 ==> a != [] && b != [] && a[0] == b[0]
  {
    if k > 0 { assert a[..k][0] == b[..k][0]; }
  }

  lemma {:induction false} LexExactly<T(!new)>(less: (T, T) -> bool, a: seq<T>, b: seq<T>)
    requires StrictTotal(less)
    ensures LexLess(less, a, b) <==> exists k: nat :: SmallerAt(less, a, b, k)
  {
    if a == [] || b == [] || a[0] != b[0] {
      if LexLess(less, a, b) { assert SmallerAt(less, a, b, 0); }
      if k: nat :| SmallerAt(less, a, b, k) { SameBeforeIt(less, a, b, k); }
    } else {
      LexExactly(less, a[1..], b[1..]);
      if k: nat :| SmallerAt(less, a[1..], b[1..], k) {
        assert a[..k + 1] == [a[0]] + a[1..][..k] && b[..k + 1] == [b[0]] + b[1..][..k];
        assert SmallerAt(less, a, b, k + 1);
      }
      if k: nat :| SmallerAt(less, a, b, k) {
        assert k > 0;
        assert a[1..][..k - 1] == a[..k][1..] && b[1..][..k - 1] == b[..k][1..];
        assert SmallerAt(less, a[1..], b[1..], k - 1);
      }
    }
  }

  /** Strings compare by code point at their first difference, a proper prefix first. */
  lemma StringsByFirstDifference(a: string, b: string)
    ensures Before(a, b) <==> exists k: nat :: k <= |a| && k < |b| && a[..k] == b[..k] && (k == |a| || a[k] < b[k])
  {
    assert StrictTotal(CHAR_ORDER);
    LexExactly(CHAR_ORDER, a, b);
    if k: nat :| k <= |a| && k < |b| && a[..k] == b[..k] && (k == |a| || a[k] < b[k]) {
      assert SmallerAt(CHAR_ORDER, a, b, k);
    }
    if k: nat :| SmallerAt(CHAR_ORDER, a, b, k) {
      assert a[..k] == b[..k];
    }
  }

  /** So do tuples of strings, with the string order at the first difference. */
  lemma TuplesByFirstDifference(a: seq<string>, b: seq<string>)
    ensures TupleBefore(a, b) <==> exists k: nat :: k <= |a| && k < |b| && a[..k] == b[..k] && (k == |a| || Before(a[k], b[k]))
  {
    StringOrderIsTotal();
    LexExactly(STRING_ORDER, a, b);
    if k: nat :| k <= |a| && k < |b| && a[..k] == b[..k] && (k == |a| || Before(a[k], b[k])) {
      assert SmallerAt(STRING_ORDER, a, b, k);
    }
    if k: nat :| SmallerAt(STRING_ORDER, a, b, k) {
      assert a[..k] == b[..k];
    }
  }

  /** Stripping cuts white space off both ends and stops at the first character that is none. */
  lemma {:induction false} StripCutsBothEnds(text: string) returns (left: string, right: string)
    ensures text == left + Strip(text) + right && Blank(left) && Blank(right)
    ensures Strip(text) != [] ==> !IsSpace(Strip(text)[0]) && !IsSpace(Strip(text)[|Strip(text)| - 1])
  {
    hide IsSpace;
    left, right := [], [];
    if text != [] {
      if IsSpace(text[0]) {
        left, right := StripCutsBothEnds(text[1..]);
        assert text == [text[0]] + text[1..];
        left := [text[0]] + left;
      } else if IsSpace(text[|text| - 1]) {
        left, right := StripCutsBothEnds(text[..|text| - 1]);
        assert text == text[..|text| - 1] + [text[|text| - 1]];
        right := right + [text[|text| - 1]];
      } else {
        assert text == [] + text + [];
      }
    }
  }

  /** Blank text is what stripping leaves nothing of. */
  lemma {:induction false} BlankIsStrippedAway(text: string)
    ensures Blank(text) <==> Strip(text) == []
  {
    hide IsSpace;
    var left, right := StripCutsBothEnds(text);
    if Strip(text) != [] {
      assert Strip(text)[0] == text[|left|];
      assert text[|left|] in text;
    }
    if Strip(text) == [] {
      forall c | c in text ensures IsSpace(c) {
        assert c in left || c in right;
      }
    }
  }

  /** The code points that count as white space */
  lemma WhiteSpace(c: char)
    ensures IsSpace(c)
       <==> c as int in {9, 10, 11, 12, 13, 28, 29, 30, 31, 32, 133, 160, 5760, 8192, 8193, 8194, 8195, 8196, 8197, 8198,
                         8199, 8200, 8201, 8202, 8232, 8233, 8239, 8287, 12288}
  {
  }
}
