/** The checkbox-list toggle used by the booking wizard for service ids and by
    the product recommender for hair concerns and goals:
    `prev.includes(x) ? prev.filter(y => y !== x) : [...prev, x]`. */
module Selection {
  import opened Common

  /** Every occurrence of `x` removed, the rest kept in order (`filter(y => y !== x)`). */
  function RemoveAll<T(==,!new)>(s: seq<T>, x: T): (r: seq<T>)
    ensures x !in r
    ensures forall y :: y != x ==> (y in r <==> y in s)
    ensures x !in s ==> r == s
    ensures NoDuplicates(s) ==> NoDuplicates(r)
    ensures |r| <= |s|
  {
    if s == [] then []
    else if s[0] == x then RemoveAll(s[1..], x)
    else
      var t := RemoveAll(s[1..], x);
      assert forall y :: y in t ==> y in s[1..];
      assert NoDuplicates(s) ==> NoDuplicates(s[1..]) && s[0] !in s[1..] by {
        if NoDuplicates(s) {
          forall i, j | 0 <= i < j < |s[1..]| ensures s[1..][i] != s[1..][j] {
            assert s[1..][i] == s[i + 1] && s[1..][j] == s[j + 1];
          }
        }
      }
      [s[0]] + t
  }

  /** Checking or unchecking the box for `x`. */
  function Toggle<T(==,!new)>(s: seq<T>, x: T): (r: seq<T>)
    ensures x in r <==> x !in s
    ensures forall y :: y != x ==> (y in r <==> y in s)
    ensures NoDuplicates(s) ==> NoDuplicates(r)
  {
    if x in s then RemoveAll(s, x) else s + [x]
  }

  /** Toggling the same value twice restores the set of checked values,
      and restores the list itself when the value was not checked before. */
  lemma ToggleTwice<T(!new)>(s: seq<T>, x: T)
    ensures (set y | y in Toggle(Toggle(s, x), x)) == (set y | y in s)
    ensures x !in s ==> Toggle(Toggle(s, x), x) == s
  {
    var once := Toggle(s, x);
    if x !in s {
      assert x in once;
      RemoveAllAppended(s, x);
    }
  }

  /** Removing the value just appended gives back the original list. */
  lemma {:induction false} RemoveAllAppended<T(!new)>(s: seq<T>, x: T)
    requires x !in s
    ensures RemoveAll(s + [x], x) == s
  {
    if s == [] {
      assert [] + [x] == [x];
      assert [x][1..] == [];
    } else {
      assert (s + [x])[1..] == s[1..] + [x];
      RemoveAllAppended(s[1..], x);
    }
  }

  /** A newly checked value goes to the end; unchecking keeps the others' order. */
  lemma ToggleOrder<T(!new)>(s: seq<T>, x: T)
    ensures x !in s ==> Toggle(s, x) == s + [x]
    ensures x in s ==> IsSubsequence(Toggle(s, x), s)
  {
    if x in s {
      RemoveAllIsSubsequence(s, x);
    }
  }

  lemma {:induction false} RemoveAllIsSubsequence<T(!new)>(s: seq<T>, x: T)
    ensures IsSubsequence(RemoveAll(s, x), s)
  {
    if s != [] {
      RemoveAllIsSubsequence(s[1..], x);
      if s[0] == x {
        SubsequenceOfTail(RemoveAll(s[1..], x), s);
      } else {
        assert RemoveAll(s, x) == [s[0]] + RemoveAll(s[1..], x);
        assert ([s[0]] + RemoveAll(s[1..], x))[1..] == RemoveAll(s[1..], x);
      }
    }
  }
}
