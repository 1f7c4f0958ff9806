/** The home page's salon list: a case-insensitive substring search over the
    salon's name, location and service names, an optional "Top Rated" sort by
    average review rating, and the filter button that switches it on and off. */
module SalonSearch {
  import opened Common
  import opened SalonData

  // ---------------------------------------------------------------------------
  // Case-insensitive substring search

  /** Lower-case of one character, for the ASCII letters A–Z. */
  function LowerChar(c: char): (l: char)
    ensures 'A' <= c <= 'Z' ==> l as int == c as int + 32
    ensures !('A' <= c <= 'Z') ==> l == c
  {
    if 'A' <= c <= 'Z' then (c as int + 32) as char else c
  }

  /** `toLowerCase`, character by character. */
  function Lower(s: string): (l: string)
    ensures |l| == |s|
    ensures forall i :: 0 <= i < |s| ==> l[i] == LowerChar(s[i])
  {
    if s == [] then [] else [LowerChar(s[0])] + Lower(s[1..])
  }

  /** `text.includes(query)`: the query starts at the head of the text, or
      somewhere in its tail. The empty query is in every text, and a query
      is only found in a text at least as long. */
  predicate Contains(text: string, query: string)
    ensures query == [] ==> Contains(text, query)
    ensures Contains(text, query) ==> |query| <= |text|
  {
    query <= text || (text != [] && Contains(text[1..], query))
  }

  /** The query occurs in the text starting at position `i`. */
  predicate OccursAt(text: string, query: string, i: int) {
    0 <= i <= |text| - |query| && text[i..i + |query|] == query
  }

  /** `Contains` finds exactly the texts in which the query occurs somewhere. */
  lemma ContainsMeansOccurs(text: string, query: string)
    ensures Contains(text, query) <==> exists i :: OccursAt(text, query, i)
  {
    if Contains(text, query) {
      var i := ContainsWitness(text, query);
    }
    if exists i :: OccursAt(text, query, i) {
      var i :| OccursAt(text, query, i);
      OccursImpliesContains(text, query, i);
    }
  }

  /** A position where `Contains` finds the query. */
  lemma {:induction false} ContainsWitness(text: string, query: string) returns (i: int)
    requires Contains(text, query)
    ensures OccursAt(text, query, i)
  {
    if query <= text {
      i := 0;
      assert text[0..|query|] == query;
    } else {
      var j := ContainsWitness(text[1..], query);
      i := j + 1;
      assert text[i..i + |query|] == text[1..][j..j + |query|];
    }
  }

  /** An occurrence at position `i` is found by `Contains`. */
  lemma {:induction false} OccursImpliesContains(text: string, query: string, i: int)
    requires OccursAt(text, query, i)
    ensures Contains(text, query)
    decreases i
  {
    if i == 0 {
      assert query <= text;
    } else {
      assert text[1..][i - 1..i - 1 + |query|] == text[i..i + |query|];
      OccursImpliesContains(text[1..], query, i - 1);
    }
  }

  /** The salon's name, location or one of its service names contains the
      query, ignoring case; the empty query matches every salon. */
  predicate MatchesQuery(salon: Salon, query: string)
    ensures query == "" ==> MatchesQuery(salon, query)
  {
    var q := Lower(query);
    || Contains(Lower(salon.name), q)
    || Contains(Lower(salon.location), q)
    || exists service :: service in salon.services && Contains(Lower(service.name), q)
  }

  /** The search step of the effect: an empty query keeps every salon;
      otherwise exactly the matching salons are kept, in their original order. */
  function SearchFilter(salons: seq<Salon>, query: string): (r: seq<Salon>)
    ensures query == "" ==> r == salons
    ensures forall s :: s in r <==> s in salons && (query == "" || MatchesQuery(s, query))
    ensures IsSubsequence(r, salons)
  {
    if query == "" then
      SubsequenceReflexive(salons);
      salons
    else Filter(salons, (s: Salon) => MatchesQuery(s, query))
  }

  lemma {:induction false} SubsequenceReflexive<T>(s: seq<T>)
    ensures IsSubsequence(s, s)
  {
    if s != [] {
      SubsequenceReflexive(s[1..]);
    }
  }

  /** Lower-casing twice is lower-casing once. */
  lemma LowerIdempotent(s: string)
    ensures Lower(Lower(s)) == Lower(s)
  {
    assert forall i :: 0 <= i < |s| ==> Lower(Lower(s))[i] == Lower(s)[i];
  }

  /** The case of the query does not matter: it matches the same salons as
      its lower-cased form. */
  lemma QueryCaseIgnored(salon: Salon, query: string)
    ensures MatchesQuery(salon, query) <==> MatchesQuery(salon, Lower(query))
  {
    LowerIdempotent(query);
  }

  /** The empty-query guard only saves work: matching every salon against
      the empty query would keep them all anyway. */
  lemma EmptyQueryMatchesAll(salons: seq<Salon>)
    ensures Filter(salons, (s: Salon) => MatchesQuery(s, "")) == salons
  {
    FilterAllPass(salons, (s: Salon) => MatchesQuery(s, ""));
  }

  lemma {:induction false} FilterAllPass<T(!new)>(s: seq<T>, p: T -> bool)
    requires forall x :: x in s ==> p(x)
    ensures Filter(s, p) == s
  {
    if s != [] {
      assert s[0] in s;
      FilterAllPass(s[1..], p);
    }
  }

  // ---------------------------------------------------------------------------
  // Top-rated sort

  function Rating(r: Review): int { r.rating }

  /** Mean review rating, 0 for a salon without reviews (exact, not floating
      point): the number that, once per review, adds up to the ratings' total. */
  function AverageRating(salon: Salon): (avg: real)
    ensures |salon.reviews| == 0 ==> avg == 0.0
    ensures |salon.reviews| > 0 ==> avg * |salon.reviews| as real == Sum(salon.reviews, Rating) as real
  {
    if |salon.reviews| > 0 then Sum(salon.reviews, Rating) as real / |salon.reviews| as real else 0.0
  }

  /** With every rating in `lo..hi`, the average lies in `lo..hi` too. */
  lemma AverageWithinRatings(salon: Salon, lo: int, hi: int)
    requires |salon.reviews| > 0
    requires forall r :: r in salon.reviews ==> lo <= r.rating <= hi
    ensures lo as real <= AverageRating(salon) <= hi as real
  {
    RatingSumBounds(salon.reviews, lo, hi);
    MeanBounds(Sum(salon.reviews, Rating), |salon.reviews|, lo, hi);
  }

  /** A mean of `n` values within `lo..hi` lies within `lo..hi`. */
  lemma MeanBounds(total: int, n: int, lo: int, hi: int)
    requires n > 0 && n * lo <= total <= n * hi
    ensures lo as real <= total as real / n as real <= hi as real
  {
    var q := total as real / n as real;
    assert q * n as real == total as real;
    assert (n * lo) as real == n as real * lo as real;
    assert (n * hi) as real == n as real * hi as real;
    if q < lo as real {
      RealMulMono(n as real, q, lo as real);
      assert false;
    }
    if q > hi as real {
      RealMulMono(n as real, hi as real, q);
      assert false;
    }
  }

  lemma {:induction false} RatingSumBounds(reviews: seq<Review>, lo: int, hi: int)
    requires forall r :: r in reviews ==> lo <= r.rating <= hi
    ensures |reviews| * lo <= Sum(reviews, Rating) <= |reviews| * hi
  {
    if reviews != [] {
      var rest := reviews[1..];
      assert reviews[0] in reviews;
      assert forall r :: r in rest ==> r in reviews;
      RatingSumBounds(rest, lo, hi);
      assert Sum(reviews, Rating) == reviews[0].rating + Sum(rest, Rating);
      MulSucc(|rest|, lo);
      MulSucc(|rest|, hi);
    }
  }

  /** Each seed salon's average lies between 1 and 5. */
  lemma SeedAveragesInRange()
    ensures forall k :: 0 <= k < |Salons| ==> 1.0 <= AverageRating(Salons[k]) <= 5.0
  {
    SeedRatingsInRange();
    forall k | 0 <= k < |Salons| ensures 1.0 <= AverageRating(Salons[k]) <= 5.0 {
      assert |Salons[k].reviews| > 0;
      forall r | r in Salons[k].reviews ensures 1 <= r.rating <= 5 {
        var i :| 0 <= i < |Salons[k].reviews| && Salons[k].reviews[i] == r;
      }
      AverageWithinRatings(Salons[k], 1, 5);
    }
  }

  /** Ordered by non-increasing average rating. */
  predicate SortedByRating(s: seq<Salon>) {
    forall i, j :: 0 <= i < j < |s| ==> AverageRating(s[i]) >= AverageRating(s[j])
  }

  /** Place `x` before the first salon rated no higher than it: `x` is added
      once and every other salon is kept. */
  function Insert(x: Salon, t: seq<Salon>): (r: seq<Salon>)
    ensures multiset(r) == multiset(t) + multiset{x}
  {
    if t == [] || AverageRating(x) >= AverageRating(t[0]) then [x] + t
    else
      assert t == [t[0]] + t[1..];
      [t[0]] + Insert(x, t[1..])
  }

  /** Inserting into a sorted list keeps it sorted. */
  lemma {:induction false} InsertSorted(x: Salon, t: seq<Salon>)
    requires SortedByRating(t)
    ensures SortedByRating(Insert(x, t))
  {
    if t != [] && AverageRating(x) < AverageRating(t[0]) {
      var tail := t[1..];
      assert SortedByRating(tail) by {
        forall i, j | 0 <= i < j < |tail| ensures AverageRating(tail[i]) >= AverageRating(tail[j]) {
          assert tail[i] == t[i + 1] && tail[j] == t[j + 1];
        }
      }
      InsertSorted(x, tail);
      var top := AverageRating(t[0]);
      assert forall i :: 0 <= i < |tail| ==> AverageRating(tail[i]) <= top by {
        forall i | 0 <= i < |tail| ensures AverageRating(tail[i]) <= top {
          assert tail[i] == t[i + 1];
        }
      }
      InsertBelow(x, tail, top);
      var rest := Insert(x, tail);
      var r := [t[0]] + rest;
      assert Insert(x, t) == r;
      forall i, j | 0 <= i < j < |r| ensures AverageRating(r[i]) >= AverageRating(r[j]) {
        assert r[j] == rest[j - 1];
        if i > 0 {
          assert r[i] == rest[i - 1];
        }
      }
    }
  }

  /** Inserting a salon rated at most `b` into salons rated at most `b`
      gives salons rated at most `b`. */
  lemma {:induction false} InsertBelow(x: Salon, t: seq<Salon>, b: real)
    requires AverageRating(x) <= b
    requires forall i :: 0 <= i < |t| ==> AverageRating(t[i]) <= b
    ensures forall i :: 0 <= i < |Insert(x, t)| ==> AverageRating(Insert(x, t)[i]) <= b
  {
    if t != [] && AverageRating(x) < AverageRating(t[0]) {
      var tail := t[1..];
      assert forall i :: 0 <= i < |tail| ==> AverageRating(tail[i]) <= b by {
        forall i | 0 <= i < |tail| ensures AverageRating(tail[i]) <= b {
          assert tail[i] == t[i + 1];
        }
      }
      InsertBelow(x, tail, b);
      var r := [t[0]] + Insert(x, tail);
      assert Insert(x, t) == r;
      forall i | 0 <= i < |r| ensures AverageRating(r[i]) <= b {
        if i > 0 {
          assert r[i] == Insert(x, tail)[i - 1];
        }
      }
    } else {
      var r := [x] + t;
      assert Insert(x, t) == r;
      forall i | 0 <= i < |r| ensures AverageRating(r[i]) <= b {
        if i > 0 {
          assert r[i] == t[i - 1];
        }
      }
    }
  }

  /** `[...results].sort((a, b) => ratingB - ratingA)`, a stable sort by
      descending average on a copy: the sorted copy holds the same salons,
      each as often, in non-increasing order of average rating. */
  function SortByRating(s: seq<Salon>): (r: seq<Salon>)
    ensures multiset(r) == multiset(s)
    ensures SortedByRating(r)
  {
    if s == [] then []
    else
      var rest := SortByRating(s[1..]);
      InsertSorted(s[0], rest);
      assert s == [s[0]] + s[1..];
      Insert(s[0], rest)
  }

  /** The salons of one average rating. */
  function WithRating(s: seq<Salon>, v: real): seq<Salon> {
    Filter(s, (x: Salon) => AverageRating(x) == v)
  }

  /** The sort is stable: salons with equal averages keep their relative order. */
  lemma {:induction false} SortByRatingStable(s: seq<Salon>, v: real)
    ensures WithRating(SortByRating(s), v) == WithRating(s, v)
  {
    if s != [] {
      SortByRatingStable(s[1..], v);
      InsertWithRating(s[0], SortByRating(s[1..]), v);
    }
  }

  lemma {:induction false} InsertWithRating(x: Salon, t: seq<Salon>, v: real)
    requires SortedByRating(t)
    ensures WithRating(Insert(x, t), v) ==
            if AverageRating(x) == v then [x] + WithRating(t, v) else WithRating(t, v)
  {
    if t == [] || AverageRating(x) >= AverageRating(t[0]) {
      assert Insert(x, t) == [x] + t;
      assert ([x] + t)[1..] == t;
    } else {
      assert SortedByRating(t[1..]) by {
        forall i, j | 0 <= i < j < |t[1..]| ensures AverageRating(t[1..][i]) >= AverageRating(t[1..][j]) {
          assert t[1..][i] == t[i + 1] && t[1..][j] == t[j + 1];
        }
      }
      InsertWithRating(x, t[1..], v);
      var rest := Insert(x, t[1..]);
      assert Insert(x, t) == [t[0]] + rest;
      assert ([t[0]] + rest)[1..] == rest;
      assert t == [t[0]] + t[1..];
      if AverageRating(t[0]) == v {
        assert AverageRating(x) != v;
      }
    }
  }

  // ---------------------------------------------------------------------------
  // The page

  const TopRated: string := "topRated"

  /** `handleFilterClick`: clicking the active filter clears it, any other click sets it. */
  function ToggleFilter(active: Option<string>, filter: string): (r: Option<string>)
    ensures active == Some(filter) ==> r == None
    ensures active != Some(filter) ==> r == Some(filter)
  {
    if active == Some(filter) then None else Some(filter)
  }

  /** Two identical clicks restore the state when no other filter was active;
      with a different filter active, they clear it. */
  lemma ToggleFilterTwice(active: Option<string>, filter: string)
    ensures active == None || active == Some(filter) ==> ToggleFilter(ToggleFilter(active, filter), filter) == active
    ensures active.Some? && active != Some(filter) ==> ToggleFilter(ToggleFilter(active, filter), filter) == None
  {
  }

  /** The effect's result: without "Top Rated", the search result in its
      original order; with it, the search result reordered by non-increasing
      average. Either way exactly the matching salons are listed. */
  function Results(salons: seq<Salon>, query: string, active: Option<string>): (r: seq<Salon>)
    ensures active != Some(TopRated) ==> r == SearchFilter(salons, query)
    ensures active == Some(TopRated) ==>
              multiset(r) == multiset(SearchFilter(salons, query)) && SortedByRating(r)
    ensures forall x :: x in r <==> x in salons && (query == "" || MatchesQuery(x, query))
  {
    var found := SearchFilter(salons, query);
    if active == Some(TopRated) then
      var sorted := SortByRating(found);
      assert forall x :: x in sorted <==> x in multiset(found);
      sorted
    else found
  }

  class Home {
    var searchQuery: string
    var activeFilter: Option<string>
    var filteredSalons: seq<Salon>

    /** First render: no query, no filter, every seed salon. */
    constructor ()
      ensures searchQuery == "" && activeFilter == None && filteredSalons == Salons
    {
      searchQuery := "";
      activeFilter := None;
      filteredSalons := Salons;
    }

    /** Typing in the search box; the effect then recomputes the list from the seed salons. */
    method SetSearchQuery(query: string)
      modifies this
      ensures filteredSalons == Results(Salons, query, activeFilter)
      ensures searchQuery == query && activeFilter == old(activeFilter)
    {
      searchQuery := query;
      filteredSalons := Results(Salons, query, activeFilter);
    }

    /** A filter button; the effect then recomputes the list. */
    method HandleFilterClick(filter: string)
      modifies this
      ensures activeFilter == ToggleFilter(old(activeFilter), filter) && searchQuery == old(searchQuery)
      ensures filteredSalons == Results(Salons, searchQuery, activeFilter)
    {
      activeFilter := ToggleFilter(activeFilter, filter);
      filteredSalons := Results(Salons, searchQuery, activeFilter);
    }
  }
}
