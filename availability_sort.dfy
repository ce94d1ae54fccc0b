/** The ordering of the combined search results in server/routes/api/search.js: a stable
    `Array.prototype.sort` (ECMA-262 2019 edition, section 22.1.3.27, which requires stability)
    with a comparator that puts available products before unavailable ones and ties everything
    else. Such a sort has exactly one possible result: the available listings in their original
    order followed by the unavailable ones in theirs. */
module AvailabilitySort {
  import opened Wrappers
  import opened JsValues
  import ShopProducts

  /** An element of the combined list: a catalog offer as the catalog returned it, or a
      normalised product of the tenant's own catalog. */
  datatype Listing = Offer(offer: JsValue) | ShopItem(product: ShopProducts.ShopProduct)

  /** The truthiness of `x.availableForSale`. Reading it on a `null` offer throws; callers
      rule that case out before comparing, and it reads as `false` here. */
  predicate Available(x: Listing) {
    match x
    case ShopItem(p) => p.availableForSale
    case Offer(Null) => false
    case Offer(v) => Present(Member(Some(v), "availableForSale").value)
  }

  /** The comparator: -1 puts `a` first, 1 puts `b` first, 0 keeps their order. */
  function Compare(a: Listing, b: Listing): (r: int)
    ensures r == -1 <==> Available(a) && !Available(b)
    ensures r == 1 <==> !Available(a) && Available(b)
    ensures r == 0 <==> Available(a) == Available(b)
  {
    if Available(a) && !Available(b) then -1
    else if !Available(a) && Available(b) then 1
    else 0
  }

  /** `s` is sorted by the comparator. */
  predicate Ordered(s: seq<Listing>) {
    forall i, j :: 0 <= i < j < |s| ==> Compare(s[i], s[j]) <= 0
  }

  /** The listings of `s` whose availability is `avail`, in their order in `s`. */
  function Matching(s: seq<Listing>, avail: bool): (r: seq<Listing>)
    ensures |r| <= |s|
    ensures forall i :: 0 <= i < |r| ==> Available(r[i]) == avail
  {
    if s == [] then []
    else Matching(s[..|s| - 1], avail) + (if Available(s[|s| - 1]) == avail then [s[|s| - 1]] else [])
  }

  /** The result of the stable sort. */
  function AvailableFirst(s: seq<Listing>): seq<Listing> {
    Matching(s, true) + Matching(s, false)
  }

  lemma {:induction false} MatchingAppend(s: seq<Listing>, t: seq<Listing>, avail: bool)
    ensures Matching(s + t, avail) == Matching(s, avail) + Matching(t, avail)
    decreases |t|
  {
    if t == [] {
      assert s + t == s;
    } else {
      var t' := t[..|t| - 1];
      assert (s + t)[..|s + t| - 1] == s + t';
      MatchingAppend(s, t', avail);
    }
  }

  /** A sequence of one class is all kept by its own filter and all dropped by the other. */
  lemma {:induction false} MatchingUniform(s: seq<Listing>, avail: bool)
    requires forall i :: 0 <= i < |s| ==> Available(s[i]) == avail
    ensures Matching(s, avail) == s
    ensures Matching(s, !avail) == []
    decreases |s|
  {
    if s != [] {
      MatchingUniform(s[..|s| - 1], avail);
      assert s[..|s| - 1] + [s[|s| - 1]] == s;
    }
  }

  lemma {:induction false} MatchingLengths(s: seq<Listing>)
    ensures |Matching(s, true)| + |Matching(s, false)| == |s|
    decreases |s|
  {
    if s != [] {
      MatchingLengths(s[..|s| - 1]);
    }
  }

  /** The sort rearranges the listings and neither drops nor duplicates one. */
  lemma {:induction false} AvailableFirstIsPermutation(s: seq<Listing>)
    ensures multiset(AvailableFirst(s)) == multiset(s)
    decreases |s|
  {
    if s != [] {
      var s' := s[..|s| - 1];
      AvailableFirstIsPermutation(s');
      assert s' + [s[|s| - 1]] == s;
    }
  }

  /** Every available listing comes before every unavailable one. */
  lemma AvailableFirstIsOrdered(s: seq<Listing>)
    ensures Ordered(AvailableFirst(s))
  {
    var a, u := Matching(s, true), Matching(s, false);
    var r := a + u;
    forall i, j | 0 <= i < j < |r|
      ensures Compare(r[i], r[j]) <= 0
    {
      if i < |a| {
        assert Available(r[i]);
      } else {
        assert r[j] == u[j - |a|];
      }
    }
  }

  /** Listings that compare equal keep their relative order. */
  lemma AvailableFirstIsStable(s: seq<Listing>, avail: bool)
    ensures Matching(AvailableFirst(s), avail) == Matching(s, avail)
  {
    MatchingAppend(Matching(s, true), Matching(s, false), avail);
    MatchingUniform(Matching(s, true), true);
    MatchingUniform(Matching(s, false), false);
  }

  lemma OrderedPrefix(r: seq<Listing>)
    requires Ordered(r) && r != []
    ensures Ordered(r[..|r| - 1])
  {
    var r' := r[..|r| - 1];
    forall i, j | 0 <= i < j < |r'| ensures Compare(r'[i], r'[j]) <= 0 {
      assert r'[i] == r[i] && r'[j] == r[j];
    }
  }

  /** In an ordered sequence ending with an available listing, every listing is available. */
  lemma OrderedBeforeAvailable(r: seq<Listing>)
    requires Ordered(r) && r != [] && Available(r[|r| - 1])
    ensures forall i :: 0 <= i < |r| ==> Available(r[i])
  {
    forall i | 0 <= i < |r| - 1 ensures Available(r[i]) {
      assert Compare(r[i], r[|r| - 1]) <= 0;
    }
  }

  /** An ordered sequence is its available listings followed by its unavailable ones. */
  lemma {:induction false} OrderedSplits(r: seq<Listing>)
    requires Ordered(r)
    ensures r == AvailableFirst(r)
    decreases |r|
  {
    if r != [] {
      var r', last := r[..|r| - 1], r[|r| - 1];
      OrderedPrefix(r);
      OrderedSplits(r');
      assert r == r' + [last];
      if Available(last) {
        OrderedBeforeAvailable(r);
        MatchingUniform(r, true);
      } else {
        assert Matching(r, true) == Matching(r', true);
        assert Matching(r, false) == Matching(r', false) + [last];
      }
    }
  }

  /** Any ordered result that keeps the relative order of each class, as a stable sort
      does, is `AvailableFirst`: the sort's outcome does not depend on the algorithm. */
  lemma StableSortIsUnique(s: seq<Listing>, r: seq<Listing>)
    requires Ordered(r)
    requires Matching(r, true) == Matching(s, true) && Matching(r, false) == Matching(s, false)
    ensures r == AvailableFirst(s)
  {
    OrderedSplits(r);
  }

  /** The first pass: the available and the unavailable listings of `a`, each in order. */
  method Partition(a: array<Listing>) returns (avail: seq<Listing>, unavail: seq<Listing>)
    ensures avail == Matching(a[..], true) && unavail == Matching(a[..], false)
  {
    avail, unavail := [], [];
    var i := 0;
    while i < a.Length
      invariant 0 <= i <= a.Length
      invariant avail == Matching(a[..i], true) && unavail == Matching(a[..i], false)
    {
      assert a[..i + 1][..i] == a[..i];
      if Available(a[i]) {
        avail := avail + [a[i]];
      } else {
        unavail := unavail + [a[i]];
      }
      i := i + 1;
    }
    assert a[..a.Length] == a[..];
  }

  /** The second pass: overwrites `a` with `s`. */
  method Overwrite(a: array<Listing>, s: seq<Listing>)
    requires |s| == a.Length
    modifies a
    ensures a[..] == s
  {
    var i := 0;
    while i < a.Length
      invariant 0 <= i <= a.Length
      invariant a[..i] == s[..i]
    {
      a[i] := s[i];
      assert a[..i + 1] == s[..i + 1];
      i := i + 1;
    }
    assert a[..] == a[..a.Length];
  }

  /** Sorts `a` in place: the available listings are gathered, then the unavailable ones,
      and the array is overwritten with the two runs. */
  method SortByAvailability(a: array<Listing>)
    modifies a
    ensures a[..] == AvailableFirst(old(a[..]))
    ensures Ordered(a[..]) && multiset(a[..]) == multiset(old(a[..]))
  {
    ghost var s := a[..];
    var avail, unavail := Partition(a);
    MatchingLengths(s);
    Overwrite(a, avail + unavail);
    AvailableFirstIsOrdered(s);
    AvailableFirstIsPermutation(s);
  }
}
