/** The aggregate rating of a player (`calcRating`): the player's records,
    optionally with one previewed full clear added and the list then
    sorted, are weighted by their 1-based position, each weighted value is
    floored on its own and the floors are summed. Multipliers are exact
    rationals; `Math.floor` is `real.Floor`. */
module Ratings {
  import opened Wrappers

  /** One achievement: the completion percentage and the level's rating. */
  datatype Rating = Rating(progress: real, rating: real)

  predicate Complete(r: Rating) {
    r.progress == 100.0
  }

  predicate AllComplete(s: seq<Rating>) {
    forall k :: 0 <= k < |s| ==> Complete(s[k])
  }

  /** The record a preview rating becomes before it joins the list. */
  function Preview(v: real): Rating
  {
    Rating(100.0, v)
  }

  /** The sort comparator as written. A positive value orders `a` after `b`.
      The second key is discounted when the FIRST record is partial: the
      progress of `b` only matters when `a` is partial too. */
  function Compare(a: Rating, b: Rating): real
  {
    var x := if a.progress != 100.0 then a.rating * a.progress / 150.0 else a.rating;
    var y := if a.progress != 100.0 then b.rating * b.progress / 150.0 else b.rating;
    y - x
  }

  /** Ratings in non-increasing order: what the comparator asks for when
      every record is complete. */
  ghost predicate NonIncreasing(s: seq<Rating>) {
    forall p, q :: 0 <= p < q < |s| ==> s[p].rating >= s[q].rating
  }

  function Max(a: real, b: real): real {
    if a >= b then a else b
  }

  /** The value of a rating at 1-based position `top`, before the
      partial-completion discount. */
  function PositionWeight(top: nat, rating: real): real
    requires top >= 1
  {
    if top == 1 then rating * (5.0 / 10.0)
    else if top == 2 then rating * (3.0 / 10.0)
    else if top == 3 then rating * (2.0 / 10.0)
    else if top <= 15 then Max(5.0, rating * 25.0 / (top as real) / 100.0)
    else if top <= 25 then 5.0
    else 1.0
  }

  /** The value of a record at position `top`, discounted by 100/150 when
      the record is partial, before flooring. */
  function Weighted(top: nat, r: Rating): real
    requires top >= 1
  {
    var w := PositionWeight(top, r.rating);
    if r.progress != 100.0 then w * (100.0 / 150.0) else w
  }

  /** What one record adds to the aggregate: its weighted value, floored. */
  function Contribution(top: nat, r: Rating): int
    requires top >= 1
  {
    Weighted(top, r).Floor
  }

  /** The sum of the contributions of the first `n` records. */
  function PrefixScore(s: seq<Rating>, n: nat): int
    requires n <= |s|
  {
    if n == 0 then 0 else PrefixScore(s, n - 1) + Contribution(n, s[n - 1])
  }

  /** The aggregate of a list taken in the order given. */
  function Score(s: seq<Rating>): int {
    PrefixScore(s, |s|)
  }

  /** The sum of the weighted values of the first `n` records, unfloored. */
  function RawPrefix(s: seq<Rating>, n: nat): real
    requires n <= |s|
  {
    if n == 0 then 0.0 else RawPrefix(s, n - 1) + Weighted(n, s[n - 1])
  }

  /** Puts `x` before the first record rated below it. */
  function Insert(x: Rating, s: seq<Rating>): seq<Rating>
  {
    if s == [] || x.rating >= s[0].rating then [x] + s else [s[0]] + Insert(x, s[1..])
  }

  /** A reference arrangement in non-increasing rating order, independent
      of the comparator. */
  function SortDescending(s: seq<Rating>): seq<Rating>
  {
    if s == [] then [] else Insert(s[0], SortDescending(s[1..]))
  }

  method Exchange(a: array<Rating>, i: nat, j: nat)
    requires i < a.Length && j < a.Length
    modifies a
    ensures a[i] == old(a[j]) && a[j] == old(a[i])
    ensures forall k :: 0 <= k < a.Length && k != i && k != j ==> a[k] == old(a[k])
    ensures multiset(a[..]) == multiset(old(a[..]))
  {
    a[i], a[j] := a[j], a[i];
  }

  /** `data.sort(comparator)`: an insertion sort that moves a record ahead
      while the comparator orders its predecessor after it. The result is a
      permutation of the input; when every record is complete the
      comparator is a consistent order and the result is non-increasing in
      rating. */
  method SortByComparator(a: array<Rating>)
    modifies a
    ensures multiset(a[..]) == multiset(old(a[..]))
    ensures AllComplete(old(a[..])) ==> NonIncreasing(a[..])
  {
    ghost var complete := AllComplete(a[..]);
    var i := 0;
    while i < a.Length
      invariant 0 <= i <= a.Length
      invariant multiset(a[..]) == multiset(old(a[..]))
      invariant complete ==> forall k :: 0 <= k < a.Length ==> Complete(a[k])
      invariant complete ==> forall p, q :: 0 <= p < q < i ==> a[p].rating >= a[q].rating
    {
      var j := i;
      while j > 0 && Compare(a[j - 1], a[j]) > 0.0
        invariant 0 <= j <= i
        invariant multiset(a[..]) == multiset(old(a[..]))
        invariant complete ==> forall k :: 0 <= k < a.Length ==> Complete(a[k])
        invariant complete ==> forall p, q :: 0 <= p < q <= i && p != j && q != j ==> a[p].rating >= a[q].rating
        invariant complete ==> forall q :: j < q <= i ==> a[j].rating >= a[q].rating
      {
        Exchange(a, j - 1, j);
        j := j - 1;
      }
      i := i + 1;
    }
  }

  /** `calcRating(ratings, newRating)`. `order` is the working list the
      weights were applied to. The caller's array is not modified: the
      method has no `modifies` clause. */
  method CalcRating(ratings: array<Rating>, newRating: Option<real>) returns (res: int, ghost order: seq<Rating>)
    ensures newRating.None? ==> order == ratings[..] && res == Score(ratings[..])
    ensures newRating.Some? && AllComplete(ratings[..]) ==>
      res == Score(SortDescending(ratings[..] + [Preview(newRating.value)]))
    ensures newRating.Some? ==> multiset(order) == multiset(ratings[..] + [Preview(newRating.value)])
    ensures newRating.Some? && AllComplete(ratings[..]) ==> NonIncreasing(order)
    ensures res == Score(order)
  {
    var data := ratings[..];
    if newRating.Some? {
      data := data + [Rating(100.0, newRating.value)];
    }
    var arr := new Rating[|data|](k requires 0 <= k < |data| => data[k]);
    assert arr[..] == data;
    if newRating.Some? {
      SortByComparator(arr);
    }
    res := 0;
    var i := 0;
    while i < arr.Length
      invariant 0 <= i <= arr.Length
      invariant res == PrefixScore(arr[..], i)
    {
      var tmp := arr[i].rating;
      var top := i + 1;
      if top == 1 {
        tmp := tmp * (5.0 / 10.0);
      } else if top == 2 {
        tmp := tmp * (3.0 / 10.0);
      } else if top == 3 {
        tmp := tmp * (2.0 / 10.0);
      } else if top <= 15 {
        tmp := Max(5.0, tmp * 25.0 / (top as real) / 100.0);
      } else if top <= 25 {
        tmp := 5.0;
      } else {
        tmp := 1.0;
      }
      if arr[i].progress != 100.0 {
        tmp := tmp * (100.0 / 150.0);
      }
      res := res + tmp.Floor;
      i := i + 1;
    }
    order := arr[..];
    if newRating.Some? && AllComplete(ratings[..]) {
      var all := ratings[..] + [Preview(newRating.value)];
      SortDescendingCorrect(all);
      AllCompleteByMultiset(order, all);
      SortedPermutationUnique(order, SortDescending(all));
    }
  }

  // ---------------------------------------------------------------------
  // Properties of the weighting

  /** The first three places take half, three tenths and one fifth of a
      complete record's rating. */
  lemma TopThree(r: Rating)
    requires Complete(r)
    ensures Contribution(1, r) == (r.rating * 0.5).Floor
    ensures Contribution(2, r) == (r.rating * 0.3).Floor
    ensures Contribution(3, r) == (r.rating * 0.2).Floor
  {
  }

  /** Places 4 to 15 are worth at least 5 for a complete record and at
      least 3 once the partial discount is applied. */
  lemma MiddleBandFloor(top: nat, r: Rating)
    requires 4 <= top <= 15
    ensures Complete(r) ==> Contribution(top, r) >= 5
    ensures !Complete(r) ==> Contribution(top, r) >= 3
  {
  }

  /** Places 16 to 25 are worth a flat 5 (3 when partial), later places a
      flat 1 (0 when partial), whatever the rating. */
  lemma FlatBands(top: nat, r: Rating)
    requires top >= 16
    ensures top <= 25 ==> Contribution(top, r) == if Complete(r) then 5 else 3
    ensures top > 25 ==> Contribution(top, r) == if Complete(r) then 1 else 0
  {
  }

  /** Each contribution is floored on its own: the aggregate lies within
      one unit per record below the unfloored sum. */
  lemma {:induction false} FloorsBeforeSumming(s: seq<Rating>, n: nat)
    requires n <= |s|
    ensures PrefixScore(s, n) as real <= RawPrefix(s, n)
    ensures n > 0 ==> RawPrefix(s, n) < (PrefixScore(s, n) + n) as real
  {
    if n > 0 {
      FloorsBeforeSumming(s, n - 1);
      var w := Weighted(n, s[n - 1]);
      assert w.Floor as real <= w < w.Floor as real + 1.0;
      assert PrefixScore(s, n) == PrefixScore(s, n - 1) + w.Floor;
      assert RawPrefix(s, n) == RawPrefix(s, n - 1) + w;
    }
  }

  /** Summing first and flooring once would differ: complete records rated
      9 and 5 are worth 4.5 and 1.5, which floor to 4 and 1, so the
      aggregate is 5 although the unfloored sum is 6. */
  lemma FlooringOnceDiffers()
    ensures RawPrefix([Rating(100.0, 9.0), Rating(100.0, 5.0)], 2) == 6.0
    ensures Score([Rating(100.0, 9.0), Rating(100.0, 5.0)]) == 5
  {
  }

  /** With non-negative ratings the aggregate is non-negative. */
  lemma {:induction false} ScoreNonNegative(s: seq<Rating>, n: nat)
    requires n <= |s|
    requires forall k :: 0 <= k < |s| ==> s[k].rating >= 0.0
    ensures PrefixScore(s, n) >= 0
  {
    if n > 0 {
      ScoreNonNegative(s, n - 1);
      assert Weighted(n, s[n - 1]) >= 0.0;
    }
  }

  lemma EmptyScore()
    ensures Score([]) == 0
  {
  }

  // ---------------------------------------------------------------------
  // Properties of the order

  /** Without a preview nothing is sorted, so the weights follow input
      order and the same records can score differently. */
  lemma InputOrderMattersWithoutPreview()
    ensures Score([Rating(100.0, 100.0), Rating(100.0, 50.0)]) == 65
    ensures Score([Rating(100.0, 50.0), Rating(100.0, 100.0)]) == 55
  {
  }

  /** Whether the second key is discounted depends on the first record
      alone. When the first record is complete the comparator looks at raw
      ratings only, even if the second record is partial: a partial record
      rated 100 at 30% (discounted key 20) is put ahead of a complete
      record rated 90. When the first record is partial a complete second
      record is discounted by 100/150 too: a partial 150 at 90% (key 90) is
      kept ahead of a complete 120 (key 80). */
  lemma ComparatorSkipsSecondDiscount(a: Rating, b: Rating)
    ensures Complete(a) ==> Compare(a, b) == b.rating - a.rating
    ensures Compare(Rating(100.0, 90.0), Rating(30.0, 100.0)) > 0.0
    ensures Rating(30.0, 100.0).rating * 30.0 / 150.0 < 90.0
    ensures !Complete(a) ==> Compare(a, b) == b.rating * b.progress / 150.0 - a.rating * a.progress / 150.0
    ensures Compare(Rating(90.0, 150.0), Rating(100.0, 120.0)) < 0.0
  {
  }

  /** The first record of a non-increasing list carries its largest rating. */
  lemma HeadIsLargest(s: seq<Rating>, x: Rating)
    requires NonIncreasing(s) && x in multiset(s)
    ensures s[0].rating >= x.rating
  {
    assert x in s;
    var k :| 0 <= k < |s| && s[k] == x;
    assert k == 0 || s[0].rating >= s[k].rating;
  }

  /** Two non-increasing arrangements of the same complete records are the
      same list. */
  lemma {:induction false} SortedPermutationUnique(s: seq<Rating>, t: seq<Rating>)
    requires multiset(s) == multiset(t)
    requires AllComplete(s)
    requires NonIncreasing(s) && NonIncreasing(t)
    ensures s == t
  {
    assert |s| == |multiset(s)| == |multiset(t)| == |t|;
    if |s| > 0 {
      assert s[0] in multiset(s);
      assert t[0] in multiset(t);
      HeadIsLargest(t, s[0]);
      HeadIsLargest(s, t[0]);
      assert t[0] in s;
      assert Complete(t[0]) && Complete(s[0]);
      assert s[0] == t[0];
      assert s == [s[0]] + s[1..] && t == [t[0]] + t[1..];
      assert multiset(s) == multiset{s[0]} + multiset(s[1..]);
      assert multiset(t) == multiset{t[0]} + multiset(t[1..]);
      assert multiset(s[1..]) == multiset(s) - multiset{s[0]};
      assert multiset(t[1..]) == multiset(t) - multiset{t[0]};
      SortedPermutationUnique(s[1..], t[1..]);
    }
  }

  /** Inserting into a non-increasing list keeps it non-increasing and adds
      exactly the inserted record. */
  lemma {:induction false} InsertCorrect(x: Rating, s: seq<Rating>)
    requires NonIncreasing(s)
    ensures NonIncreasing(Insert(x, s))
    ensures multiset(Insert(x, s)) == multiset(s) + multiset{x}
  {
    if s == [] || x.rating >= s[0].rating {
      assert Insert(x, s) == [x] + s;
      forall q | 0 < q < |s| + 1 ensures x.rating >= ([x] + s)[q].rating {
        assert q - 1 == 0 || s[0].rating >= s[q - 1].rating;
      }
    } else {
      var rest := Insert(x, s[1..]);
      InsertCorrect(x, s[1..]);
      assert Insert(x, s) == [s[0]] + rest;
      assert s == [s[0]] + s[1..];
      forall q | 0 <= q < |rest| ensures s[0].rating >= rest[q].rating {
        assert rest[q] in multiset(s[1..]) + multiset{x};
        if rest[q] != x {
          assert rest[q] in s[1..];
          var k :| 0 <= k < |s[1..]| && s[1..][k] == rest[q];
          assert s[k + 1] == rest[q];
        }
      }
    }
  }

  /** The reference arrangement is a non-increasing permutation. */
  lemma {:induction false} SortDescendingCorrect(s: seq<Rating>)
    ensures NonIncreasing(SortDescending(s))
    ensures multiset(SortDescending(s)) == multiset(s)
  {
    if s != [] {
      SortDescendingCorrect(s[1..]);
      InsertCorrect(s[0], SortDescending(s[1..]));
      assert s == [s[0]] + s[1..];
    }
  }

  /** A permutation of complete records holds only complete records. */
  lemma AllCompleteByMultiset(s: seq<Rating>, t: seq<Rating>)
    requires multiset(s) == multiset(t) && AllComplete(t)
    ensures AllComplete(s)
  {
    forall k | 0 <= k < |s| ensures Complete(s[k]) {
      assert s[k] in multiset(t);
      assert s[k] in t;
    }
  }

  /** With a preview and only complete records, the aggregate does not
      depend on the input order: any two working lists `CalcRating` may
      produce for inputs holding the same records score the same. */
  lemma PreviewIgnoresInputOrder(a: seq<Rating>, b: seq<Rating>, v: real, oa: seq<Rating>, ob: seq<Rating>)
    requires multiset(a) == multiset(b) && AllComplete(a)
    requires multiset(oa) == multiset(a + [Preview(v)]) && NonIncreasing(oa)
    requires multiset(ob) == multiset(b + [Preview(v)]) && NonIncreasing(ob)
    ensures oa == ob && Score(oa) == Score(ob)
  {
    assert AllComplete(a + [Preview(v)]);
    AllCompleteByMultiset(oa, a + [Preview(v)]);
    SortedPermutationUnique(oa, ob);
  }

  /** A previewed 120 next to a complete 80 takes first place:
      60 + 24 = 84. */
  lemma PreviewExample(order: seq<Rating>)
    requires multiset(order) == multiset([Rating(100.0, 80.0)] + [Preview(120.0)])
    requires NonIncreasing(order)
    ensures Score(order) == 84
  {
    var sorted := [Rating(100.0, 120.0), Rating(100.0, 80.0)];
    assert multiset(sorted) == multiset([Rating(100.0, 80.0)] + [Preview(120.0)]);
    SortedPermutationUnique(sorted, order);
  }

  /** Small aggregates: one complete 100 scores 50, two score 80, one
      half-done 100 scores 33. */
  lemma SmallExamples()
    ensures Score([Rating(100.0, 100.0)]) == 50
    ensures Score([Rating(100.0, 100.0), Rating(100.0, 100.0)]) == 80
    ensures Score([Rating(50.0, 100.0)]) == 33
  {
  }
}
