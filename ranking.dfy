/** Scoring and ranking of ads (client/src/App.tsx, calculateScore and
    sortedAds), and the heat value shown on a card. */
module Ranking {
  import opened Js
  import opened Types

  /** MAGIC_COEFFICIENT: each click adds this fraction of the price to the score. */
  const K: real := 0.42

  /** The engagement count as the code reads it: an absent `clicked` is 0. */
  function ClickedOrZero(c: Option<int>): int
  {
    match c
    case None => 0
    case Some(n) => n
  }

  /** The numeric price used for scoring: a string goes through parseFloat and
      `|| 0` turns a failed parse (NaN) into 0; a number is used as it is. */
  function PriceNumber(rt: Runtime, p: Price): real
  {
    match p
    case Number(n) => n
    case Text(s) =>
      match rt.parseFloat(s)
      case Some(n) => n
      case None => 0.0
  }

  /** `priceNum + priceNum * clicked * K`. For a non-negative price and count
      the score is at least the price, with equality exactly when the price or
      the count is 0. */
  function Blend(price: real, clicked: real): (score: real)
    ensures price >= 0.0 && clicked >= 0.0 ==> score >= price
    ensures score == price <==> price == 0.0 || clicked == 0.0
  {
    ScaledProduct(price, clicked);
    price + price * clicked * K
  }

  lemma ScaledProduct(p: real, c: real)
    ensures p >= 0.0 && c >= 0.0 ==> p * c * K >= 0.0
    ensures p * c * K == 0.0 <==> p == 0.0 || c == 0.0
  {
  }

  /** calculateScore(price, clicked) */
  function CalculateScore(rt: Runtime, price: Price, clicked: int): (score: real)
    ensures PriceNumber(rt, price) >= 0.0 && clicked >= 0 ==> score >= PriceNumber(rt, price)
    ensures score == PriceNumber(rt, price) <==> PriceNumber(rt, price) == 0.0 || clicked == 0
  {
    Blend(PriceNumber(rt, price), clicked as real)
  }

  /** The score an ad is ranked by: calculateScore(a.price, a.clicked), with
      the default count 0 for an absent `clicked`. */
  function AdScore(rt: Runtime, a: Ad): real
  {
    CalculateScore(rt, a.price, ClickedOrZero(a.clicked))
  }

  /** A string price that parseFloat rejects scores 0, whatever the count. */
  lemma UnparsablePriceScoresZero(rt: Runtime, s: string, clicked: int)
    requires rt.parseFloat(s).None?
    ensures CalculateScore(rt, Text(s), clicked) == 0.0
  {
  }

  /** A click raises the score of an ad with a positive price by exactly
      price * K. */
  lemma ClickRaisesScore(rt: Runtime, price: Price, clicked: int)
    requires PriceNumber(rt, price) > 0.0
    ensures CalculateScore(rt, price, clicked + 1)
         == CalculateScore(rt, price, clicked) + PriceNumber(rt, price) * K
    ensures CalculateScore(rt, price, clicked + 1) > CalculateScore(rt, price, clicked)
  {
  }

  /** score(100, 3) = 100 + 100 * 3 * 0.42 = 226, and score(0, 5) = 0. */
  lemma ScoreExamples(rt: Runtime)
    ensures CalculateScore(rt, Number(100.0), 3) == 226.0
    ensures CalculateScore(rt, Number(0.0), 5) == 0.0
    ensures (CalculateScore(rt, Number(100.0), 3)).Floor == 226
  {
  }

  /** Non-increasing score from left to right. */
  predicate SortedByScore(rt: Runtime, s: seq<Ad>)
  {
    forall i, j :: 0 <= i < j < |s| ==> AdScore(rt, s[i]) >= AdScore(rt, s[j])
  }

  /** Places `a` into a list ordered by non-increasing score, after every
      element whose score is at least its own. */
  function Insert(rt: Runtime, a: Ad, s: seq<Ad>): (r: seq<Ad>)
    ensures multiset(r) == multiset(s) + multiset{a}
  {
    if s == [] then [a]
    else if AdScore(rt, a) > AdScore(rt, s[0]) then [a] + s
    else
      assert s == [s[0]] + s[1..];
      [s[0]] + Insert(rt, a, s[1..])
  }

  /** Insertion into a list bounded by `b` of an ad bounded by `b` stays
      bounded by `b`. */
  lemma {:induction false} InsertBounded(rt: Runtime, a: Ad, s: seq<Ad>, b: real)
    requires AdScore(rt, a) <= b
    requires forall k :: 0 <= k < |s| ==> AdScore(rt, s[k]) <= b
    ensures forall k :: 0 <= k < |Insert(rt, a, s)| ==> AdScore(rt, Insert(rt, a, s)[k]) <= b
  {
    if s != [] && AdScore(rt, a) <= AdScore(rt, s[0]) {
      InsertBounded(rt, a, s[1..], b);
    }
  }

  /** Insertion keeps a list ordered. */
  lemma {:induction false} InsertSorted(rt: Runtime, a: Ad, s: seq<Ad>)
    requires SortedByScore(rt, s)
    ensures SortedByScore(rt, Insert(rt, a, s))
  {
    if s != [] && AdScore(rt, a) <= AdScore(rt, s[0]) {
      var rest := Insert(rt, a, s[1..]);
      InsertSorted(rt, a, s[1..]);
      InsertBounded(rt, a, s[1..], AdScore(rt, s[0]));
      assert Insert(rt, a, s) == [s[0]] + rest;
    }
  }

  /** sortedAds: a copy of `ads` ordered by non-increasing score. The input
      list is a value and is left as it was. */
  function SortedAds(rt: Runtime, ads: seq<Ad>): (r: seq<Ad>)
    ensures multiset(r) == multiset(ads)
    ensures SortedByScore(rt, r)
  {
    if ads == [] then []
    else
      var init := SortedAds(rt, ads[..|ads| - 1]);
      assert ads == ads[..|ads| - 1] + [ads[|ads| - 1]];
      InsertSorted(rt, ads[|ads| - 1], init);
      Insert(rt, ads[|ads| - 1], init)
  }

  /** The ranking contract: the result holds the same ads, and of two ads with
      different scores the higher-scoring one comes first. */
  lemma HigherScoreComesFirst(rt: Runtime, ads: seq<Ad>, i: nat, j: nat)
    requires i < |SortedAds(rt, ads)| && j < |SortedAds(rt, ads)|
    requires AdScore(rt, SortedAds(rt, ads)[i]) > AdScore(rt, SortedAds(rt, ads)[j])
    ensures i < j
    ensures |SortedAds(rt, ads)| == |ads|
  {
    var r := SortedAds(rt, ads);
    assert |multiset(r)| == |multiset(ads)|;
    SortedPair(rt, r, i, j);
  }

  lemma SortedPair(rt: Runtime, r: seq<Ad>, i: nat, j: nat)
    requires SortedByScore(rt, r)
    requires i < |r| && j < |r|
    ensures j <= i ==> AdScore(rt, r[j]) >= AdScore(rt, r[i])
  {
  }

  /** The heat shown on a card: the score of the number price (0 for a string
      price) and the number count (0 when absent), floored for display only. */
  function DisplayedHeat(rt: Runtime, a: Ad): (heat: int)
    ensures a.price.Number? ==> heat as real <= AdScore(rt, a) < heat as real + 1.0
    ensures a.price.Text? ==> heat == 0
  {
    var price := if a.price.Number? then a.price else Number(0.0);
    (CalculateScore(rt, price, ClickedOrZero(a.clicked))).Floor
  }
}
