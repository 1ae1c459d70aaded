/** Average precision: how early a ranking puts what is relevant, computed in one pass with a
    running count of hits. */
module AveragePrecisions {

  /** How many of the first `n` answers are relevant. */
  function Found(hits: seq<bool>, n: nat): nat
    requires n <= |hits|
  {
    if n == 0 then 0 else Found(hits, n - 1) + if hits[n - 1] then 1 else 0
  }

  /** The precision at rank `n` counted where rank `n` holds a relevant track. */
  function Gain(hits: seq<bool>, n: nat): real
    requires 0 < n <= |hits|
  {
    if hits[n - 1] then Found(hits, n) as real / n as real else 0.0
  }

  function Precisions(hits: seq<bool>, n: nat): real
    requires n <= |hits|
  {
    if n == 0 then 0.0 else Precisions(hits, n - 1) + Gain(hits, n)
  }

  function Average(hits: seq<bool>, total: nat): real {
    if total == 0 then 0.0 else Precisions(hits, |hits|) / total as real
  }

  method AveragePrecision(hits: seq<bool>, total: nat) returns (average: real)
    ensures average == Average(hits, total)
  {
    if total == 0 { return 0.0; }
    var found, running := 0, 0.0;
    for position := 1 to |hits| + 1
      invariant found == Found(hits, position - 1)
      invariant running == Precisions(hits, position - 1)
    {
      if hits[position - 1] {
        found := found + 1;
        running := running + found as real / position as real;
      }
    }
    return running / total as real;
  }

  lemma {:induction false} FoundCounts(hits: seq<bool>, more: seq<bool>)
    ensures Found(hits, |hits|) == multiset(hits)[true]
    ensures forall n :: 0 <= n <= |hits| ==>
      Found(hits + more, n) == Found(hits, n) && Precisions(hits + more, n) == Precisions(hits, n)
  {
    if hits != [] {
      var last := |hits| - 1;
      var shorter := hits[..last];
      assert hits == shorter + [hits[last]] && hits + more == shorter + ([hits[last]] + more);
      FoundCounts(shorter, [hits[last]]);
      FoundCounts(shorter, [hits[last]] + more);
    }
  }

  /** What one more answer adds: nothing unless it is relevant, and else the share of relevant
      ones among all so far, over the number there are. */
  lemma NextAnswer(hits: seq<bool>, hit: bool, total: nat)
    requires total > 0
    ensures Average([], total) == 0.0
    ensures Average(hits + [hit], total) * total as real == Average(hits, total) * total as real
      + if hit then (multiset(hits)[true] + 1) as real / (|hits| + 1) as real else 0.0
  {
    FoundCounts(hits, [hit]);
  }

  lemma {:induction false} FoundAtMost(hits: seq<bool>, n: nat)
    requires n <= |hits|
    ensures Found(hits, n) <= n
    ensures Found(hits, n) == n <==> forall i :: 0 <= i < n ==> hits[i]
  {
    if n > 0 { FoundAtMost(hits, n - 1); }
  }

  lemma RatioAtMostOne(found: nat, n: nat)
    requires found <= n && n > 0
    ensures 0.0 <= found as real / n as real <= 1.0
    ensures found as real / n as real == 1.0 <==> found == n
  {}

  /** Whether every relevant answer among the first `n` comes before every other one. */
  ghost predicate Leading(hits: seq<bool>, n: nat)
    requires n <= |hits|
  {
    forall i, j :: 0 <= i < j < n && hits[j] ==> hits[i]
  }

  lemma {:induction false} PrecisionsAtMost(hits: seq<bool>, n: nat)
    requires n <= |hits|
    ensures 0.0 <= Precisions(hits, n) <= Found(hits, n) as real
    ensures Precisions(hits, n) == Found(hits, n) as real <==> Leading(hits, n)
  {
    if n > 0 {
      PrecisionsAtMost(hits, n - 1);
      FoundAtMost(hits, n);
      RatioAtMostOne(Found(hits, n), n);
      if hits[n - 1] && Leading(hits, n) {
        forall i | 0 <= i < n ensures hits[i] { assert i == n - 1 || hits[i]; }
      }
    }
  }

  lemma ShareAtMostOne(a: real, b: nat, c: nat)
    requires 0.0 <= a <= b as real && b <= c && c > 0
    ensures 0.0 <= a / c as real <= 1.0
    ensures a / c as real == 1.0 <==> a == b as real && b == c
  {}

  /** Average precision lies in [0, 1] whenever the ranking finds no more relevant
      tracks than there are, and is 1 exactly when it finds all of them and puts them
      first. */
  lemma AverageBounds(hits: seq<bool>, total: nat)
    requires Found(hits, |hits|) <= total
    ensures 0.0 <= Average(hits, total) <= 1.0
    ensures Average(hits, total) == 1.0 <==> total > 0 && Found(hits, |hits|) == total && Leading(hits, |hits|)
  {
    PrecisionsAtMost(hits, |hits|);
    if total > 0 { ShareAtMostOne(Precisions(hits, |hits|), Found(hits, |hits|), total); }
  }

  /** The ranking with the relevant answer at `i + 1` moved one place earlier. */
  function Earlier(hits: seq<bool>, i: nat): seq<bool>
    requires i + 1 < |hits|
  {
    hits[i := hits[i + 1]][i + 1 := hits[i]]
  }

  lemma {:induction false} EarlierFinds(hits: seq<bool>, i: nat, n: nat)
    requires i + 1 < |hits| && n <= |hits|
    ensures Found(Earlier(hits, i), n) ==
      if n == i + 1 then Found(hits, i) + (if hits[i + 1] then 1 else 0) else Found(hits, n)
  {
    if n > 0 { EarlierFinds(hits, i, n - 1); }
  }

  lemma OverFewer(a: nat, n: nat)
    requires a > 0 && n > 0
    ensures a as real / n as real > a as real / (n + 1) as real
  {}

  lemma {:induction false} EarlierGains(hits: seq<bool>, i: nat, n: nat)
    requires i + 1 < |hits| && n <= |hits| && !hits[i] && hits[i + 1]
    ensures n <= i ==> Precisions(Earlier(hits, i), n) == Precisions(hits, n)
    ensures n == i + 1 ==>
      Precisions(Earlier(hits, i), n) == Precisions(hits, n) + (Found(hits, i) + 1) as real / (i + 1) as real
    ensures n >= i + 2 ==> Precisions(Earlier(hits, i), n) > Precisions(hits, n)
  {
    if n > 0 {
      EarlierGains(hits, i, n - 1);
      EarlierFinds(hits, i, n);
      if n == i + 2 {
        assert Found(hits, n) == Found(hits, i) + 1;
        OverFewer(Found(hits, i) + 1, i + 1);
      }
    }
  }

  lemma LargerShare(a: real, b: real, total: nat)
    requires a > b && total > 0
    ensures a / total as real > b / total as real
  {}

  /** Moving a relevant answer ahead of one that is not raises the average. */
  lemma EarlierIsBetter(hits: seq<bool>, i: nat, total: nat)
    requires i + 1 < |hits| && !hits[i] && hits[i + 1] && total > 0
    ensures Average(Earlier(hits, i), total) > Average(hits, total)
  {
    EarlierGains(hits, i, |hits|);
    LargerShare(Precisions(Earlier(hits, i), |hits|), Precisions(hits, |hits|), total);
  }
}
