/** Ranking metrics: discounted gain against the best ordering there is, and average
    precision. Gains are exact reals; the discount is any positive weighting that
    never grows with the position, of which 1 / log2(position + 1) is one. */
module Metrics {

  ghost predicate IsDiscount(weight: nat -> real) {
    && (forall i: nat :: weight(i) > 0.0)
    && (forall i: nat, j: nat :: i <= j ==> weight(j) <= weight(i))
  }

  /** The discounted gain of `rels` placed from position `at` on. */
  function DcgFrom(weight: nat -> real, rels: seq<real>, at: nat): real {
    if rels == [] then 0.0 else rels[0] * weight(at) + DcgFrom(weight, rels[1..], at + 1)
  }

  function Dcg(weight: nat -> real, rels: seq<real>): real { DcgFrom(weight, rels, 0) }

  function InsertDown(x: real, s: seq<real>): seq<real> {
    if s == [] || s[0] <= x then [x] + s else [s[0]] + InsertDown(x, s[1..])
  }

  /** `sorted(s, reverse=True)` */
  function SortDown(s: seq<real>): seq<real> {
    if s == [] then [] else InsertDown(s[0], SortDown(s[1..]))
  }

  /** `s[:k]` */
  function Cut<T>(s: seq<T>, k: nat): seq<T> {
    if k == 0 || s == [] then [] else [s[0]] + Cut(s[1..], k - 1)
  }

  function NdcgAt(weight: nat -> real, ranked: seq<real>, ideal: seq<real>, k: nat): real {
    var best := Dcg(weight, Cut(SortDown(ideal), k));
    if best > 0.0 then Dcg(weight, Cut(ranked, k)) / best else 0.0
  }

  lemma {:induction false} CutIs<T>(s: seq<T>, k: nat)
    ensures Cut(s, k) == if k < |s| then s[..k] else s
  {
    if k > 0 && s != [] {
      CutIs(s[1..], k - 1);
      assert s == [s[0]] + s[1..];
      if k < |s| { assert s[..k] == [s[0]] + s[1..][..k - 1]; }
    }
  }

  /** The discounted gain adds up each gain times the weight of its position. */
  lemma {:induction false} DcgLast(weight: nat -> real, rels: seq<real>, last: real, at: nat)
    ensures DcgFrom(weight, rels + [last], at) == DcgFrom(weight, rels, at) + last * weight(at + |rels|)
  {
    if rels == [] {
      assert rels + [last] == [last] && [last][1..] == [];
    } else {
      assert (rels + [last])[1..] == rels[1..] + [last];
      DcgLast(weight, rels[1..], last, at + 1);
    }
  }

  // ----- descending order -----

  predicate Descending(s: seq<real>) {
    |s| > 1 ==> s[0] >= s[1] && Descending(s[1..])
  }

  lemma {:induction false} InsertDownKeeps(x: real, s: seq<real>)
    ensures multiset(InsertDown(x, s)) == multiset(s) + multiset{x}
    ensures Descending(s) ==> Descending(InsertDown(x, s))
  {
    if s != [] && s[0] > x {
      assert s == [s[0]] + s[1..];
      InsertDownKeeps(x, s[1..]);
      var t := InsertDown(x, s[1..]);
      assert ([s[0]] + t)[1..] == t;
      if Descending(s) && |s| > 1 { assert t[0] == x || t[0] == s[1]; }
    } else {
      assert ([x] + s)[1..] == s;
    }
  }

  lemma {:induction false} SortDownIs(s: seq<real>)
    ensures multiset(SortDown(s)) == multiset(s) && Descending(SortDown(s))
  {
    if s != [] {
      assert s == [s[0]] + s[1..];
      SortDownIs(s[1..]);
      InsertDownKeeps(s[0], SortDown(s[1..]));
    }
  }

  lemma {:induction false} HeadIsGreatest(s: seq<real>, x: real)
    requires Descending(s) && s != [] && x in s
    ensures x <= s[0]
  {
    if x != s[0] {
      assert s == [s[0]] + s[1..];
      HeadIsGreatest(s[1..], x);
    }
  }

  // ----- the best k of a bag -----

  lemma SameHead(a: seq<real>, b: seq<real>)
    requires Descending(a) && Descending(b) && multiset(a) == multiset(b) && a != []
    ensures b != [] && a[0] == b[0]
  {
    assert a[0] in multiset(b);
    assert b[0] in multiset(a);
    HeadIsGreatest(a, b[0]);
    HeadIsGreatest(b, a[0]);
  }

  lemma SameTail(a: seq<real>, b: seq<real>)
    requires a != [] && b != [] && a[0] == b[0] && multiset(a) == multiset(b)
    ensures multiset(a[1..]) == multiset(b[1..]) && a == [a[0]] + a[1..] && b == [a[0]] + b[1..]
  {
    assert a == [a[0]] + a[1..] && b == [a[0]] + b[1..];
    assert multiset(a[1..]) == multiset(a) - multiset{a[0]} && multiset(b[1..]) == multiset(b) - multiset{a[0]};
  }

  lemma {:induction false} DescendingUnique(a: seq<real>, b: seq<real>)
    requires Descending(a) && Descending(b) && multiset(a) == multiset(b)
    ensures a == b
  {
    if a == [] {
      assert |multiset(b)| == |b|;
    } else {
      SameHead(a, b);
      SameTail(a, b);
      DescendingUnique(a[1..], b[1..]);
    }
  }

  /** nDCG is the gain of the first k answers over that of the first k of the ideal's gains
      arranged from the greatest down, and 0 when there is nothing to gain. */
  lemma NdcgMeans(weight: nat -> real, ranked: seq<real>, ideal: seq<real>, top: seq<real>, k: nat)
    requires Descending(top) && multiset(top) == multiset(ideal)
    ensures
      var gain := Dcg(weight, if k < |ranked| then ranked[..k] else ranked);
      var best := Dcg(weight, if k < |top| then top[..k] else top);
      NdcgAt(weight, ranked, ideal, k) == if best > 0.0 then gain / best else 0.0
  {
    SortDownIs(ideal);
    DescendingUnique(SortDown(ideal), top);
    CutIs(ranked, k);
    CutIs(top, k);
  }

  function Sum(s: seq<real>): real { if s == [] then 0.0 else s[0] + Sum(s[1..]) }

  predicate NonNegative(s: seq<real>) { s != [] ==> s[0] >= 0.0 && NonNegative(s[1..]) }

  /** The positive ones, in place. */
  function Positive(s: seq<real>): seq<real> {
    if s == [] then [] else if s[0] > 0.0 then [s[0]] + Positive(s[1..]) else Positive(s[1..])
  }

  function Without(s: seq<real>, x: real): seq<real> {
    if s == [] then [] else if s[0] == x then s[1..] else [s[0]] + Without(s[1..], x)
  }

  lemma {:induction false} WithoutIs(s: seq<real>, x: real)
    requires x in s
    ensures multiset(Without(s, x)) == multiset(s) - multiset{x}
    ensures |Without(s, x)| == |s| - 1 && Sum(Without(s, x)) == Sum(s) - x
  {
    assert s == [s[0]] + s[1..];
    if s[0] != x { WithoutIs(s[1..], x); }
  }

  /** The sum of the first `j`, counting nothing past the end. */
  function Prefix(s: seq<real>, j: nat): real { Sum(Cut(s, j)) }

  lemma CutCons(weight: nat -> real, s: seq<real>, j: nat, at: nat)
    requires s != [] && j > 0
    ensures Prefix(s, j) == s[0] + Prefix(s[1..], j - 1)
    ensures DcgFrom(weight, Cut(s, j), at) == s[0] * weight(at) + DcgFrom(weight, Cut(s[1..], j - 1), at + 1)
  {
    assert Cut(s, j)[1..] == Cut(s[1..], j - 1);
  }

  lemma {:induction false} PrefixNonNegative(s: seq<real>, j: nat)
    requires NonNegative(s)
    ensures Prefix(s, j) >= 0.0
  {
    if s != [] && j > 0 {
      PrefixNonNegative(s[1..], j - 1);
      CutCons(_ => 0.0, s, j, 0);
    }
  }

  /** Take the greatest of `s` out of the bag, or any of the bag if it is not there. */
  lemma TakeOne(bag: seq<real>, s: seq<real>) returns (take: real, rest: seq<real>)
    requires bag != [] && Descending(s) && multiset(bag) <= multiset(s)
    ensures s != [] && take <= s[0] && Sum(bag) == take + Sum(rest)
    ensures |rest| == |bag| - 1 && multiset(rest) <= multiset(s[1..])
  {
    assert bag[0] in multiset(bag);
    assert bag[0] in multiset(s);
    take := if s[0] in bag then s[0] else bag[0];
    rest := Without(bag, take);
    WithoutIs(bag, take);
    assert take in s by { assert take in multiset(bag); }
    HeadIsGreatest(s, take);
    RestFits(bag, s, take);
  }

  lemma RestFits(bag: seq<real>, s: seq<real>, take: real)
    requires s != [] && multiset(bag) <= multiset(s) && take in bag
    requires s[0] in bag ==> take == s[0]
    ensures multiset(bag) - multiset{take} <= multiset(s[1..])
  {
    assert s == [s[0]] + s[1..];
    forall x ensures (multiset(bag) - multiset{take})[x] <= multiset(s[1..])[x] {
      assert multiset(bag)[x] <= multiset(s)[x];
      if x == s[0] && x != take { assert x !in multiset(bag); }
    }
  }

  /** Top-k selection: no j or fewer of a bag sum to more than its first j in order. */
  lemma {:induction false} TopSums(bag: seq<real>, s: seq<real>, j: nat)
    requires Descending(s) && NonNegative(s) && multiset(bag) <= multiset(s) && |bag| <= j
    ensures Sum(bag) <= Prefix(s, j)
    decreases j
  {
    if bag == [] {
      PrefixNonNegative(s, j);
    } else {
      var take, rest := TakeOne(bag, s);
      TopSums(rest, s[1..], j - 1);
      CutCons(_ => 0.0, s, j, 0);
    }
  }

  // ----- rearrangement -----

  function Nth(s: seq<real>, j: nat): real { if j < |s| then s[j] else 0.0 }

  lemma {:induction false} CutNext(weight: nat -> real, s: seq<real>, j: nat, at: nat)
    ensures Prefix(s, j + 1) == Prefix(s, j) + Nth(s, j)
    ensures DcgFrom(weight, Cut(s, j + 1), at) == DcgFrom(weight, Cut(s, j), at) + Nth(s, j) * weight(at + j)
  {
    if s != [] {
      CutCons(weight, s, j + 1, at);
      if j > 0 {
        CutCons(weight, s, j, at);
        CutNext(weight, s[1..], j - 1, at + 1);
      }
    }
  }

  lemma GapNonNegative(gap: real, w: real)
    requires gap >= 0.0 && w >= 0.0
    ensures gap * w >= 0.0
  {}

  lemma PartsStep(done: real, gap: real, w: real, v: real, a: real, b: real, newDone: real, newGap: real)
    requires done >= gap * w && v <= w
    requires newGap == gap + a - b && newGap >= 0.0
    requires newDone == done + a * w - b * w
    ensures newDone >= newGap * v
  {
    assert newGap * w == gap * w + a * w - b * w;
    assert newGap * w - newGap * v == newGap * (w - v);
    GapNonNegative(newGap, w - v);
  }

  /** Every prefix of `r` up to `j` sums to no more than the same prefix of `s`. */
  predicate Under(r: seq<real>, s: seq<real>, j: nat) {
    Prefix(r, j) <= Prefix(s, j) && (j > 0 ==> Under(r, s, j - 1))
  }

  function Lead(weight: nat -> real, r: seq<real>, s: seq<real>, j: nat): real {
    Dcg(weight, Cut(s, j)) - Dcg(weight, Cut(r, j))
  }

  function Gap(r: seq<real>, s: seq<real>, j: nat): real { Prefix(s, j) - Prefix(r, j) }

  lemma DcgNext(weight: nat -> real, s: seq<real>, i: nat, step: real)
    requires step == Nth(s, i) * weight(i)
    ensures Dcg(weight, Cut(s, i + 1)) == Dcg(weight, Cut(s, i)) + step
    ensures Prefix(s, i + 1) == Prefix(s, i) + Nth(s, i)
  {
    CutNext(weight, s, i, 0);
    assert 0 + i == i;
  }

  lemma LeadStep(weight: nat -> real, r: seq<real>, s: seq<real>, i: nat)
    ensures Gap(r, s, i + 1) == Gap(r, s, i) + Nth(s, i) - Nth(r, i)
    ensures Lead(weight, r, s, i + 1) == Lead(weight, r, s, i) + Nth(s, i) * weight(i) - Nth(r, i) * weight(i)
  {
    DcgNext(weight, r, i, Nth(r, i) * weight(i));
    DcgNext(weight, s, i, Nth(s, i) * weight(i));
  }

  /** Summation by parts: weights that never grow keep a lead every prefix has. */
  lemma {:induction false} Dominated(weight: nat -> real, r: seq<real>, s: seq<real>, j: nat)
    requires IsDiscount(weight) && Under(r, s, j)
    ensures Lead(weight, r, s, j) >= Gap(r, s, j) * weight(j)
  {
    if j > 0 {
      var i := j - 1;
      Dominated(weight, r, s, i);
      LeadStep(weight, r, s, i);
      PartsStep(Lead(weight, r, s, i), Gap(r, s, i), weight(i), weight(j), Nth(s, i), Nth(r, i),
                Lead(weight, r, s, j), Gap(r, s, j));
    }
  }

  lemma NeverBehind(weight: nat -> real, r: seq<real>, s: seq<real>, j: nat)
    requires IsDiscount(weight) && Under(r, s, j)
    ensures Dcg(weight, Cut(r, j)) <= Dcg(weight, Cut(s, j))
  {
    Dominated(weight, r, s, j);
    GapNonNegative(Gap(r, s, j), weight(j));
  }

  lemma PositiveCons(s: seq<real>)
    requires s != []
    ensures |Positive(s)| <= 1 + |Positive(s[1..])|
    ensures s[0] > 0.0 ==> multiset(Positive(s)) == multiset{s[0]} + multiset(Positive(s[1..]))
    ensures s[0] > 0.0 ==> Sum(Positive(s)) == s[0] + Sum(Positive(s[1..]))
    ensures s[0] <= 0.0 ==> Positive(s) == Positive(s[1..])
  {
    if s[0] > 0.0 { assert Positive(s)[1..] == Positive(s[1..]); }
  }

  lemma {:induction false} PositivePrefix(r: seq<real>, j: nat)
    requires NonNegative(r)
    ensures Sum(Positive(Cut(r, j))) == Prefix(r, j)
    ensures |Positive(Cut(r, j))| <= j
  {
    if r != [] && j > 0 {
      PositivePrefix(r[1..], j - 1);
      CutCons(_ => 0.0, r, j, 0);
      var c := Cut(r, j);
      assert c[0] == r[0] && c[1..] == Cut(r[1..], j - 1);
      PositiveCons(c);
    }
  }

  lemma PositiveFirst(r: seq<real>, c: seq<real>)
    requires r != [] && c != [] && c[0] == r[0]
    requires multiset(Positive(c[1..])) <= multiset(Positive(r[1..]))
    ensures multiset(Positive(c)) <= multiset(Positive(r))
  {
    PositiveCons(r);
    PositiveCons(c);
  }

  lemma {:induction false} PositiveWithin(r: seq<real>, j: nat)
    ensures multiset(Positive(Cut(r, j))) <= multiset(Positive(r))
  {
    if r != [] && j > 0 {
      PositiveWithin(r[1..], j - 1);
      assert Cut(r, j)[1..] == Cut(r[1..], j - 1);
      PositiveFirst(r, Cut(r, j));
    }
  }

  /** A ranking's gains are drawn from the ideal's, but for zeros. */
  ghost predicate DrawnFrom(ranked: seq<real>, ideal: seq<real>) {
    NonNegative(ranked) && multiset(Positive(ranked)) <= multiset(ideal)
  }

  lemma {:induction false} NonNegativeIs(s: seq<real>)
    ensures NonNegative(s) <==> forall x :: x in s ==> x >= 0.0
  {
    if s != [] {
      assert s[0] in s && forall x :: x in s <==> x == s[0] || x in s[1..];
      NonNegativeIs(s[1..]);
    }
  }

  lemma SortDownNonNegative(s: seq<real>)
    requires NonNegative(s)
    ensures NonNegative(SortDown(s))
  {
    SortDownIs(s);
    NonNegativeIs(s);
    NonNegativeIs(SortDown(s));
    forall x | x in SortDown(s) ensures x >= 0.0 {
      assert x in multiset(SortDown(s));
      assert x in s;
    }
  }

  lemma PrefixesDominate(ranked: seq<real>, ideal: seq<real>, i: nat)
    requires NonNegative(ideal) && DrawnFrom(ranked, ideal)
    ensures Prefix(ranked, i) <= Prefix(SortDown(ideal), i)
  {
    SortDownIs(ideal);
    SortDownNonNegative(ideal);
    PositivePrefix(ranked, i);
    PositiveWithin(ranked, i);
    TopSums(Positive(Cut(ranked, i)), SortDown(ideal), i);
  }

  lemma {:induction false} AlwaysUnder(ranked: seq<real>, ideal: seq<real>, j: nat)
    requires NonNegative(ideal) && DrawnFrom(ranked, ideal)
    ensures Under(ranked, SortDown(ideal), j)
  {
    PrefixesDominate(ranked, ideal, j);
    if j > 0 { AlwaysUnder(ranked, ideal, j - 1); }
  }

  /** No ranking gains more than the best k in descending order. */
  lemma NoRankingBeatsIdeal(weight: nat -> real, ranked: seq<real>, ideal: seq<real>, k: nat)
    requires IsDiscount(weight) && NonNegative(ideal) && DrawnFrom(ranked, ideal)
    ensures Dcg(weight, Cut(ranked, k)) <= Dcg(weight, Cut(SortDown(ideal), k))
  {
    AlwaysUnder(ranked, ideal, k);
    NeverBehind(weight, ranked, SortDown(ideal), k);
  }

  lemma {:induction false} DcgNonNegative(weight: nat -> real, s: seq<real>, k: nat, at: nat)
    requires IsDiscount(weight) && NonNegative(s)
    ensures DcgFrom(weight, Cut(s, k), at) >= 0.0
  {
    if s != [] && k > 0 {
      DcgNonNegative(weight, s[1..], k - 1, at + 1);
      CutCons(weight, s, k, at);
      GapNonNegative(s[0], weight(at));
    }
  }

  /** nDCG lies in [0, 1], and is 1 for a ranking that opens with the best k in order
      whenever there is anything to gain. */
  lemma NdcgBounds(weight: nat -> real, ranked: seq<real>, ideal: seq<real>, k: nat)
    requires IsDiscount(weight) && NonNegative(ideal) && DrawnFrom(ranked, ideal)
    ensures 0.0 <= NdcgAt(weight, ranked, ideal, k) <= 1.0
    ensures Cut(ranked, k) == Cut(SortDown(ideal), k) ==>
      NdcgAt(weight, ranked, ideal, k) == if Dcg(weight, Cut(SortDown(ideal), k)) > 0.0 then 1.0 else 0.0
  {
    var gain, best := Dcg(weight, Cut(ranked, k)), Dcg(weight, Cut(SortDown(ideal), k));
    NoRankingBeatsIdeal(weight, ranked, ideal, k);
    assert 0.0 <= gain by { DcgNonNegative(weight, ranked, k, 0); }
    hide Dcg, Cut, SortDown, IsDiscount, NonNegative, DrawnFrom;
    if best > 0.0 { ShareBetween(gain, best); }
  }

  lemma ShareBetween(a: real, b: real)
    requires 0.0 <= a <= b && b > 0.0
    ensures 0.0 <= a / b <= 1.0 && (a == b ==> a / b == 1.0)
  {}

  lemma FirstGain(weight: nat -> real, s: seq<real>, k: nat)
    requires IsDiscount(weight) && NonNegative(s) && s != [] && s[0] > 0.0 && k > 0
    ensures Dcg(weight, Cut(s, k)) > 0.0
  {
    CutCons(weight, s, k, 0);
    DcgNonNegative(weight, s[1..], k - 1, 1);
    var w := weight(0);
    assert s[0] * w > 0.0 by { ProductPositive(s[0], w); }
  }

  lemma ProductPositive(a: real, b: real)
    requires a > 0.0 && b > 0.0
    ensures a * b > 0.0
  {}

  /** There is something to gain exactly when the list is cut somewhere and some gain
      is positive. */
  lemma SomethingToGain(weight: nat -> real, ideal: seq<real>, k: nat)
    requires IsDiscount(weight) && NonNegative(ideal)
    ensures Dcg(weight, Cut(SortDown(ideal), k)) > 0.0 <==> k > 0 && exists x :: x in ideal && x > 0.0
  {
    var s := SortDown(ideal);
    SortDownIs(ideal);
    SortDownNonNegative(ideal);
    forall x ensures x in s <==> x in ideal { assert x in multiset(s) <==> x in multiset(ideal); }
    if k > 0 && s != [] && s[0] > 0.0 {
      assert s[0] in s;
      FirstGain(weight, s, k);
    } else {
      if s != [] { forall x | x in s ensures x <= s[0] { HeadIsGreatest(s, x); } }
      if k > 0 { AllZero(weight, s, k, 0); }
    }
  }

  lemma {:induction false} AllZero(weight: nat -> real, s: seq<real>, k: nat, at: nat)
    requires NonNegative(s) && forall x :: x in s ==> x <= 0.0
    ensures DcgFrom(weight, Cut(s, k), at) == 0.0
  {
    if s != [] && k > 0 {
      assert s[0] in s && forall x :: x in s[1..] ==> x in s;
      AllZero(weight, s[1..], k - 1, at + 1);
      CutCons(weight, s, k, at);
    }
  }
}
