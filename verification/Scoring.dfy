/** Scoring a ranking of tracks: graded relevance from caption similarities, kept one
    caption at a time, and scoring against a set of relevant tracks. */
module Scoring {
  import opened Metrics
  import opened AveragePrecisions

  // ----- graded relevance -----

  datatype Captioned = Captioned(track: string, captions: seq<string>)
  datatype Scored = Scored(track: string, gain: real)

  function Similarity(perCaption: map<string, real>, other: string): real {
    if other in perCaption then perCaption[other] else 0.0
  }

  /** `max(…, default=0.0)` over a track's captions */
  function Closest(perCaption: map<string, real>, others: seq<string>): real {
    if others == [] then 0.0
    else if |others| == 1 then Similarity(perCaption, others[0])
    else
      var first, rest := Similarity(perCaption, others[0]), Closest(perCaption, others[1..]);
      if first >= rest then first else rest
  }

  function RowOf(perCaption: map<string, real>, captioned: seq<Captioned>): seq<Scored> {
    if captioned == [] then []
    else [Scored(captioned[0].track, Closest(perCaption, captioned[0].captions))] + RowOf(perCaption, captioned[1..])
  }

  /** `row.get(track, 0.0)` */
  function GainOf(row: seq<Scored>, track: string): real {
    if row == [] then 0.0 else if row[0].track == track then row[0].gain else GainOf(row[1..], track)
  }

  function Gains(row: seq<Scored>): seq<real> {
    if row == [] then [] else [row[0].gain] + Gains(row[1..])
  }

  /** Where the relevance of a caption's row comes from when nothing is kept. */
  function FreshRow(similarity: map<string, map<string, real>>, captioned: seq<Captioned>, caption: string)
    : seq<Scored>
  {
    RowOf(if caption in similarity then similarity[caption] else map[], captioned)
  }

  datatype Kept = Nothing | Kept(caption: string, row: seq<Scored>)

  class Relevance {
    const similarity: map<string, map<string, real>>
    const captioned: seq<Captioned>
    var kept: Kept

    ghost predicate Valid()
      reads this
    {
      kept.Kept? ==> kept.row == FreshRow(similarity, captioned, kept.caption)
    }

    constructor (similarity: map<string, map<string, real>>, captioned: seq<Captioned>)
      ensures Valid() && this.similarity == similarity && this.captioned == captioned
    {
      this.similarity, this.captioned, kept := similarity, captioned, Nothing;
    }

    /** The kept row is never another caption's. */
    method Row(caption: string) returns (row: seq<Scored>)
      requires Valid()
      modifies this
      ensures Valid() && row == FreshRow(similarity, captioned, caption)
      ensures kept == Kept(caption, row)
    {
      if kept.Nothing? || kept.caption != caption {
        kept := Kept(caption, RowOf(if caption in similarity then similarity[caption] else map[], captioned));
      }
      return kept.row;
    }

    method Of(caption: string, track: string) returns (gain: real)
      requires Valid()
      modifies this
      ensures Valid() && gain == GainOf(FreshRow(similarity, captioned, caption), track)
    {
      var row := Row(caption);
      return GainOf(row, track);
    }

    method AllFor(caption: string) returns (gains: seq<real>)
      requires Valid()
      modifies this
      ensures Valid() && gains == Gains(FreshRow(similarity, captioned, caption))
    {
      var row := Row(caption);
      return Gains(row);
    }
  }

  predicate NoRepeat(s: seq<string>) { s != [] ==> s[0] !in s[1..] && NoRepeat(s[1..]) }

  function Tracks(row: seq<Scored>): seq<string> {
    if row == [] then [] else [row[0].track] + Tracks(row[1..])
  }

  function Scores(row: seq<Scored>, ranked: seq<string>): seq<real> {
    if ranked == [] then [] else [GainOf(row, ranked[0])] + Scores(row, ranked[1..])
  }

  /** What one answer adds to the graded score: its first k tracks against the row. */
  function GradedNdcg(weight: nat -> real, row: seq<Scored>, ranked: seq<string>, k: nat): real {
    NdcgAt(weight, Scores(row, Cut(ranked, k)), Gains(row), k)
  }

  function Best(weight: nat -> real, row: seq<Scored>, k: nat): real {
    Dcg(weight, Cut(SortDown(Gains(row)), k))
  }

  /** What each answer counts for: its own entry of the row, the first if there were more, and
      nothing if it has none. */
  lemma {:induction false} ScoresAt(row: seq<Scored>, ranked: seq<string>, at: nat, i: nat)
    requires at < |ranked| && i <= |row| && forall j :: 0 <= j < i ==> row[j].track != ranked[at]
    ensures |Scores(row, ranked)| == |ranked|
    ensures i < |row| && row[i].track == ranked[at] ==> Scores(row, ranked)[at] == row[i].gain
    ensures i == |row| ==> Scores(row, ranked)[at] == 0.0
    decreases at, i
  {
    if at > 0 {
      ScoresAt(row, ranked[1..], at - 1, i);
    } else {
      GainAt(row, ranked[0], i);
      ScoresCount(row, ranked);
    }
  }

  lemma {:induction false} ScoresCount(row: seq<Scored>, ranked: seq<string>)
    ensures |Scores(row, ranked)| == |ranked|
  {
    if ranked != [] { ScoresCount(row, ranked[1..]); }
  }

  lemma {:induction false} GainAt(row: seq<Scored>, track: string, i: nat)
    requires i <= |row| && forall j :: 0 <= j < i ==> row[j].track != track
    ensures i < |row| && row[i].track == track ==> GainOf(row, track) == row[i].gain
    ensures i == |row| ==> GainOf(row, track) == 0.0
  {
    if i > 0 { GainAt(row[1..], track, i - 1); }
  }

  function Drop(row: seq<Scored>, track: string): seq<Scored> {
    if row == [] then [] else if row[0].track == track then row[1..] else [row[0]] + Drop(row[1..], track)
  }

  lemma {:induction false} DropIs(row: seq<Scored>, track: string, other: string)
    requires other != track
    ensures GainOf(Drop(row, track), other) == GainOf(row, other)
  {
    if row != [] && row[0].track != track {
      DropIs(row[1..], track, other);
      assert Drop(row, track)[1..] == Drop(row[1..], track);
    }
  }

  lemma {:induction false} DropScores(row: seq<Scored>, track: string, ranked: seq<string>)
    requires track !in ranked
    ensures Scores(Drop(row, track), ranked) == Scores(row, ranked)
  {
    if ranked != [] {
      assert ranked[0] in ranked && forall t :: t in ranked[1..] ==> t in ranked;
      DropScores(row, track, ranked[1..]);
      DropIs(row, track, ranked[0]);
    }
  }

  lemma {:induction false} DropGains(row: seq<Scored>, track: string)
    ensures multiset(Gains(Drop(row, track))) <= multiset(Gains(row))
    ensures GainOf(row, track) > 0.0 ==>
      multiset{GainOf(row, track)} + multiset(Gains(Drop(row, track))) <= multiset(Gains(row))
  {
    if row != [] {
      if row[0].track != track {
        DropGains(row[1..], track);
        assert Drop(row, track)[1..] == Drop(row[1..], track);
      }
    }
  }

  /** A ranking that names no track twice scores no gain more often than the row has it. */
  lemma {:induction false} ScoresDrawn(row: seq<Scored>, ranked: seq<string>)
    requires NoRepeat(ranked)
    ensures multiset(Positive(Scores(row, ranked))) <= multiset(Gains(row))
    decreases |ranked|
  {
    if ranked != [] {
      var t, rest := ranked[0], ranked[1..];
      ScoresDrawn(Drop(row, t), rest);
      DropScores(row, t, rest);
      DropGains(row, t);
      assert Scores(row, ranked)[1..] == Scores(row, rest);
      PositiveCons(Scores(row, ranked));
    }
  }

  lemma {:induction false} GainNonNegative(row: seq<Scored>, track: string)
    requires NonNegative(Gains(row))
    ensures GainOf(row, track) >= 0.0
  {
    if row != [] {
      assert Gains(row)[1..] == Gains(row[1..]);
      GainNonNegative(row[1..], track);
    }
  }

  lemma {:induction false} ScoresNonNegative(row: seq<Scored>, ranked: seq<string>)
    requires NonNegative(Gains(row))
    ensures NonNegative(Scores(row, ranked))
  {
    if ranked != [] {
      GainNonNegative(row, ranked[0]);
      ScoresNonNegative(row, ranked[1..]);
      assert Scores(row, ranked)[1..] == Scores(row, ranked[1..]);
    }
  }

  lemma {:induction false} CutNoRepeat(s: seq<string>, k: nat)
    requires NoRepeat(s)
    ensures NoRepeat(Cut(s, k))
  {
    if k > 0 && s != [] {
      CutNoRepeat(s[1..], k - 1);
      if s[0] in Cut(s[1..], k - 1) { CutWithin(s[1..], k - 1, s[0]); }
      assert Cut(s, k)[1..] == Cut(s[1..], k - 1);
    }
  }

  lemma {:induction false} CutWithin<T>(s: seq<T>, k: nat, x: T)
    requires x in Cut(s, k)
    ensures x in s
  {
    assert Cut(s, k)[1..] == Cut(s[1..], k - 1);
    if x != s[0] { CutWithin(s[1..], k - 1, x); }
  }

  /** A negative gain is some track's, and that track alone scores it. */
  lemma {:induction false} NegativeTrack(row: seq<Scored>) returns (track: string)
    requires NoRepeat(Tracks(row)) && !NonNegative(Gains(row))
    ensures track in Tracks(row) && GainOf(row, track) < 0.0
  {
    if row[0].gain < 0.0 {
      track := row[0].track;
    } else {
      assert Gains(row)[1..] == Gains(row[1..]) && Tracks(row)[1..] == Tracks(row[1..]);
      track := NegativeTrack(row[1..]);
    }
  }

  lemma GradedBounds(weight: nat -> real, row: seq<Scored>, ranked: seq<string>, k: nat)
    requires IsDiscount(weight) && NoRepeat(ranked)
    requires Best(weight, row, k) <= 0.0 || NonNegative(Gains(row))
    ensures 0.0 <= GradedNdcg(weight, row, ranked, k) <= 1.0
  {
    if Best(weight, row, k) > 0.0 {
      CutNoRepeat(ranked, k);
      ScoresDrawn(row, Cut(ranked, k));
      ScoresNonNegative(row, Cut(ranked, k));
      NdcgBounds(weight, Scores(row, Cut(ranked, k)), Gains(row), k);
    }
  }

  lemma LosingTrack(weight: nat -> real, row: seq<Scored>, track: string, k: nat)
    requires IsDiscount(weight) && Best(weight, row, k) > 0.0 && GainOf(row, track) < 0.0
    ensures GradedNdcg(weight, row, [track], k) < 0.0
  {
    assert k > 0;
    assert Cut([track], k) == [track];
    var g := GainOf(row, track);
    assert Scores(row, [track]) == [g];
    CutCons(weight, [g], k, 0);
    assert [g][1..] == [] && Cut([g][1..], k - 1) == [];
    ProductPositive(-g, weight(0));
    NegativeShare(g * weight(0), Best(weight, row, k));
  }

  lemma NegativeShare(a: real, b: real)
    requires a < 0.0 && b > 0.0
    ensures a / b < 0.0
  {}

  /** nDCG is in [0, 1] for every ranking that names no track twice exactly when there
      is nothing to gain or no gain is negative. */
  lemma GradedInRange(weight: nat -> real, row: seq<Scored>, k: nat)
    requires IsDiscount(weight) && NoRepeat(Tracks(row))
    ensures (forall ranked :: NoRepeat(ranked) ==> 0.0 <= GradedNdcg(weight, row, ranked, k) <= 1.0)
      <==> Best(weight, row, k) <= 0.0 || NonNegative(Gains(row))
  {
    if Best(weight, row, k) <= 0.0 || NonNegative(Gains(row)) {
      forall ranked | NoRepeat(ranked) ensures 0.0 <= GradedNdcg(weight, row, ranked, k) <= 1.0 {
        GradedBounds(weight, row, ranked, k);
      }
    } else {
      var track := NegativeTrack(row);
      LosingTrack(weight, row, track, k);
      assert NoRepeat([track]);
    }
  }

  lemma {:induction false} CutTwice<T>(s: seq<T>, k: nat)
    ensures Cut(Cut(s, k), k) == Cut(s, k)
  {
    if k > 0 && s != [] {
      CutTwice(s[1..], k - 1);
      assert Cut(s, k)[1..] == Cut(s[1..], k - 1);
    }
  }

  lemma {:induction false} CutScores(row: seq<Scored>, ranked: seq<string>, k: nat)
    ensures Cut(Scores(row, ranked), k) == Scores(row, Cut(ranked, k))
  {
    if k > 0 && ranked != [] {
      CutScores(row, ranked[1..], k - 1);
      assert Scores(row, ranked)[1..] == Scores(row, ranked[1..]);
      assert Cut(ranked, k)[1..] == Cut(ranked[1..], k - 1);
    }
  }

  /** A ranking that opens with the best k in order scores 1 when there is a gain to be had. */
  lemma BestFirstScoresOne(weight: nat -> real, row: seq<Scored>, ranked: seq<string>, k: nat)
    requires k > 0 && IsDiscount(weight) && NonNegative(Gains(row))
    requires exists g :: g in Gains(row) && g > 0.0
    requires Cut(Scores(row, ranked), k) == Cut(SortDown(Gains(row)), k)
    ensures GradedNdcg(weight, row, ranked, k) == 1.0
  {
    CutScores(row, ranked, k);
    CutTwice(Scores(row, ranked), k);
    SomethingToGain(weight, Gains(row), k);
    SameShare(Best(weight, row, k));
  }

  lemma SameShare(a: real)
    requires a > 0.0
    ensures a / a == 1.0
  {}

  lemma {:induction false} ClosestIs(perCaption: map<string, real>, others: seq<string>, caption: string)
    requires caption in others
    ensures Closest(perCaption, others) >= Similarity(perCaption, caption)
    ensures exists other :: other in others && Closest(perCaption, others) == Similarity(perCaption, other)
  {
    if |others| > 1 {
      assert others == [others[0]] + others[1..];
      ClosestIs(perCaption, others[1..], if caption in others[1..] then caption else others[1]);
    } else {
      assert others[0] in others;
    }
  }

  lemma {:induction false} RowTracks(perCaption: map<string, real>, captioned: seq<Captioned>, i: nat)
    requires i < |captioned| && NoRepeat(Tracks(RowOf(perCaption, captioned)))
    ensures captioned[i].track in Tracks(RowOf(perCaption, captioned))
    ensures GainOf(RowOf(perCaption, captioned), captioned[i].track) == Closest(perCaption, captioned[i].captions)
  {
    var row := RowOf(perCaption, captioned);
    assert row[1..] == RowOf(perCaption, captioned[1..]);
    assert Tracks(row)[1..] == Tracks(row[1..]);
    if i > 0 { RowTracks(perCaption, captioned[1..], i - 1); }
  }

  /** How similar a caption is to another, by whatever is known: nothing counts as 0. */
  ghost predicate SimilarBy(
    similarity: map<string, map<string, real>>, caption: string, other: string, value: real)
  {
    if caption in similarity && other in similarity[caption] then value == similarity[caption][other] else value == 0.0
  }

  lemma {:induction false} RowAt(perCaption: map<string, real>, captioned: seq<Captioned>, i: nat)
    requires i < |captioned|
    ensures |RowOf(perCaption, captioned)| == |captioned|
    ensures RowOf(perCaption, captioned)[i] == Scored(captioned[i].track, Closest(perCaption, captioned[i].captions))
  {
    if |captioned| > 1 { RowAt(perCaption, captioned[1..], if i > 0 then i - 1 else 0); }
  }

  /** The row of a caption has every track in turn, each with the similarity of the one of its
      captions that is closest; a track without captions has 0. */
  lemma RowMeans(similarity: map<string, map<string, real>>, captioned: seq<Captioned>, caption: string, i: nat)
    requires i < |captioned|
    ensures var row := FreshRow(similarity, captioned, caption);
      && |row| == |captioned| && row[i].track == captioned[i].track
      && (captioned[i].captions == [] ==> row[i].gain == 0.0)
      && (captioned[i].captions != [] ==>
            exists c :: c in captioned[i].captions && SimilarBy(similarity, caption, c, row[i].gain))
      && forall c, value | c in captioned[i].captions && SimilarBy(similarity, caption, c, value) ::
           value <= row[i].gain
  {
    var perCaption := if caption in similarity then similarity[caption] else map[];
    var captions := captioned[i].captions;
    RowAt(perCaption, captioned, i);
    forall c, value | c in captions && SimilarBy(similarity, caption, c, value)
      ensures value <= Closest(perCaption, captions)
    {
      ClosestIs(perCaption, captions, c);
    }
    if captions != [] {
      ClosestIs(perCaption, captions, captions[0]);
      var c :| c in captions && Closest(perCaption, captions) == Similarity(perCaption, c);
      assert SimilarBy(similarity, caption, c, Closest(perCaption, captions));
    }
  }

  /** A track scores at least what its best caption does: the track a caption belongs to
      scores 1 for it when a caption is as similar to itself as anything is. */
  lemma OwnCaptionScoresOne(
    similarity: map<string, map<string, real>>, captioned: seq<Captioned>, caption: string, i: nat)
    requires i < |captioned| && caption in captioned[i].captions && caption in similarity
    requires Similarity(similarity[caption], caption) == 1.0
    requires forall other :: Similarity(similarity[caption], other) <= 1.0
    requires NoRepeat(Tracks(FreshRow(similarity, captioned, caption)))
    ensures GainOf(FreshRow(similarity, captioned, caption), captioned[i].track) == 1.0
  {
    ClosestIs(similarity[caption], captioned[i].captions, caption);
    RowTracks(similarity[caption], captioned, i);
  }

  // ----- against a set of relevant tracks -----

  function Judged(ranked: seq<string>, corpus: set<string>): seq<string> {
    if ranked == [] then []
    else if ranked[0] in corpus then [ranked[0]] + Judged(ranked[1..], corpus)
    else Judged(ranked[1..], corpus)
  }

  function Hits(judged: seq<string>, relevant: set<string>): seq<bool> {
    if judged == [] then [] else [judged[0] in relevant] + Hits(judged[1..], relevant)
  }

  function HitGains(hits: seq<bool>): seq<real> {
    if hits == [] then [] else [if hits[0] then 1.0 else 0.0] + HitGains(hits[1..])
  }

  function Ones(n: nat): seq<real> { if n == 0 then [] else [1.0] + Ones(n - 1) }

  function Min(a: nat, b: nat): nat { if a <= b then a else b }

  function SetAverage(ranked: seq<string>, relevant: set<string>, corpus: set<string>): real {
    Average(Hits(Judged(ranked, corpus), relevant), |relevant|)
  }

  function SetNdcg(weight: nat -> real, ranked: seq<string>, relevant: set<string>, corpus: set<string>, k: nat): real {
    NdcgAt(weight, HitGains(Hits(Judged(ranked, corpus), relevant)), Ones(Min(|relevant|, k)), k)
  }

  lemma {:induction false} JudgedNoRepeat(ranked: seq<string>, corpus: set<string>)
    requires NoRepeat(ranked)
    ensures NoRepeat(Judged(ranked, corpus))
    ensures forall t :: t in Judged(ranked, corpus) ==> t in ranked
  {
    if ranked != [] {
      JudgedNoRepeat(ranked[1..], corpus);
      if ranked[0] in corpus { assert Judged(ranked, corpus)[1..] == Judged(ranked[1..], corpus); }
    }
  }

  lemma {:induction false} FoundCons(hits: seq<bool>, n: nat)
    requires 0 < n <= |hits|
    ensures Found(hits, n) == (if hits[0] then 1 else 0) + Found(hits[1..], n - 1)
  {
    if n > 1 { FoundCons(hits, n - 1); }
  }

  lemma {:induction false} HitsDistinct(judged: seq<string>, relevant: set<string>)
    requires NoRepeat(judged)
    ensures |Hits(judged, relevant)| == |judged|
    ensures Found(Hits(judged, relevant), |judged|) <= |relevant|
  {
    if judged != [] {
      var t, rest := judged[0], judged[1..];
      assert Hits(judged, relevant)[1..] == Hits(rest, relevant);
      HitsWithout(rest, relevant, t);
      HitsDistinct(rest, relevant - {t});
      FoundCons(Hits(judged, relevant), |judged|);
    }
  }

  lemma {:induction false} HitsWithout(judged: seq<string>, relevant: set<string>, t: string)
    requires t !in judged
    ensures Hits(judged, relevant - {t}) == Hits(judged, relevant)
    ensures |Hits(judged, relevant)| == |judged|
  {
    if judged != [] {
      assert judged[0] in judged && forall u :: u in judged[1..] ==> u in judged;
      HitsWithout(judged[1..], relevant, t);
    }
  }

  lemma {:induction false} OnesNonNegative(n: nat)
    ensures NonNegative(Ones(n))
  {
    if n > 0 {
      OnesNonNegative(n - 1);
      assert Ones(n)[1..] == Ones(n - 1);
    }
  }

  lemma {:induction false} PositiveHits(hits: seq<bool>, k: nat)
    ensures NonNegative(Cut(HitGains(hits), k))
    ensures Positive(Cut(HitGains(hits), k)) == Ones(|Positive(Cut(HitGains(hits), k))|)
    ensures |Positive(Cut(HitGains(hits), k))| <= Min(Found(hits, |hits|), k)
  {
    if hits != [] {
      FoundCons(hits, |hits|);
      if k > 0 {
        PositiveHits(hits[1..], k - 1);
        assert HitGains(hits)[1..] == HitGains(hits[1..]);
        var gains := Cut(HitGains(hits), k);
        assert gains[1..] == Cut(HitGains(hits[1..]), k - 1);
        assert hits[0] ==> Positive(gains) == [1.0] + Positive(gains[1..]);
      }
    }
  }

  lemma {:induction false} OnesWithin(m: nat, n: nat)
    requires m <= n
    ensures multiset(Ones(m)) <= multiset(Ones(n))
  {
    if m > 0 { OnesWithin(m - 1, n - 1); }
  }

  lemma CutNdcg(weight: nat -> real, gains: seq<real>, ideal: seq<real>, k: nat)
    ensures NdcgAt(weight, Cut(gains, k), ideal, k) == NdcgAt(weight, gains, ideal, k)
  {
    CutTwice(gains, k);
  }

  /** Both scores of a ranking that names no track twice lie in [0, 1], whatever part of
      the relevant tracks is judged. */
  lemma SetScoresInRange(weight: nat -> real, ranked: seq<string>, relevant: set<string>, corpus: set<string>, k: nat)
    requires IsDiscount(weight) && NoRepeat(ranked)
    ensures 0.0 <= SetAverage(ranked, relevant, corpus) <= 1.0
    ensures 0.0 <= SetNdcg(weight, ranked, relevant, corpus, k) <= 1.0
  {
    hide NdcgAt, Average, Judged, Hits, HitGains, Ones, Cut, Positive, Found, NonNegative;
    var judged := Judged(ranked, corpus);
    JudgedNoRepeat(ranked, corpus);
    HitsDistinct(judged, relevant);
    var hits := Hits(judged, relevant);
    AverageBounds(hits, |relevant|);
    PositiveHits(hits, k);
    OnesWithin(|Positive(Cut(HitGains(hits), k))|, Min(|relevant|, k));
    OnesNonNegative(Min(|relevant|, k));
    NdcgBounds(weight, Cut(HitGains(hits), k), Ones(Min(|relevant|, k)), k);
    CutNdcg(weight, HitGains(hits), Ones(Min(|relevant|, k)), k);
  }

  // ----- when both are 1 -----

  lemma {:induction false} JudgedSkips(before: seq<string>, track: string, rest: seq<string>, corpus: set<string>)
    requires track !in corpus
    ensures Judged(before + [track] + rest, corpus) == Judged(before + rest, corpus)
  {
    if before == [] {
      assert before + [track] + rest == [track] + rest && before + rest == rest;
    } else {
      assert (before + [track] + rest)[1..] == before[1..] + [track] + rest;
      assert (before + rest)[1..] == before[1..] + rest;
      JudgedSkips(before[1..], track, rest, corpus);
    }
  }

  /** A track that nobody tagged changes neither score, wherever it is ranked. */
  lemma UntaggedCountsForNothing(
    weight: nat -> real, before: seq<string>, track: string, rest: seq<string>,
    relevant: set<string>, corpus: set<string>, k: nat)
    requires track !in corpus
    ensures SetAverage(before + [track] + rest, relevant, corpus) == SetAverage(before + rest, relevant, corpus)
    ensures SetNdcg(weight, before + [track] + rest, relevant, corpus, k)
         == SetNdcg(weight, before + rest, relevant, corpus, k)
  {
    JudgedSkips(before, track, rest, corpus);
  }

  /** No judged track that is not relevant is ranked ahead of a judged one that is. */
  ghost predicate RelevantFirst(ranked: seq<string>, relevant: set<string>, corpus: set<string>) {
    forall i, j :: 0 <= i < j < |ranked| && ranked[i] in corpus && ranked[j] in corpus && ranked[j] in relevant ==>
      ranked[i] in relevant
  }

  lemma LeadingCons(hit: bool, hits: seq<bool>)
    ensures Leading([hit] + hits, |hits| + 1) <==> Leading(hits, |hits|) && (hit || true !in hits)
  {
    var all := [hit] + hits;
    if Leading(all, |all|) {
      forall i, j | 0 <= i < j < |hits| && hits[j] ensures hits[i] { assert all[j + 1] && all[i + 1] == hits[i]; }
      if true in hits {
        var j :| 0 <= j < |hits| && hits[j];
        assert all[j + 1] && all[0];
      }
    }
    if Leading(hits, |hits|) && (hit || true !in hits) {
      forall i, j | 0 <= i < j < |all| && all[j] ensures all[i] {
        assert hits[j - 1] in hits;
        if i > 0 { assert hits[i - 1]; }
      }
    }
  }

  lemma {:induction false} HitsAre(ranked: seq<string>, relevant: set<string>, corpus: set<string>)
    ensures true in Hits(Judged(ranked, corpus), relevant) <==>
      exists t :: t in ranked && t in corpus && t in relevant
    ensures Leading(Hits(Judged(ranked, corpus), relevant), |Hits(Judged(ranked, corpus), relevant)|) <==>
      RelevantFirst(ranked, relevant, corpus)
  {
    if ranked != [] {
      var track, rest := ranked[0], ranked[1..];
      var hits := Hits(Judged(rest, corpus), relevant);
      HitsAre(rest, relevant, corpus);
      FirstCons(track, rest, relevant, corpus);
      assert ranked == [track] + rest;
      if track in corpus {
        assert ([track] + Judged(rest, corpus))[1..] == Judged(rest, corpus);
        assert Hits(Judged(ranked, corpus), relevant) == [track in relevant] + hits;
        LeadingCons(track in relevant, hits);
      }
    }
  }

  lemma FirstCons(track: string, rest: seq<string>, relevant: set<string>, corpus: set<string>)
    ensures RelevantFirst([track] + rest, relevant, corpus) <==>
      && RelevantFirst(rest, relevant, corpus)
      && (track in corpus && track !in relevant ==> forall t :: t in rest && t in corpus ==> t !in relevant)
  {
    var all := [track] + rest;
    if RelevantFirst(all, relevant, corpus) {
      forall i, j | 0 <= i < j < |rest| && rest[i] in corpus && rest[j] in corpus && rest[j] in relevant
        ensures rest[i] in relevant
      {
        assert all[i + 1] == rest[i] && all[j + 1] == rest[j];
      }
      forall t | t in rest && t in corpus && track in corpus && track !in relevant ensures t !in relevant {
        var j :| 0 <= j < |rest| && rest[j] == t;
        assert all[0] == track && all[j + 1] == t;
      }
    }
  }

  function Finds(ranked: seq<string>, relevant: set<string>, corpus: set<string>): set<string> {
    set t | t in relevant && t in corpus && t in ranked
  }

  lemma {:induction false} FoundIs(ranked: seq<string>, relevant: set<string>, corpus: set<string>)
    requires NoRepeat(ranked)
    ensures var hits := Hits(Judged(ranked, corpus), relevant);
      Found(hits, |hits|) == |Finds(ranked, relevant, corpus)|
  {
    if ranked == [] {
      assert Finds(ranked, relevant, corpus) == {};
    } else {
      var track, rest := ranked[0], ranked[1..];
      var hits := Hits(Judged(rest, corpus), relevant);
      FoundIs(rest, relevant, corpus);
      assert ranked == [track] + rest && track !in Finds(rest, relevant, corpus);
      if track in corpus {
        assert ([track] + Judged(rest, corpus))[1..] == Judged(rest, corpus);
        assert ([track in relevant] + hits)[1..] == hits;
        FoundCons([track in relevant] + hits, |hits| + 1);
      }
      assert Finds(ranked, relevant, corpus) ==
        Finds(rest, relevant, corpus) + if track in relevant && track in corpus then {track} else {};
    }
  }

  lemma SameSize(part: set<string>, whole: set<string>)
    requires part <= whole && |part| == |whole|
    ensures part == whole
  {
    if t :| t in whole && t !in part {
      assert part <= whole - {t};
      Smaller(part, whole - {t});
    }
  }

  lemma {:induction false} Smaller(part: set<string>, whole: set<string>)
    requires part <= whole
    ensures |part| <= |whole|
  {
    if t :| t in part { Smaller(part - {t}, whole - {t}); }
  }

  /** A ranking without repeats has average precision 1 exactly when some track is relevant,
      all relevant ones are judged and ranked, and no other judged track is ahead of one. */
  lemma AverageIsOne(ranked: seq<string>, relevant: set<string>, corpus: set<string>)
    requires NoRepeat(ranked)
    ensures SetAverage(ranked, relevant, corpus) == 1.0 <==>
      && relevant != {} && (forall t :: t in relevant ==> t in corpus && t in ranked)
      && RelevantFirst(ranked, relevant, corpus)
  {
    var hits, finds := Hits(Judged(ranked, corpus), relevant), Finds(ranked, relevant, corpus);
    FoundIs(ranked, relevant, corpus);
    HitsAre(ranked, relevant, corpus);
    Smaller(finds, relevant);
    AverageBounds(hits, |relevant|);
    hide Average, Judged, Hits, RelevantFirst, Leading, Found;
    if |finds| == |relevant| { SameSize(finds, relevant); }
    if forall t :: t in relevant ==> t in corpus && t in ranked { assert finds == relevant; }
    assert |relevant| > 0 <==> relevant != {};
  }

  lemma {:induction false} OnesSorted(n: nat, k: nat)
    requires n <= k
    ensures SortDown(Ones(n)) == Ones(n) && Cut(Ones(n), k) == Ones(n)
  {
    if n > 0 {
      OnesSorted(n - 1, k - 1);
      assert Ones(n)[1..] == Ones(n - 1);
      assert n > 1 ==> Ones(n - 1)[0] == 1.0;
    }
  }

  /** Hits that come first gain what as many ones do. */
  lemma {:induction false} LeadingGains(weight: nat -> real, hits: seq<bool>, k: nat, at: nat)
    requires Leading(hits, |hits|)
    ensures DcgFrom(weight, Cut(HitGains(hits), k), at) == DcgFrom(weight, Ones(Min(Found(hits, |hits|), k)), at)
  {
    if hits != [] {
      var rest := hits[1..];
      assert hits == [hits[0]] + rest;
      LeadingCons(hits[0], rest);
      FoundCons(hits, |hits|);
      assert HitGains(hits)[1..] == HitGains(rest);
      if k > 0 {
        LeadingGains(weight, rest, k - 1, at + 1);
        assert Cut(HitGains(hits), k)[1..] == Cut(HitGains(rest), k - 1);
        if hits[0] {
          var n := Min(Found(hits, |hits|), k);
          assert Ones(n)[1..] == Ones(n - 1);
        } else {
          NoneFound(rest);
          assert Found(hits, |hits|) == 0;
        }
      }
    }
  }

  lemma {:induction false} NoneFound(hits: seq<bool>)
    requires true !in hits
    ensures Found(hits, |hits|) == 0
  {
    if hits != [] {
      assert hits[0] in hits && forall h :: h in hits[1..] ==> h in hits;
      FoundCons(hits, |hits|);
      NoneFound(hits[1..]);
    }
  }

  lemma AsGoodAsBest(weight: nat -> real, ranked: seq<real>, ideal: seq<real>, k: nat)
    requires Dcg(weight, Cut(ranked, k)) == Dcg(weight, Cut(SortDown(ideal), k)) > 0.0
    ensures NdcgAt(weight, ranked, ideal, k) == 1.0
  {
    hide Dcg, Cut, SortDown;
    SameShare(Dcg(weight, Cut(ranked, k)));
  }

  lemma BestOnes(weight: nat -> real, n: nat, k: nat)
    requires IsDiscount(weight) && 0 < n <= k
    ensures Dcg(weight, Cut(SortDown(Ones(n)), k)) == DcgFrom(weight, Ones(n), 0) > 0.0
  {
    OnesSorted(n, k);
    OnesNonNegative(n);
    assert Ones(n)[0] == 1.0 && 1.0 in Ones(n);
    hide Ones, SortDown, Cut, NonNegative, DcgFrom, IsDiscount;
    SomethingToGain(weight, Ones(n), k);
  }

  lemma LeadingNdcg(weight: nat -> real, hits: seq<bool>, k: nat)
    requires IsDiscount(weight) && k > 0 && Leading(hits, |hits|) && Found(hits, |hits|) > 0
    ensures NdcgAt(weight, HitGains(hits), Ones(Min(Found(hits, |hits|), k)), k) == 1.0
  {
    hide Found, Leading, DcgFrom, SortDown, Cut, HitGains, Ones, IsDiscount, NdcgAt;
    LeadingGains(weight, hits, k, 0);
    BestOnes(weight, Min(Found(hits, |hits|), k), k);
    AsGoodAsBest(weight, HitGains(hits), Ones(Min(Found(hits, |hits|), k)), k);
  }

  /** Then nDCG is 1 as well, however few tracks it looks at. */
  lemma PerfectNdcg(weight: nat -> real, ranked: seq<string>, relevant: set<string>, corpus: set<string>, k: nat)
    requires IsDiscount(weight) && k > 0 && NoRepeat(ranked) && SetAverage(ranked, relevant, corpus) == 1.0
    ensures SetNdcg(weight, ranked, relevant, corpus, k) == 1.0
  {
    AverageIsOne(ranked, relevant, corpus);
    HitsAre(ranked, relevant, corpus);
    FoundIs(ranked, relevant, corpus);
    assert Finds(ranked, relevant, corpus) == relevant;
    assert |relevant| > 0;
    hide Average, Judged, Hits, RelevantFirst, Leading, Found, NdcgAt, HitGains, Ones, NoRepeat, Finds;
    LeadingNdcg(weight, Hits(Judged(ranked, corpus), relevant), k);
  }

  lemma {:induction false} NoRepeatAt(s: seq<string>, i: nat, j: nat)
    requires NoRepeat(s) && i < j < |s|
    ensures s[i] != s[j]
  {
    if i > 0 { NoRepeatAt(s[1..], i - 1, j - 1); } else { assert s[1..][j - 1] == s[j]; }
  }

  /** A ranking of judged tracks that opens with the relevant ones, in any order, scores 1. */
  lemma RelevantFirstScoresOne(
    weight: nat -> real, ranked: seq<string>, relevant: set<string>, corpus: set<string>, k: nat)
    requires IsDiscount(weight) && k > 0 && NoRepeat(ranked) && forall t :: t in ranked ==> t in corpus
    requires 0 < |relevant| <= |ranked| && (set i | 0 <= i < |relevant| :: ranked[i]) == relevant
    ensures SetAverage(ranked, relevant, corpus) == 1.0
    ensures SetNdcg(weight, ranked, relevant, corpus, k) == 1.0
  {
    var opening := set i | 0 <= i < |relevant| :: ranked[i];
    forall t | t in relevant ensures t in ranked { assert t in opening; }
    forall i, j | 0 <= i < j < |ranked| && ranked[j] in relevant ensures ranked[i] in relevant {
      assert ranked[j] in opening;
      var m :| 0 <= m < |relevant| && ranked[m] == ranked[j];
      if m < j { NoRepeatAt(ranked, m, j); } else if j < m { NoRepeatAt(ranked, j, m); }
      assert ranked[i] in opening;
    }
    AverageIsOne(ranked, relevant, corpus);
    PerfectNdcg(weight, ranked, relevant, corpus, k);
  }
}
