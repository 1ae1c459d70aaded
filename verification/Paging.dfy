/** Pages of one listing, and of two shown back to back. */
module Paging {

  /** SQL's `LIMIT limit OFFSET offset`, and what a service answers for a page. */
  function Window<T>(s: seq<T>, offset: nat, limit: nat): seq<T> {
    if s == [] || limit == 0 then []
    else if offset > 0 then Window(s[1..], offset - 1, limit)
    else [s[0]] + Window(s[1..], 0, limit - 1)
  }

  lemma {:induction false} WindowIs<T>(s: seq<T>, offset: nat, limit: nat)
    ensures |Window(s, offset, limit)|
         == if offset >= |s| then 0 else if limit <= |s| - offset then limit else |s| - offset
    ensures forall i :: 0 <= i < |Window(s, offset, limit)| ==> Window(s, offset, limit)[i] == s[offset + i]
  {
    if s != [] && limit > 0 {
      WindowIs(s[1..], if offset > 0 then offset - 1 else 0, if offset > 0 then limit else limit - 1);
    }
  }

  /** Consecutive windows are one window: paging loses and repeats nothing. */
  lemma {:induction false} WindowsTile<T>(s: seq<T>, offset: nat, first: nat, second: nat)
    ensures Window(s, offset, first) + Window(s, offset + first, second) == Window(s, offset, first + second)
  {
    if s != [] && offset > 0 {
      WindowsTile(s[1..], offset - 1, first, second);
    } else if s != [] && first > 0 {
      WindowsTile(s[1..], 0, first - 1, second);
    }
  }

  /** A listing asked for one page as `(offset, limit)`, answering its rows and total. */
  type Pager<!T> = (nat, nat) -> (seq<T>, nat)

  ghost predicate Pages<T>(pager: Pager<T>, listing: seq<T>) {
    forall offset: nat, limit: nat :: pager(offset, limit) == (Window(listing, offset, limit), |listing|)
  }

  /** A page that may end in the first listing, or run over into the second, or lie past the
      first altogether: what it shows of both, and how much there is. */
  function ConcatenatedPages<A, B>(first: Pager<A>, second: Pager<B>, offset: nat, limit: nat): (seq<A>, seq<B>, nat) {
    var (head, headTotal) := first(offset, limit);
    var remaining := limit - |head|;
    var (tail, tailTotal) :=
      if remaining > 0 then second(if offset > headTotal then offset - headTotal else 0, remaining)
      else ([], second(0, 0).1);
    (head, tail, headTotal + tailTotal)
  }

  /** A row of either listing, where both are shown as one. */
  datatype Entry<A, B> = First(a: A) | Second(b: B)

  function Shown<A, B>(head: seq<A>, tail: seq<B>): (r: seq<Entry<A, B>>)
    ensures |r| == |head| + |tail|
  {
    seq(|head|, i requires 0 <= i < |head| => First(head[i]))
    + seq(|tail|, i requires 0 <= i < |tail| => Second(tail[i]))
  }

  lemma ShownWindow<A, B>(a: seq<A>, b: seq<B>, offset: nat, limit: nat)
    ensures |Window(a, offset, limit)| <= limit
    ensures Shown(Window(a, offset, limit),
                  Window(b, if offset > |a| then offset - |a| else 0, limit - |Window(a, offset, limit)|))
         == Window(Shown(a, b), offset, limit)
  {
    WindowIs(a, offset, limit);
    WindowIs(b, if offset > |a| then offset - |a| else 0, limit - |Window(a, offset, limit)|);
    WindowIs(Shown(a, b), offset, limit);
  }

  /** For correct pagers every window is the same window of the two listings end to
      end, with their joint total. */
  lemma PagesAsOne<A, B>(first: Pager<A>, second: Pager<B>, a: seq<A>, b: seq<B>, offset: nat, limit: nat)
    requires Pages(first, a) && Pages(second, b)
    ensures var (head, tail, total) := ConcatenatedPages(first, second, offset, limit);
      Shown(head, tail) == Window(Shown(a, b), offset, limit) && total == |Shown(a, b)|
  {
    assert first(offset, limit) == (Window(a, offset, limit), |a|);
    assert second(0, 0) == (Window(b, 0, 0), |b|);
    var head := Window(a, offset, limit);
    ShownWindow(a, b, offset, limit);
    var at := if offset > |a| then offset - |a| else 0;
    if limit - |head| > 0 {
      assert second(at, limit - |head|) == (Window(b, at, limit - |head|), |b|);
    } else {
      assert Window(b, at, 0) == [];
    }
  }

  /** So consecutive pages tile the joint listing, each row once. */
  lemma JointPagesTile<A, B>(first: Pager<A>, second: Pager<B>, a: seq<A>, b: seq<B>, offset: nat, one: nat, two: nat)
    requires Pages(first, a) && Pages(second, b)
    ensures var (h1, t1, _) := ConcatenatedPages(first, second, offset, one);
      var (h2, t2, _) := ConcatenatedPages(first, second, offset + one, two);
      var (h, t, _) := ConcatenatedPages(first, second, offset, one + two);
      Shown(h1, t1) + Shown(h2, t2) == Shown(h, t)
  {
    hide ConcatenatedPages, Pages;
    PagesAsOne(first, second, a, b, offset, one);
    PagesAsOne(first, second, a, b, offset + one, two);
    PagesAsOne(first, second, a, b, offset, one + two);
    WindowsTile(Shown(a, b), offset, one, two);
  }

}
