/** The popular sections round-robined into one listing. */
module Popular {
  import opened Orders
  import opened Paging

  // ----- arithmetic of the round robin -----

  lemma {:induction false} MulGap(a: int, b: int, n: nat)
    requires a < b
    ensures a * n + n <= b * n
  {
    var gap: nat := b - a - 1;
    assert b * n == (a + 1 + gap) * n == a * n + n + gap * n;
    NoNegative(gap, n);
  }

  lemma NoNegative(a: nat, n: nat)
    ensures a * n >= 0
  {}

  lemma DivModUnique(i: nat, n: nat, q: int, r: nat)
    requires n > 0 && r < n && i == q * n + r
    ensures i / n == q && i % n == r
  {
    var p := i / n;
    assert i == p * n + i % n;
    if p > q { MulGap(q, p, n); }
    if p < q { MulGap(p, q, n); }
  }

  /** `len(range(first, end, step))` */
  function RangeLen(first: nat, end: nat, step: nat): nat
    requires step > 0
    decreases if first < end then end - first else 0
  {
    if first >= end then 0 else 1 + RangeLen(first + step, end, step)
  }

  lemma {:induction false} RangeLenIs(first: nat, end: nat, step: nat, k: nat)
    requires step > 0
    ensures k < RangeLen(first, end, step) <==> first + k * step < end
    decreases k
  {
    if first < end && k > 0 {
      RangeLenIs(first + step, end, step, k - 1);
      assert (k - 1) * step + step == k * step;
    } else if first >= end {
      assert k * step >= 0;
    }
  }

  /** The first position at or after `offset` that shows section `index`. */
  function FirstOf(index: nat, offset: nat, n: nat): (first: nat)
    requires index < n
  {
    offset + (index - offset) % n
  }

  lemma FirstIs(index: nat, offset: nat, n: nat)
    requires index < n
    ensures offset <= FirstOf(index, offset, n) < offset + n
    ensures FirstOf(index, offset, n) == FirstOf(index, offset, n) / n * n + index
  {
    var d := (index - offset) % n;
    var q := (index - offset) / n;
    assert index - offset == q * n + d;
    assert offset + d == index - q * n == index + (-q) * n;
    DivModUnique(offset + d, n, -q, index);
  }

  // ----- the listing -----

  /** What position `i` shows: row `i / n` of section `i % n`, where there is one. */
  function At<T>(sections: seq<seq<T>>, i: nat): seq<T>
    requires sections != []
  {
    if i / |sections| < |sections[i % |sections|]| then [sections[i % |sections|][i / |sections|]] else []
  }

  function PageOf<T>(sections: seq<seq<T>>, offset: nat, limit: nat): seq<T>
    requires sections != []
    decreases limit
  {
    if limit == 0 then [] else At(sections, offset) + PageOf(sections, offset + 1, limit - 1)
  }

  /** The part of a section a window needs: its first row and how many. */
  function SpanOf(index: nat, offset: nat, limit: nat, n: nat): (nat, nat)
    requires index < n
  {
    (FirstOf(index, offset, n) / n, RangeLen(FirstOf(index, offset, n), offset + limit, n))
  }

  function SectionPage<T>(sections: seq<seq<T>>, index: nat, offset: nat, limit: nat): seq<T>
    requires index < |sections|
  {
    var (start, count) := SpanOf(index, offset, limit, |sections|);
    Window(sections[index], start, count)
  }

  /** Some section filled its span. */
  ghost predicate More<T>(sections: seq<seq<T>>, offset: nat, limit: nat) {
    exists s :: 0 <= s < |sections| && SpanOf(s, offset, limit, |sections|).1 > 0
      && |SectionPage(sections, s, offset, limit)| >= SpanOf(s, offset, limit, |sections|).1
  }

  /** A window's positions of one section are rows `start` on, `count` of them. */
  lemma PositionCounted(n: nat, offset: nat, limit: nat, position: nat)
    requires n > 0 && offset <= position < offset + limit
    ensures var (start, count) := SpanOf(position % n, offset, limit, n);
      start <= position / n && position / n - start < count
  {
    var s, row := position % n, position / n;
    var first := FirstOf(s, offset, n);
    var start := first / n;
    FirstIs(s, offset, n);
    assert position == row * n + s;
    if row < start {
      MulGap(row, start, n);
      assert false;
    }
    StepsFrom(start, row, n);
    RangeLenIs(first, offset + limit, n, row - start);
  }

  lemma StepsFrom(start: nat, row: nat, n: nat)
    requires start <= row
    ensures (row - start) * n == row * n - start * n
  {}

  lemma PositionShows<T>(sections: seq<seq<T>>, offset: nat, limit: nat, position: nat)
    requires sections != [] && offset <= position < offset + limit
    ensures var n := |sections|;
      var start, page := SpanOf(position % n, offset, limit, n).0, SectionPage(sections, position % n, offset, limit);
      && start <= position / n
      && At(sections, position) == if position / n - start < |page| then [page[position / n - start]] else []
  {
    PositionCounted(|sections|, offset, limit, position);
    var (start, count) := SpanOf(position % |sections|, offset, limit, |sections|);
    WindowIs(sections[position % |sections|], start, count);
  }

  lemma PageStep<T>(sections: seq<seq<T>>, items: seq<T>, position: nat, limit: nat)
    requires sections != [] && limit > 0
    ensures items + PageOf(sections, position, limit)
         == (items + At(sections, position)) + PageOf(sections, position + 1, limit - 1)
  {
    ConcatAssociates(items, At(sections, position), PageOf(sections, position + 1, limit - 1));
  }

  /** The part of each section the window needs. */
  method Spans(n: nat, offset: nat, limit: nat) returns (spans: seq<(nat, nat)>)
    ensures |spans| == n && forall s :: 0 <= s < n ==> spans[s] == SpanOf(s, offset, limit, n)
  {
    spans := [];
    for index := 0 to n
      invariant |spans| == index
      invariant forall s :: 0 <= s < index ==> spans[s] == SpanOf(s, offset, limit, n)
    {
      var first := FirstOf(index, offset, n);
      spans := spans + [(first / n, RangeLen(first, offset + limit, n))];
    }
  }

  /** Each section's page, and whether one filled its span. */
  method Fetch<T>(sections: seq<seq<T>>, spans: seq<(nat, nat)>) returns (pages: seq<seq<T>>, more: bool)
    requires |spans| == |sections|
    ensures |pages| == |sections|
    ensures forall s :: 0 <= s < |sections| ==> pages[s] == Window(sections[s], spans[s].0, spans[s].1)
    ensures more <==> exists s :: 0 <= s < |sections| && spans[s].1 > 0 && |pages[s]| >= spans[s].1
  {
    pages, more := [], false;
    for index := 0 to |sections|
      invariant |pages| == index
      invariant forall s :: 0 <= s < index ==> pages[s] == Window(sections[s], spans[s].0, spans[s].1)
      invariant more <==> exists s :: 0 <= s < index && spans[s].1 > 0 && |pages[s]| >= spans[s].1
    {
      var page := Window(sections[index], spans[index].0, spans[index].1);
      pages := pages + [page];
      more := more || (spans[index].1 > 0 && |page| >= spans[index].1);
    }
  }

  lemma SectionOf(position: nat, n: nat)
    requires n > 0
    ensures 0 <= position % n < n
  {}

  /** The pages dealt out position by position. */
  method DealOut<T>(ghost sections: seq<seq<T>>, spans: seq<(nat, nat)>, pages: seq<seq<T>>, offset: nat, limit: nat)
    returns (items: seq<T>)
    requires sections != [] && |spans| == |pages| == |sections|
    requires forall s :: 0 <= s < |sections| ==> spans[s] == SpanOf(s, offset, limit, |sections|)
    requires forall s :: 0 <= s < |sections| ==> pages[s] == SectionPage(sections, s, offset, limit)
    ensures items == PageOf(sections, offset, limit)
  {
    hide SpanOf, SectionPage, At;
    var n, end := |pages|, offset + limit;
    items := [];
    for position := offset to end
      invariant items + PageOf(sections, position, end - position) == PageOf(sections, offset, limit)
    {
      PageStep(sections, items, position, end - position);
      PositionShows(sections, offset, limit, position);
      SectionOf(position, n);
      var index, row := position % n, position / n;
      var rows := pages[index];
      row := row - spans[index].0;
      if row < |rows| {
        items := items + [rows[row]];
      } else {
        assert items + At(sections, position) == items;
      }
    }
  }

  /** Sections are read a span each, then dealt out position by position. */
  method InterleavedItems<T>(sections: seq<seq<T>>, offset: nat, limit: nat) returns (items: seq<T>, more: bool)
    requires sections != []
    ensures items == PageOf(sections, offset, limit)
    ensures more <==> More(sections, offset, limit)
  {
    var spans := Spans(|sections|, offset, limit);
    var pages;
    pages, more := Fetch(sections, spans);
    items := DealOut(sections, spans, pages, offset, limit);
  }

  // ----- every row exactly once -----

  lemma {:induction false} PagesTile<T>(sections: seq<seq<T>>, offset: nat, first: nat, second: nat)
    requires sections != []
    decreases first
    ensures PageOf(sections, offset, first) + PageOf(sections, offset + first, second)
         == PageOf(sections, offset, first + second)
  {
    if first > 0 {
      PagesTile(sections, offset + 1, first - 1, second);
      ConcatAssociates(At(sections, offset), PageOf(sections, offset + 1, first - 1),
                       PageOf(sections, offset + first, second));
    } else {
      assert [] + PageOf(sections, offset, second) == PageOf(sections, offset, second);
    }
  }

  datatype Cell = Cell(section: nat, row: nat)

  /** The rows a window shows, position by position. */
  function Cells<T>(sections: seq<seq<T>>, offset: nat, limit: nat): seq<Cell>
    requires sections != []
    decreases limit
  {
    if limit == 0 then [] else CellAt(sections, offset) + Cells(sections, offset + 1, limit - 1)
  }

  function CellAt<T>(sections: seq<seq<T>>, i: nat): seq<Cell>
    requires sections != []
  {
    if i / |sections| < |sections[i % |sections|]| then [Cell(i % |sections|, i / |sections|)] else []
  }

  ghost predicate Shows<T>(sections: seq<seq<T>>, cells: seq<Cell>, items: seq<T>) {
    && |items| == |cells|
    && forall i :: 0 <= i < |cells| ==>
         IsRow(sections, cells[i]) && items[i] == sections[cells[i].section][cells[i].row]
  }

  lemma CellShows<T>(sections: seq<seq<T>>, i: nat)
    requires sections != []
    ensures Shows(sections, CellAt(sections, i), At(sections, i))
  {
    SectionOf(i, |sections|);
  }

  lemma ShowsBoth<T>(sections: seq<seq<T>>, a: seq<Cell>, x: seq<T>, b: seq<Cell>, y: seq<T>)
    requires Shows(sections, a, x) && Shows(sections, b, y)
    ensures Shows(sections, a + b, x + y)
  {}

  /** Where the listing shows a cell. */
  function PositionIn(cell: Cell, n: nat): nat { cell.row * n + cell.section }

  ghost predicate IsRow<T>(sections: seq<seq<T>>, cell: Cell) {
    cell.section < |sections| && cell.row < |sections[cell.section]|
  }

  /** A page's items are the rows its positions name. */
  lemma {:induction false} PageIsItsCells<T>(sections: seq<seq<T>>, offset: nat, limit: nat)
    requires sections != []
    ensures Shows(sections, Cells(sections, offset, limit), PageOf(sections, offset, limit))
    decreases limit
  {
    if limit > 0 {
      hide CellAt, At, Shows, IsRow;
      PageIsItsCells(sections, offset + 1, limit - 1);
      CellShows(sections, offset);
      ShowsBoth(sections, CellAt(sections, offset), At(sections, offset),
                Cells(sections, offset + 1, limit - 1), PageOf(sections, offset + 1, limit - 1));
    }
  }

  /** A window shows each row whose position is inside it, no other, and none twice. */
  lemma EachRowOnce<T>(sections: seq<seq<T>>, offset: nat, limit: nat)
    requires sections != []
    ensures forall cell :: cell in Cells(sections, offset, limit) <==>
      IsRow(sections, cell) && offset <= PositionIn(cell, |sections|) < offset + limit
    ensures forall i, j :: 0 <= i < j < |Cells(sections, offset, limit)| ==>
      Cells(sections, offset, limit)[i] != Cells(sections, offset, limit)[j]
  {
    forall cell: Cell ensures cell in Cells(sections, offset, limit) <==>
      IsRow(sections, cell) && offset <= PositionIn(cell, |sections|) < offset + limit
    {
      CellListed(sections, offset, limit, cell);
    }
    CellsDiffer(sections, offset, limit);
  }

  lemma PositionOf(n: nat, position: nat, cell: Cell)
    requires n > 0
    ensures cell.section < n ==>
      (PositionIn(cell, n) == position <==> cell == Cell(position % n, position / n))
  {
    assert position == position / n * n + position % n;
    if cell.section < n && PositionIn(cell, n) == position {
      DivModUnique(position, n, cell.row, cell.section);
    }
  }

  lemma CellAtIs<T>(sections: seq<seq<T>>, position: nat, cell: Cell)
    requires sections != []
    ensures cell in CellAt(sections, position) <==> IsRow(sections, cell) && PositionIn(cell, |sections|) == position
    ensures |CellAt(sections, position)| <= 1
  {
    SectionOf(position, |sections|);
    PositionOf(|sections|, position, cell);
  }

  lemma CellsStep<T>(sections: seq<seq<T>>, offset: nat, limit: nat, cell: Cell)
    requires sections != [] && limit > 0
    ensures cell in Cells(sections, offset, limit) <==>
      (IsRow(sections, cell) && PositionIn(cell, |sections|) == offset)
      || cell in Cells(sections, offset + 1, limit - 1)
  {
    CellAtIs(sections, offset, cell);
    hide CellAt, PositionIn;
  }

  lemma {:induction false} CellListed<T>(sections: seq<seq<T>>, offset: nat, limit: nat, cell: Cell)
    requires sections != []
    ensures cell in Cells(sections, offset, limit) <==>
      IsRow(sections, cell) && offset <= PositionIn(cell, |sections|) < offset + limit
    decreases limit
  {
    if limit > 0 {
      hide PositionIn, Cells;
      CellListed(sections, offset + 1, limit - 1, cell);
      CellsStep(sections, offset, limit, cell);
    }
  }

  lemma {:induction false} CellsDiffer<T>(sections: seq<seq<T>>, offset: nat, limit: nat)
    requires sections != []
    ensures forall i, j :: 0 <= i < j < |Cells(sections, offset, limit)| ==>
      Cells(sections, offset, limit)[i] != Cells(sections, offset, limit)[j]
    decreases limit
  {
    if limit > 0 {
      hide CellAt, PositionIn;
      CellsDiffer(sections, offset + 1, limit - 1);
      var here, later := CellAt(sections, offset), Cells(sections, offset + 1, limit - 1);
      CellAtIs(sections, offset, Cell(0, 0));
      if here != [] {
        CellAtIs(sections, offset, here[0]);
        CellListed(sections, offset + 1, limit - 1, here[0]);
        assert here[0] !in later;
      }
      assert Cells(sections, offset, limit) == here + later;
    }
  }

  // ----- when there is no more -----

  ghost predicate NothingLeft<T>(sections: seq<seq<T>>, end: nat) {
    forall cell: Cell :: IsRow(sections, cell) ==> PositionIn(cell, |sections|) < end
  }

  lemma RowBeforeEnd<T>(sections: seq<seq<T>>, offset: nat, limit: nat, cell: Cell)
    requires limit >= |sections| && !More(sections, offset, limit) && IsRow(sections, cell)
    ensures PositionIn(cell, |sections|) < offset + limit
  {
    var n, s := |sections|, cell.section;
    var first := FirstOf(s, offset, n);
    var (start, count) := SpanOf(s, offset, limit, n);
    FirstIs(s, offset, n);
    RangeLenIs(first, offset + limit, n, 0);
    WindowIs(sections[s], start, count);
    assert |sections[s]| < start + count;
    if cell.row < start {
      MulGap(cell.row, start, n);
    } else {
      RangeLenIs(first, offset + limit, n, cell.row - start);
      StepsFrom(start, cell.row, n);
    }
  }

  lemma NoMoreMeansNothingLeft<T>(sections: seq<seq<T>>, offset: nat, limit: nat)
    requires sections != [] && limit >= |sections| && !More(sections, offset, limit)
    ensures NothingLeft(sections, offset + limit)
  {
    forall cell: Cell | IsRow(sections, cell) ensures PositionIn(cell, |sections|) < offset + limit {
      RowBeforeEnd(sections, offset, limit, cell);
    }
  }

  /** With a window narrower than the round, a section outside it may still have rows. */
  lemma NarrowWindowMisleads(n: nat, offset: nat, limit: nat) returns (sections: seq<seq<int>>)
    requires limit < n
    ensures |sections| == n && !More(sections, offset, limit) && !NothingLeft(sections, offset + limit)
  {
    var end := offset + limit;
    var s := end % n;
    sections := seq(n, i => if i == s then seq(end / n + 1, _ => 0) else []);
    forall t | 0 <= t < n && SpanOf(t, offset, limit, n).1 > 0
      ensures |SectionPage(sections, t, offset, limit)| < SpanOf(t, offset, limit, n).1
    {
      NothingInSpan(sections, offset, limit, t);
    }
    assert end == end / n * n + s;
    assert IsRow(sections, Cell(s, end / n));
  }

  lemma NothingInSpan(sections: seq<seq<int>>, offset: nat, limit: nat, t: nat)
    requires limit < |sections| && t < |sections|
    requires t != (offset + limit) % |sections| ==> sections[t] == []
    ensures SpanOf(t, offset, limit, |sections|).1 > 0 ==> SectionPage(sections, t, offset, limit) == []
  {
    EndIsFirst(|sections|, offset, limit);
  }

  lemma EndIsFirst(n: nat, offset: nat, limit: nat)
    requires limit < n
    ensures FirstOf((offset + limit) % n, offset, n) == offset + limit
  {
    var end := offset + limit;
    var first := FirstOf(end % n, offset, n);
    FirstIs(end % n, offset, n);
    assert end == end / n * n + end % n;
    if first / n > end / n { MulGap(end / n, first / n, n); }
    if first / n < end / n { MulGap(first / n, end / n, n); }
  }

  /** `more` being false can be relied on for every content exactly when the window
      spans a whole round. */
  lemma NoMoreIsReliable(n: nat, offset: nat, limit: nat)
    requires n > 0
    ensures limit >= n <==>
      forall sections: seq<seq<int>> ::
        |sections| == n && !More(sections, offset, limit) ==> NothingLeft(sections, offset + limit)
  {
    if limit >= n {
      forall sections: seq<seq<int>> | |sections| == n && !More(sections, offset, limit)
        ensures NothingLeft(sections, offset + limit)
      {
        NoMoreMeansNothingLeft(sections, offset, limit);
      }
    } else {
      var sections := NarrowWindowMisleads(n, offset, limit);
    }
  }
}
