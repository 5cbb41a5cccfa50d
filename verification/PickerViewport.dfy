/**
 The viewport of the startup pickers: which rows fit a line budget from a given offset, and the scrolling that brings
 the selected row into view.
 */
module PickerViewport {

  /** A row on screen; its preview takes a second line when there is room for one. */
  datatype VisibleRow = VisibleRow(index: nat, showPreview: bool)

  /** A list of `count` rows, some with a preview, and the lines available for it. */
  datatype Listing = Listing(count: nat, hasPreview: nat -> bool, budget: int)

  function RowLines(l: Listing, index: nat, available: int): (lines: int) {
    if l.hasPreview(index) && available >= 2 then 2 else 1
  }

  /** The rows shown from `index` on when `available` lines are left for that row; each later row pays a separator. */
  function Fitting(l: Listing, index: nat, available: int): (rows: seq<VisibleRow>)
    ensures forall k :: 0 <= k < |rows| ==> rows[k].index == index + k
    ensures index + |rows| <= l.count || rows == []
    ensures index < l.count && available >= 1 ==> rows != []
    decreases l.count - index
  {
    if index >= l.count || available < 1 then []
    else
      var lines := RowLines(l, index, available);
      [VisibleRow(index, lines == 2)] + Fitting(l, index + 1, available - lines - 1)
  }

  function VisibleRows(l: Listing, offset: nat): (rows: seq<VisibleRow>) {
    Fitting(l, offset, l.budget)
  }

  predicate RowVisible(l: Listing, offset: nat, index: nat) {
    offset <= index < offset + |VisibleRows(l, offset)|
  }

  /** The lines taken on screen, one separator between neighbours. */
  function LinesUsed(rows: seq<VisibleRow>): (n: nat) {
    if rows == [] then 0
    else (if rows[0].showPreview then 2 else 1) + (if |rows| == 1 then 0 else 1) + LinesUsed(rows[1..])
  }

  /** What is shown never takes more lines than there are. */
  lemma {:induction false} RowsFitBudget(l: Listing, index: nat, available: int)
    requires available >= 0
    ensures LinesUsed(Fitting(l, index, available)) <= available
    decreases l.count - index
  {
    if index < l.count && available >= 1 {
      var left := available - RowLines(l, index, available) - 1;
      var rows := Fitting(l, index, available);
      assert rows[1..] == Fitting(l, index + 1, left);
      if left >= 1 {
        RowsFitBudget(l, index + 1, left);
      }
    }
  }

  /** The lines a row begins after: those of the rows before it, and a separator after each. */
  function LinesBefore(rows: seq<VisibleRow>, k: nat): (n: nat)
    requires k <= |rows|
  {
    if k == 0 then 0 else LinesBefore(rows, k - 1) + (if rows[k - 1].showPreview then 2 else 1) + 1
  }

  lemma {:induction false} LinesBeforeTail(rows: seq<VisibleRow>, k: nat)
    requires 1 <= k <= |rows|
    ensures LinesBefore(rows, k) == (if rows[0].showPreview then 2 else 1) + 1 + LinesBefore(rows[1..], k - 1)
    decreases k
  {
    if k > 1 {
      LinesBeforeTail(rows, k - 1);
      assert rows[1..][k - 2] == rows[k - 1];
    }
  }

  /** All the rows that fit are shown: a row is left out only if not even its one line fits, or there is none. */
  lemma {:induction false} RowsFillBudget(l: Listing, index: nat, available: int)
    ensures var rows := Fitting(l, index, available);
            index + |rows| < l.count ==> LinesBefore(rows, |rows|) + 1 > available
    decreases l.count - index
  {
    if index < l.count && available >= 1 {
      var rows := Fitting(l, index, available);
      RowsFillBudget(l, index + 1, available - RowLines(l, index, available) - 1);
      LinesBeforeTail(rows, |rows|);
    }
  }

  /** A row shows its preview exactly if it has one and both lines fit. */
  lemma {:induction false} PreviewsShowWhenTheyFit(l: Listing, index: nat, available: int, k: nat)
    requires k < |Fitting(l, index, available)|
    ensures var rows := Fitting(l, index, available);
            rows[k].showPreview <==> l.hasPreview(index + k) && LinesBefore(rows, k) + 2 <= available
    decreases k
  {
    var rows := Fitting(l, index, available);
    if k > 0 {
      PreviewsShowWhenTheyFit(l, index + 1, available - RowLines(l, index, available) - 1, k - 1);
      LinesBeforeTail(rows, k);
    }
  }

  /** More lines never show fewer rows. */
  lemma {:induction false} MoreLinesShowMore(l: Listing, index: nat, less: int, more: int)
    requires less <= more
    ensures |Fitting(l, index, less)| <= |Fitting(l, index, more)|
    decreases l.count - index
  {
    if index < l.count && less >= 1 {
      MoreLinesShowMore(l, index + 1, less - RowLines(l, index, less) - 1, more - RowLines(l, index, more) - 1);
    }
  }

  /** A row visible from some offset stays visible from every later offset up to the row itself. */
  lemma {:induction false} VisibilityIsMonotone(l: Listing, offset: nat, later: nat, index: nat)
    requires RowVisible(l, offset, index) && offset <= later <= index
    ensures RowVisible(l, later, index)
    decreases later - offset
  {
    if offset < later {
      MoreLinesShowMore(l, offset + 1, l.budget - RowLines(l, offset, l.budget) - 1, l.budget);
      VisibilityIsMonotone(l, offset + 1, later, index);
    }
  }

  /** The least offset from which the selection is visible; the selection itself when nothing can be shown. */
  ghost predicate LeastOffset(l: Listing, selected: nat, offset: nat) {
    && offset <= selected
    && (forall o: nat :: o < offset ==> !RowVisible(l, o, selected))
    && (RowVisible(l, offset, selected) || (l.budget < 1 && offset == selected))
  }

  lemma LeastOffsetIsUnique(l: Listing, selected: nat, a: nat, b: nat)
    requires LeastOffset(l, selected, a) && LeastOffset(l, selected, b)
    ensures a == b
  {
    assert a < b ==> !RowVisible(l, a, selected);
    assert b < a ==> !RowVisible(l, b, selected);
  }

  /** The offset every scroll ends at, found by trying the offsets in turn. */
  function LeastVisible(l: Listing, selected: nat, tried: nat := 0): (offset: nat)
    requires tried <= selected < l.count
    requires forall o: nat :: o < tried ==> !RowVisible(l, o, selected)
    ensures LeastOffset(l, selected, offset)
    decreases selected - tried
  {
    if tried == selected || RowVisible(l, tried, selected) then tried else LeastVisible(l, selected, tried + 1)
  }

  /** The rows found so far, followed by those that fit from `index` on, are the rows shown. */
  predicate Found(l: Listing, offset: nat, visible: seq<VisibleRow>, index: nat, available: int) {
    visible + Fitting(l, index, available) == VisibleRows(l, offset)
  }

  lemma FoundNext(l: Listing, offset: nat, visible: seq<VisibleRow>, index: nat, available: int)
    requires Found(l, offset, visible, index, available) && index < l.count && available >= 1
    ensures var lines := RowLines(l, index, available);
            Found(l, offset, visible + [VisibleRow(index, lines == 2)], index + 1, available - lines - 1)
  {
  }

  lemma FoundAll(l: Listing, offset: nat, visible: seq<VisibleRow>, index: nat, available: int)
    requires Found(l, offset, visible, index, available) && (index >= l.count || available < 1)
    ensures visible == VisibleRows(l, offset)
  {
  }

  method ComputeVisibleRows(l: Listing, offset: nat) returns (visible: seq<VisibleRow>)
    ensures visible == VisibleRows(l, offset)
  {
    visible := [];
    var budget := l.budget;
    if budget <= 0 {
      return;
    }
    var index := offset;
    while index < l.count
      invariant offset <= index
      invariant Found(l, offset, visible, index, budget - (if |visible| > 0 then 1 else 0))
      decreases l.count - index
    {
      var separator := if |visible| > 0 then 1 else 0;
      var available := budget - separator;
      if available < 1 {
        break;
      }
      var showPreview := l.hasPreview(index) && available >= 2;
      var rowLines := if showPreview then 2 else 1;
      FoundNext(l, offset, visible, index, available);
      visible := visible + [VisibleRow(index, showPreview)];
      budget := budget - separator - rowLines;
      index := index + 1;
      if budget == 0 {
        break;
      }
    }
    FoundAll(l, offset, visible, index, budget - (if |visible| > 0 then 1 else 0));
  }

  method IsRowVisible(l: Listing, offset: nat, index: nat) returns (found: bool)
    ensures found == RowVisible(l, offset, index)
  {
    var rows := ComputeVisibleRows(l, offset);
    var i := 0;
    while i < |rows|
      invariant i <= |rows|
      invariant !(offset <= index < offset + i)
    {
      if rows[i].index == index {
        return true;
      }
      i := i + 1;
    }
    found := false;
  }

  /**
   Scrolls so that the selection is visible; where the list was scrolled before makes no difference. The source ends
   with a clamp to the last row, which the bound on the offset makes idle.
   */
  method EnsureVisible(l: Listing, selected: nat, start: nat) returns (offset: nat)
    requires selected < l.count
    ensures LeastOffset(l, selected, offset)
  {
    offset := if selected < start then selected else start;
    var visible := IsRowVisible(l, offset, selected);
    while offset < selected && !visible
      invariant offset <= selected && visible == RowVisible(l, offset, selected)
      decreases selected - offset
    {
      offset := offset + 1;
      visible := IsRowVisible(l, offset, selected);
    }
    if 0 < offset {
      visible := IsRowVisible(l, offset - 1, selected);
    }
    while offset > 0 && visible
      invariant offset <= selected
      invariant 0 < offset ==> visible == RowVisible(l, offset - 1, selected)
      invariant RowVisible(l, offset, selected) || (l.budget < 1 && offset == selected)
    {
      offset := offset - 1;
      if 0 < offset {
        visible := IsRowVisible(l, offset - 1, selected);
      }
    }
    forall o: nat | o < offset ensures !RowVisible(l, o, selected) {
      if RowVisible(l, o, selected) {
        VisibilityIsMonotone(l, o, offset - 1, selected);
      }
    }
  }
}
