/**
 The page window of the pagination control (src/components/Pagination.jsx).

 `getVisiblePages` pushes the pages of a middle range around the current page,
 surrounds them with page 1, page `totalPages` and "..." markers, and finally
 keeps only the first occurrence of every entry. Because that last filter also
 compares the "..." strings, a second ellipsis is dropped when both gaps exist.
 */
module Pagination {
  import opened Optional
  import opened Numbers

  /** Pages shown on each side of the current page. */
  const Delta := 2

  /** An entry of the window: a page number or the "..." marker. */
  datatype Item = Page(n: int) | Dots

  /** First and last page of the middle range. */
  function Lo(current: int): int { Max(2, current - Delta) }
  function Hi(current: int, total: int): int { Min(total - 1, current + Delta) }

  /** There are hidden pages between page 1 and the middle range. */
  predicate LeftGap(current: int) { current - Delta > 2 }

  /** There are hidden pages between the middle range and the last page. */
  predicate RightGap(current: int, total: int) { current + Delta < total - 1 }

  /** The pages lo, lo + 1, ..., hi - 1, in this order. */
  function Span(lo: int, hi: int): (r: seq<Item>)
    decreases hi - lo
    ensures |r| == if lo <= hi then hi - lo else 0
    ensures forall k :: 0 <= k < |r| ==> r[k] == Page(lo + k)
  {
    if hi <= lo then [] else Span(lo, hi - 1) + [Page(hi - 1)]
  }

  /** `rangeWithDots` before the final filter. */
  function RawWindow(current: int, total: int): (r: seq<Item>)
    ensures |r| >= 2 && r[0] == Page(1) && r[|r| - 1] == Page(total)
    ensures |r| <= 2 * Delta + 5
  {
    (if LeftGap(current) then [Page(1), Dots] else [Page(1)])
    + Span(Lo(current), Hi(current, total) + 1)
    + (if RightGap(current, total) then [Dots, Page(total)] else [Page(total)])
  }

  /** No entry occurs twice. */
  predicate Distinct<T(==)>(s: seq<T>)
  {
    forall i, j :: 0 <= i < j < |s| ==> s[i] != s[j]
  }

  /** `Array.prototype.indexOf`: the first index of `x` in `s`, or -1. */
  function IndexOf(s: seq<Item>, x: Item): (r: int)
    ensures -1 <= r < |s|
    ensures r == -1 <==> x !in s
    ensures 0 <= r ==> s[r] == x && x !in s[..r]
  {
    if s == [] then -1
    else if s[0] == x then 0
    else
      var k := IndexOf(s[1..], x);
      assert k >= 0 ==> s[..k + 1] == [s[0]] + s[1..][..k];
      if k == -1 then -1 else k + 1
  }

  /** The entries of `s` whose first occurrence is where they stand:
      `s.filter((item, index, array) => array.indexOf(item) === index)`. */
  function FirstOccurrences(s: seq<Item>): (r: seq<Item>)
    ensures Distinct(r)
    ensures forall x :: x in r <==> x in s
  {
    if s == [] then []
    else
      var init := s[..|s| - 1];
      var rest := FirstOccurrences(init);
      assert forall x :: x in s <==> x in init || x == s[|s| - 1];
      rest + if s[|s| - 1] in init then [] else [s[|s| - 1]]
  }

  /**
   The visible pages, in closed form: page 1, the leading "..." when there is a
   gap on the left, the middle range, the trailing "..." only when there is a
   gap on the right and none on the left, and the last page unless it is page 1.
   */
  function Window(current: int, total: int): (r: seq<Item>)
    ensures |r| >= 1 && r[0] == Page(1)
    ensures total >= 2 ==> r[|r| - 1] == Page(total)
    ensures |r| <= 2 * Delta + 4
  {
    [Page(1)]
    + (if LeftGap(current) then [Dots] else [])
    + Span(Lo(current), Hi(current, total) + 1)
    + (if RightGap(current, total) && !LeftGap(current) then [Dots] else [])
    + (if total == 1 then [] else [Page(total)])
  }

  /** The window the pagination control renders (Pagination.jsx, `getVisiblePages`). */
  method GetVisiblePages(currentPage: int, totalPages: int) returns (pages: seq<Item>)
    ensures pages == Window(currentPage, totalPages)
  {
    var range: seq<Item> := [];
    var lo, hi := Max(2, currentPage - Delta), Min(totalPages - 1, currentPage + Delta);
    var i := lo;
    while i <= hi
      invariant lo <= i <= Max(lo, hi + 1)
      invariant range == Span(lo, i)
    {
      range := range + [Page(i)];
      i := i + 1;
    }

    var rangeWithDots: seq<Item>;
    if currentPage - Delta > 2 {
      rangeWithDots := [Page(1), Dots];
    } else {
      rangeWithDots := [Page(1)];
    }
    rangeWithDots := rangeWithDots + range;
    if currentPage + Delta < totalPages - 1 {
      rangeWithDots := rangeWithDots + [Dots, Page(totalPages)];
    } else {
      rangeWithDots := rangeWithDots + [Page(totalPages)];
    }
    assert rangeWithDots == RawWindow(currentPage, totalPages);

    pages := KeepFirstOccurrences(rangeWithDots);
    RawWindowFirstOccurrences(currentPage, totalPages);
  }

  /** `array.filter((item, index, array) => array.indexOf(item) === index)`. */
  method KeepFirstOccurrences(s: seq<Item>) returns (r: seq<Item>)
    ensures r == FirstOccurrences(s)
  {
    r := [];
    var k := 0;
    while k < |s|
      invariant 0 <= k <= |s|
      invariant r == FirstOccurrences(s[..k])
    {
      var item := s[k];
      assert s[..k + 1] == s[..k] + [item];
      FirstOccurrencesSnoc(s[..k], item);
      IndexOfIsFirst(s, k);
      if IndexOf(s, item) == k {
        r := r + [item];
      }
      k := k + 1;
    }
    assert s[..k] == s;
  }

  /** `indexOf` finds an entry at its own position exactly when it has no earlier occurrence. */
  lemma IndexOfIsFirst(s: seq<Item>, k: nat)
    requires k < |s|
    ensures IndexOf(s, s[k]) == k <==> s[k] !in s[..k]
  {
    var r := IndexOf(s, s[k]);
    if r < k {
      assert s[..k][r] == s[k];
    }
  }

  // ---------------------------------------------------------------------------
  // The filter on sequences that have no duplicates, and on one more entry

  lemma {:induction false} FirstOccurrencesOfDistinct(s: seq<Item>)
    requires Distinct(s)
    ensures FirstOccurrences(s) == s
  {
    if s != [] {
      var init := s[..|s| - 1];
      assert Distinct(init);
      FirstOccurrencesOfDistinct(init);
      assert s[|s| - 1] !in init;
      assert init + [s[|s| - 1]] == s;
    }
  }

  lemma FirstOccurrencesSnoc(s: seq<Item>, x: Item)
    ensures FirstOccurrences(s + [x]) == FirstOccurrences(s) + if x in s then [] else [x]
  {
    assert (s + [x])[..|s + [x]| - 1] == s;
  }

  /** The part of the raw window before the right-hand pushes has no duplicates;
      it holds "..." exactly when there is a left gap, and the last page exactly when that is page 1. */
  lemma RawPrefix(current: int, total: int)
    ensures var p := (if LeftGap(current) then [Page(1), Dots] else [Page(1)])
                     + Span(Lo(current), Hi(current, total) + 1);
            Distinct(p) && (Dots in p <==> LeftGap(current)) && (Page(total) in p <==> total == 1)
  {
    var head := if LeftGap(current) then [Page(1), Dots] else [Page(1)];
    var mid := Span(Lo(current), Hi(current, total) + 1);
    var p := head + mid;
    assert forall x :: x in mid ==> x.Page? && Lo(current) <= x.n <= Hi(current, total);
    forall i, j | 0 <= i < j < |p| ensures p[i] != p[j] {
      if j >= |head| && i >= |head| {
        assert p[i] == mid[i - |head|] && p[j] == mid[j - |head|];
      } else if j >= |head| {
        assert p[j] == mid[j - |head|];
      }
    }
    assert forall x :: x in p <==> x in head || x in mid;
  }

  /** The filter turns the raw window into the closed form `Window`. */
  lemma RawWindowFirstOccurrences(current: int, total: int)
    ensures FirstOccurrences(RawWindow(current, total)) == Window(current, total)
  {
    var head := if LeftGap(current) then [Page(1), Dots] else [Page(1)];
    var mid := Span(Lo(current), Hi(current, total) + 1);
    var p := head + mid;
    var last: seq<Item> := if total == 1 then [] else [Page(total)];
    var dots: seq<Item> := if RightGap(current, total) && !LeftGap(current) then [Dots] else [];
    assert FirstOccurrences(RawWindow(current, total)) == p + dots + last by {
      RawPrefix(current, total);
      FilterTail(p, RightGap(current, total), Page(total), RawWindow(current, total));
    }
    assert p == [Page(1)] + (if LeftGap(current) then [Dots] else []) + mid;
  }

  /** The filter applied to a sequence without duplicates followed by "..." and
      a page, or by a page alone. */
  lemma FilterTail(p: seq<Item>, gap: bool, x: Item, raw: seq<Item>)
    requires Distinct(p) && raw == p + (if gap then [Dots, x] else [x])
    requires x.Page?
    ensures FirstOccurrences(raw)
            == p + (if gap && Dots !in p then [Dots] else []) + (if x in p then [] else [x])
  {
    FilterAppended(p, if gap then Dots else x);
    if gap {
      assert raw == (p + [Dots]) + [x];
      FirstOccurrencesSnoc(p + [Dots], x);
    } else {
      assert raw == p + [x];
    }
  }

  /** Filtering a sequence without duplicates, followed by one more entry. */
  lemma FilterAppended(p: seq<Item>, x: Item)
    ensures Distinct(p) ==> FirstOccurrences(p + [x]) == p + (if x in p then [] else [x])
  {
    if Distinct(p) {
      FirstOccurrencesOfDistinct(p);
      FirstOccurrencesSnoc(p, x);
    }
  }

  // ---------------------------------------------------------------------------
  // What the window promises

  /** A position the control can be rendered at: a current page within the range. */
  predicate InRange(current: int, total: int) { 1 <= current <= total }

  /** The page numbers increase from left to right, "..." entries aside. */
  predicate PagesIncreasing(s: seq<Item>)
  {
    forall i, j :: 0 <= i < j < |s| && s[i].Page? && s[j].Page? ==> s[i].n < s[j].n
  }

  /** The window starts with page 1 and, from a current page within range, ends
      with the last page; for a single page it is just `[1]`. */
  lemma WindowEnds(current: int, total: int)
    ensures var w := Window(current, total); |w| >= 1 && w[0] == Page(1)
    ensures InRange(current, total) ==> Window(current, total)[|Window(current, total)| - 1] == Page(total)
    ensures total >= 2 ==> Window(current, total)[|Window(current, total)| - 1] == Page(total)
    ensures InRange(current, total) && total == 1 ==> Window(current, total) == [Page(1)]
  {
    var w := Window(current, total);
    if InRange(current, total) && total == 1 {
      assert Lo(current) > Hi(current, total);
      assert !LeftGap(current) && !RightGap(current, total);
    }
  }

  /** No entry appears twice, so in particular at most one "..." appears. */
  lemma WindowDistinct(current: int, total: int)
    ensures Distinct(Window(current, total))
    ensures forall i, j :: 0 <= i < j < |Window(current, total)| ==>
      !(Window(current, total)[i] == Dots && Window(current, total)[j] == Dots)
  {
    RawWindowFirstOccurrences(current, total);
  }

  /** Membership: the pages shown are page 1, the last page and exactly the
      integers of the middle range; "..." is shown exactly when some gap exists. */
  lemma WindowMembers(current: int, total: int)
    ensures forall n :: Page(n) in Window(current, total) <==>
      n == 1 || n == total || Lo(current) <= n <= Hi(current, total)
    ensures Dots in Window(current, total) <==> LeftGap(current) || RightGap(current, total)
  {
    RawWindowFirstOccurrences(current, total);
    var mid := Span(Lo(current), Hi(current, total) + 1);
    var raw := RawWindow(current, total);
    assert forall x :: x in mid <==> x.Page? && Lo(current) <= x.n <= Hi(current, total) by {
      forall x: Item | x.Page? && Lo(current) <= x.n <= Hi(current, total) ensures x in mid {
        assert mid[x.n - Lo(current)] == x;
      }
    }
    var head := if LeftGap(current) then [Page(1), Dots] else [Page(1)];
    var tail := if RightGap(current, total) then [Dots, Page(total)] else [Page(total)];
    assert raw == head + mid + tail;
    assert forall x :: x in raw <==> x in head || x in mid || x in tail;
  }

  /** Appending a block whose pages all lie above the pages of the first block
      keeps the page numbers increasing. */
  lemma AppendIncreasing(a: seq<Item>, b: seq<Item>, k: int)
    requires PagesIncreasing(a) && PagesIncreasing(b)
    requires forall x :: x in a && x.Page? ==> x.n < k
    requires forall x :: x in b && x.Page? ==> k <= x.n
    ensures PagesIncreasing(a + b)
  {
    var s := a + b;
    forall i, j | 0 <= i < j < |s| && s[i].Page? && s[j].Page? ensures s[i].n < s[j].n {
      if i < |a| && j >= |a| {
        assert s[i] in a && s[j] == b[j - |a|];
      } else if i >= |a| {
        assert s[i] == b[i - |a|] && s[j] == b[j - |a|];
      }
    }
  }

  /** With at least one page, the page numbers increase strictly and all lie in
      [1, total]. */
  lemma WindowIncreasing(current: int, total: int)
    requires total >= 1
    ensures PagesIncreasing(Window(current, total))
    ensures forall x :: x in Window(current, total) && x.Page? ==> 1 <= x.n <= total
  {
    WindowPagesIncrease(current, total);
    WindowMembers(current, total);
  }

  lemma WindowPagesIncrease(current: int, total: int)
    requires total >= 1
    ensures PagesIncreasing(Window(current, total))
  {
    var lo, hi := Lo(current), Hi(current, total);
    var top := if total == 1 then 2 else total;
    var first := [Page(1)] + (if LeftGap(current) then [Dots] else []);
    var mid := Span(lo, hi + 1);
    var dots: seq<Item> := if RightGap(current, total) && !LeftGap(current) then [Dots] else [];
    var last: seq<Item> := if total == 1 then [] else [Page(total)];
    SpanIncreasing(lo, hi + 1);
    AppendIncreasing(first, mid, lo);
    AppendIncreasing(first + mid, dots, top);
    assert forall x :: x in first + mid + dots && x.Page? ==> x.n < top by {
      assert forall x :: x in first + mid + dots <==> x in first || x in mid || x in dots;
    }
    AppendIncreasing(first + mid + dots, last, top);
  }

  /** A run of consecutive pages increases and stays within its bounds. */
  lemma SpanIncreasing(lo: int, hi: int)
    ensures PagesIncreasing(Span(lo, hi))
    ensures forall x :: x in Span(lo, hi) ==> x.Page? && lo <= x.n < hi
  {
  }

  /** The "..." right after page 1 is there exactly when there is a gap on the
      left; the "..." before the last page only when there is a gap on the right
      and none on the left: with both gaps, the filter drops the second one. */
  lemma WindowEllipses(current: int, total: int)
    requires InRange(current, total)
    ensures var w := Window(current, total);
      (|w| > 1 && w[1] == Dots) <==> LeftGap(current)
    ensures var w := Window(current, total);
      (|w| > 1 && w[|w| - 2] == Dots) <==> RightGap(current, total) && !LeftGap(current)
  {
    var lo, hi := Lo(current), Hi(current, total);
    var mid := Span(lo, hi + 1);
    if total >= 3 {
      assert |mid| >= 1 && mid[0] == Page(lo) && mid[|mid| - 1] == Page(hi);
    } else {
      assert |mid| == 0 && !LeftGap(current) && !RightGap(current, total);
    }
  }

  /** The window for the examples a reader would check first. With both gaps
      only the leading "..." survives: (5, 10) gives [1, ..., 3, 4, 5, 6, 7, 10]. */
  lemma WindowExamples()
    ensures Window(1, 1) == [Page(1)]
    ensures Window(1, 10) == [Page(1), Page(2), Page(3), Dots, Page(10)]
    ensures Window(5, 10) == [Page(1), Dots, Page(3), Page(4), Page(5), Page(6), Page(7), Page(10)]
    ensures Window(10, 10) == [Page(1), Dots, Page(8), Page(9), Page(10)]
  {
  }

  // ---------------------------------------------------------------------------
  // The buttons

  /** The controls of the pagination bar: Previous, Next, and one per window entry. */
  datatype Control = Previous | Next | Entry(item: Item)

  /** Previous is disabled on the first page, Next on the last page. */
  predicate PreviousDisabled(current: int) { current == 1 }
  predicate NextDisabled(current: int, total: int) { current == total }

  /** The page a click on `control` asks for, or None when the click does nothing:
      a disabled button or a "..." entry, which is not a button at all. */
  function Requested(current: int, total: int, control: Control): (r: Option<int>)
    ensures r.None? <==>
      (control == Previous && current == 1) || (control == Next && current == total) || control == Entry(Dots)
    ensures r.Some? && control == Previous ==> r.value == current - 1
    ensures r.Some? && control == Next ==> r.value == current + 1
    ensures r.Some? && control.Entry? ==> control.item == Page(r.value)
  {
    match control
    case Previous => if PreviousDisabled(current) then None else Some(current - 1)
    case Next => if NextDisabled(current, total) then None else Some(current + 1)
    case Entry(Page(n)) => Some(n)
    case Entry(Dots) => None
  }

  /** From a current page within range, every page asked for by a control on
      screen lies in [1, total]. From any current page of at least 1, with at
      least one page, no control asks for a page below 1, even when the current
      page lies past the last one. */
  lemma ControlsStayInRange(current: int, total: int, control: Control)
    requires control.Entry? ==> control.item in Window(current, total)
    ensures InRange(current, total) && Requested(current, total, control).Some? ==>
      1 <= Requested(current, total, control).value <= total
    ensures current >= 1 && total >= 1 && Requested(current, total, control).Some? ==>
      Requested(current, total, control).value >= 1
  {
    if total >= 1 && control.Entry? {
      WindowIncreasing(current, total);
    }
  }
}
