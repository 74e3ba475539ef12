/** The pagination widget: which page numbers and ellipses it shows, the "showing a to b of n"
    range, when it renders at all, and what each of its controls asks the page to load. */
module Pagination {
  import opened Wrappers

  /** One entry of the page strip: a clickable page number or a non-interactive `'...'`. */
  datatype PageItem = PageNumber(n: int) | Ellipsis

  /** `maxPagesToShow`: up to this many pages the strip lists them all. */
  const MaxPagesToShow := 5

  /** The page numbers `lo`, `lo + 1`, ..., `hi`. */
  function Run(lo: int, hi: int): seq<PageItem>
    decreases hi - lo
  {
    if lo > hi then [] else [PageNumber(lo)] + Run(lo + 1, hi)
  }

  lemma {:induction false} RunAt(lo: int, hi: int)
    ensures |Run(lo, hi)| == if lo > hi then 0 else hi - lo + 1
    ensures forall i :: 0 <= i < |Run(lo, hi)| ==> Run(lo, hi)[i] == PageNumber(lo + i)
    decreases hi - lo
  {
    if lo <= hi { RunAt(lo + 1, hi); }
  }

  lemma RunSnoc(lo: int, hi: int)
    requires lo <= hi + 1
    ensures Run(lo, hi + 1) == Run(lo, hi) + [PageNumber(hi + 1)]
  {
    RunAt(lo, hi);
    RunAt(lo, hi + 1);
  }

  /** The strip for the current `page` out of `pages`: every page when there are few of them,
      otherwise the first and last page, the pages next to the current one, and ellipses for the gaps. */
  function PageNumbers(page: int, pages: int): seq<PageItem> {
    if pages <= MaxPagesToShow then Run(1, pages)
    else if page <= 3 then Run(1, 4) + [Ellipsis, PageNumber(pages)]
    else if page >= pages - 2 then [PageNumber(1), Ellipsis] + Run(pages - 3, pages)
    else [PageNumber(1), Ellipsis, PageNumber(page - 1), PageNumber(page), PageNumber(page + 1), Ellipsis, PageNumber(pages)]
  }

  /** `getPageNumbers`: builds the strip by pushing entries one at a time. */
  method GetPageNumbers(page: int, pages: int) returns (pageNumbers: seq<PageItem>)
    ensures pageNumbers == PageNumbers(page, pages)
  {
    pageNumbers := [];
    if pages <= MaxPagesToShow {
      var i := 1;
      while i <= pages
        invariant 1 <= i && (pages < 1 ==> i == 1) && (pages >= 1 ==> i <= pages + 1)
        invariant pageNumbers == Run(1, i - 1)
      {
        RunSnoc(1, i - 1);
        pageNumbers := pageNumbers + [PageNumber(i)];
        i := i + 1;
      }
      assert i - 1 == pages || (pages < 1 && Run(1, pages) == [] && Run(1, i - 1) == []);
    } else {
      if page <= 3 {
        var i := 1;
        while i <= 4
          invariant 1 <= i <= 5
          invariant pageNumbers == Run(1, i - 1)
        {
          RunSnoc(1, i - 1);
          pageNumbers := pageNumbers + [PageNumber(i)];
          i := i + 1;
        }
        pageNumbers := pageNumbers + [Ellipsis];
        pageNumbers := pageNumbers + [PageNumber(pages)];
        assert pageNumbers == Run(1, 4) + [Ellipsis, PageNumber(pages)];
      } else if page >= pages - 2 {
        pageNumbers := pageNumbers + [PageNumber(1)];
        pageNumbers := pageNumbers + [Ellipsis];
        var i := pages - 3;
        while i <= pages
          invariant pages - 3 <= i <= pages + 1
          invariant pageNumbers == [PageNumber(1), Ellipsis] + Run(pages - 3, i - 1)
        {
          RunSnoc(pages - 3, i - 1);
          pageNumbers := pageNumbers + [PageNumber(i)];
          i := i + 1;
        }
        assert i - 1 == pages;
      } else {
        pageNumbers := pageNumbers + [PageNumber(1)];
        pageNumbers := pageNumbers + [Ellipsis];
        pageNumbers := pageNumbers + [PageNumber(page - 1)];
        pageNumbers := pageNumbers + [PageNumber(page)];
        pageNumbers := pageNumbers + [PageNumber(page + 1)];
        pageNumbers := pageNumbers + [Ellipsis];
        pageNumbers := pageNumbers + [PageNumber(pages)];
        assert pageNumbers == PageNumbers(page, pages);
      }
    }
  }

  /** What the strip promises: at most seven entries; page numbers strictly increasing within
      `[1, pages]`, starting at 1 and ending at `pages`; the current page shown when it exists;
      ellipses exactly when there are more than five pages, each standing between two shown
      pages and hiding at least one; shown neighbours otherwise consecutive. */
  predicate StripFacts(r: seq<PageItem>, page: int, pages: int) {
    && |r| <= 7
    && (pages < 1 ==> r == [])
    && (pages >= 1 ==> |r| >= 1 && r[0] == PageNumber(1) && r[|r| - 1] == PageNumber(pages))
    && (1 <= page <= pages ==> PageNumber(page) in r)
    && (Ellipsis in r <==> pages > MaxPagesToShow)
    && (forall i :: 0 <= i < |r| && r[i].PageNumber? ==> 1 <= r[i].n <= pages)
    && (forall i, j :: 0 <= i < j < |r| && r[i].PageNumber? && r[j].PageNumber? ==> r[i].n < r[j].n)
    && (forall i :: 0 <= i < |r| - 1 && r[i].PageNumber? && r[i + 1].PageNumber? ==> r[i + 1].n == r[i].n + 1)
    && (forall i :: 0 <= i < |r| && r[i] == Ellipsis ==>
          0 < i < |r| - 1 && r[i - 1].PageNumber? && r[i + 1].PageNumber? && r[i + 1].n > r[i - 1].n + 1)
  }

  /** A strip read left to right: it starts with a page number, and after each page number comes
      either the next page or an ellipsis followed by a page at least two further on. */
  predicate WellSpaced(r: seq<PageItem>)
    decreases |r|
  {
    && |r| >= 1 && r[0].PageNumber?
    && (|| |r| == 1
        || (r[1].PageNumber? && r[1].n == r[0].n + 1 && WellSpaced(r[1..]))
        || (|r| >= 3 && r[1] == Ellipsis && r[2].PageNumber? && r[2].n > r[0].n + 1 && WellSpaced(r[2..])))
  }

  lemma {:induction false} RunWellSpaced(lo: int, hi: int)
    requires lo <= hi
    ensures WellSpaced(Run(lo, hi))
    decreases hi - lo
  {
    if lo < hi {
      RunWellSpaced(lo + 1, hi);
      assert Run(lo + 1, hi)[0] == PageNumber(lo + 1);
    }
  }

  /** Two well-spaced strips with a gap between them, joined by an ellipsis. */
  lemma {:induction false} JoinWellSpaced(a: seq<PageItem>, b: seq<PageItem>)
    requires WellSpaced(a) && WellSpaced(b) && a[|a| - 1].PageNumber? && b[0].n > a[|a| - 1].n + 1
    ensures WellSpaced(a + [Ellipsis] + b)
    decreases |a|
  {
    var r := a + [Ellipsis] + b;
    if |a| == 1 {
      assert r[2..] == b;
    } else if a[1].PageNumber? && a[1].n == a[0].n + 1 && WellSpaced(a[1..]) {
      JoinWellSpaced(a[1..], b);
      assert r[1..] == a[1..] + [Ellipsis] + b;
    } else {
      JoinWellSpaced(a[2..], b);
      assert r[2..] == a[2..] + [Ellipsis] + b;
    }
  }

  /** The indexed facts a well-spaced strip satisfies. */
  lemma WellSpacedFacts(r: seq<PageItem>)
    requires WellSpaced(r)
    ensures r[|r| - 1].PageNumber?
    ensures forall i :: 0 <= i < |r| && r[i].PageNumber? ==> r[0].n <= r[i].n <= r[|r| - 1].n
    ensures forall i, j :: 0 <= i < j < |r| && r[i].PageNumber? && r[j].PageNumber? ==> r[i].n < r[j].n
    ensures forall i :: 0 <= i < |r| - 1 && r[i].PageNumber? && r[i + 1].PageNumber? ==> r[i + 1].n == r[i].n + 1
    ensures forall i :: 0 <= i < |r| && r[i] == Ellipsis ==>
              0 < i < |r| - 1 && r[i - 1].PageNumber? && r[i + 1].PageNumber? && r[i + 1].n > r[i - 1].n + 1
  {
    WellSpacedIncreasing(r);
    forall i, j | 0 <= i < j < |r| && r[i].PageNumber? && r[j].PageNumber? ensures r[i].n < r[j].n {
      WellSpacedSuffix(r, i);
      WellSpacedIncreasing(r[i..]);
      assert r[i..][j - i] == r[j];
    }
    WellSpacedNeighbours(r);
    WellSpacedEllipses(r);
  }

  /** The tail of a well-spaced strip from any page number on is well spaced. */
  lemma {:induction false} WellSpacedSuffix(r: seq<PageItem>, i: int)
    requires WellSpaced(r) && 0 <= i < |r| && r[i].PageNumber?
    ensures WellSpaced(r[i..])
    decreases |r|
  {
    if i > 0 {
      var k := if r[1].PageNumber? then 1 else 2;
      if i > k {
        WellSpacedSuffix(r[k..], i - k);
        assert r[k..][i - k..] == r[i..];
      } else if i < k {
        assert false;
      }
    }
  }

  /** Every page number after the first of a well-spaced strip is larger, the last is a page number,
      and no page number exceeds it. */
  lemma {:induction false} WellSpacedIncreasing(r: seq<PageItem>)
    requires WellSpaced(r)
    ensures r[|r| - 1].PageNumber?
    ensures forall i :: 0 < i < |r| && r[i].PageNumber? ==> r[0].n < r[i].n
    ensures forall i :: 0 <= i < |r| && r[i].PageNumber? ==> r[i].n <= r[|r| - 1].n
    decreases |r|
  {
    if |r| > 1 {
      var k := if r[1].PageNumber? then 1 else 2;
      var t := r[k..];
      WellSpacedIncreasing(t);
      forall i | k <= i < |r| ensures r[i] == t[i - k] { }
    }
  }

  /** Adjacent page numbers of a well-spaced strip are consecutive. */
  lemma {:induction false} WellSpacedNeighbours(r: seq<PageItem>)
    requires WellSpaced(r)
    ensures forall i :: 0 <= i < |r| - 1 && r[i].PageNumber? && r[i + 1].PageNumber? ==> r[i + 1].n == r[i].n + 1
    decreases |r|
  {
    if |r| > 1 {
      var k := if r[1].PageNumber? then 1 else 2;
      var t := r[k..];
      WellSpacedNeighbours(t);
      forall i | 0 <= i < |r| - 1 && r[i].PageNumber? && r[i + 1].PageNumber? ensures r[i + 1].n == r[i].n + 1 {
        if i >= k {
          assert r[i] == t[i - k] && r[i + 1] == t[i - k + 1];
        }
      }
    }
  }

  /** Every ellipsis of a well-spaced strip stands between two page numbers and hides at least one page. */
  lemma {:induction false} WellSpacedEllipses(r: seq<PageItem>)
    requires WellSpaced(r)
    ensures forall i :: 0 <= i < |r| && r[i] == Ellipsis ==>
              0 < i < |r| - 1 && r[i - 1].PageNumber? && r[i + 1].PageNumber? && r[i + 1].n > r[i - 1].n + 1
    decreases |r|
  {
    if |r| > 1 {
      var k := if r[1].PageNumber? then 1 else 2;
      var t := r[k..];
      WellSpacedEllipses(t);
      forall i | 0 <= i < |r| && r[i] == Ellipsis
        ensures 0 < i < |r| - 1 && r[i - 1].PageNumber? && r[i + 1].PageNumber? && r[i + 1].n > r[i - 1].n + 1
      {
        if i > k {
          assert r[i] == t[i - k] && r[i - 1] == t[i - k - 1] && r[i + 1] == t[i - k + 1];
        }
      }
    }
  }

  /** A well-spaced strip from 1 to `pages` has every indexed property of `StripFacts`. */
  lemma StripOfWellSpaced(r: seq<PageItem>, page: int, pages: int)
    requires WellSpaced(r) && |r| <= 7
    requires r[0] == PageNumber(1) && r[|r| - 1] == PageNumber(pages)
    requires 1 <= page <= pages ==> PageNumber(page) in r
    requires Ellipsis in r <==> pages > MaxPagesToShow
    ensures StripFacts(r, page, pages)
  {
    WellSpacedFacts(r);
  }

  lemma PageNumbersFacts(page: int, pages: int)
    ensures StripFacts(PageNumbers(page, pages), page, pages)
  {
    var r := PageNumbers(page, pages);
    if pages < 1 {
    } else if pages <= MaxPagesToShow {
      ShortStrip(page, pages);
    } else if page <= 3 {
      LeadingStrip(page, pages);
    } else if page >= pages - 2 {
      TrailingStrip(page, pages);
    } else {
      MiddleStrip(page, pages);
    }
  }

  lemma ShortStrip(page: int, pages: int)
    requires 1 <= pages <= MaxPagesToShow
    ensures StripFacts(PageNumbers(page, pages), page, pages)
  {
    var r := PageNumbers(page, pages);
    RunAt(1, pages);
    RunWellSpaced(1, pages);
    if 1 <= page <= pages { assert r[page - 1] == PageNumber(page); }
    assert Ellipsis !in r by {
      forall i | 0 <= i < |r| ensures r[i] != Ellipsis { }
    }
    StripOfWellSpaced(r, page, pages);
  }

  lemma LeadingStrip(page: int, pages: int)
    requires pages > MaxPagesToShow && page <= 3
    ensures StripFacts(PageNumbers(page, pages), page, pages)
  {
    var r := PageNumbers(page, pages);
    RunAt(1, 4);
    RunWellSpaced(1, 4);
    assert Run(pages, pages) == [PageNumber(pages)];
    JoinWellSpaced(Run(1, 4), Run(pages, pages));
    assert r == Run(1, 4) + [Ellipsis] + Run(pages, pages);
    if 1 <= page { assert r[page - 1] == PageNumber(page); }
    assert r[4] == Ellipsis;
    StripOfWellSpaced(r, page, pages);
  }

  lemma TrailingStrip(page: int, pages: int)
    requires pages > MaxPagesToShow && 3 < page && page >= pages - 2
    ensures StripFacts(PageNumbers(page, pages), page, pages)
  {
    TrailingShape(pages);
    var r := [PageNumber(1), Ellipsis, PageNumber(pages - 3), PageNumber(pages - 2), PageNumber(pages - 1), PageNumber(pages)];
    assert PageNumbers(page, pages) == r;
    if page <= pages {
      assert r[page - pages + 5] == PageNumber(page);
    }
    assert r[1] == Ellipsis;
    StripOfWellSpaced(r, page, pages);
  }

  /** The strip near the last page, written out. */
  lemma TrailingShape(pages: int)
    requires pages > MaxPagesToShow
    ensures var r := [PageNumber(1), Ellipsis] + Run(pages - 3, pages);
      && r == [PageNumber(1), Ellipsis, PageNumber(pages - 3), PageNumber(pages - 2), PageNumber(pages - 1), PageNumber(pages)]
      && WellSpaced(r)
  {
    var tail := Run(pages - 3, pages);
    RunAt(pages - 3, pages);
    RunWellSpaced(pages - 3, pages);
    JoinWellSpaced([PageNumber(1)], tail);
    assert [PageNumber(1)] + [Ellipsis] + tail == [PageNumber(1), Ellipsis] + tail;
  }

  lemma MiddleStrip(page: int, pages: int)
    requires pages > MaxPagesToShow && 3 < page < pages - 2
    ensures StripFacts(PageNumbers(page, pages), page, pages)
  {
    var r := PageNumbers(page, pages);
    var left := [PageNumber(1), Ellipsis, PageNumber(page - 1), PageNumber(page), PageNumber(page + 1)];
    assert WellSpaced(left[2..]) by {
      assert left[2..][1..][1..] == [PageNumber(page + 1)];
      assert left[2..][1..] == [PageNumber(page), PageNumber(page + 1)];
    }
    assert WellSpaced(left);
    assert WellSpaced([PageNumber(pages)]);
    JoinWellSpaced(left, [PageNumber(pages)]);
    assert r == left + [Ellipsis] + [PageNumber(pages)];
    assert r[3] == PageNumber(page);
    assert r[1] == Ellipsis;
    StripOfWellSpaced(r, page, pages);
  }

  /** The `pagination` object a paginated list response carries. */
  datatype PaginationInfo = PaginationInfo(page: int, pages: int, hasPrev: bool, hasNext: bool, total: int, perPage: int)

  /** The metadata as the server computes it: `pages` is the ceiling of `total / perPage`,
      and the previous/next flags follow the current page. */
  predicate Consistent(p: PaginationInfo) {
    && p.perPage > 0 && p.total >= 0
    && p.pages == (p.total + p.perPage - 1) / p.perPage
    && p.hasPrev == (p.page > 1)
    && p.hasNext == (p.page < p.pages)
  }

  /** Position of the first item of the page, counted from 1. */
  function StartItem(p: PaginationInfo): int {
    (p.page - 1) * p.perPage + 1
  }

  /** Position of the last item of the page, capped at `total`. */
  function EndItem(p: PaginationInfo): (r: int)
    ensures r <= p.total && r <= p.page * p.perPage
    ensures r == p.total || r == p.page * p.perPage
  {
    if p.page * p.perPage < p.total then p.page * p.perPage else p.total
  }

  /** Everything the widget displays. */
  datatype View = View(
    startItem: int, endItem: int, total: int, strip: seq<PageItem>,
    firstDisabled: bool, prevDisabled: bool, nextDisabled: bool, lastDisabled: bool,
    perPage: int)

  /** The widget: nothing without metadata or without records, otherwise the item range, the strip
      and the four navigation buttons, the first two disabled without a previous page and the
      last two without a next one. */
  function Render(p: Option<PaginationInfo>): (v: Option<View>)
    ensures v.None? <==> p.None? || p.value.total == 0
    ensures v.Some? ==> v.value.endItem <= v.value.total == p.value.total
    ensures v.Some? ==> v.value.startItem == StartItem(p.value) && v.value.endItem == EndItem(p.value)
    ensures v.Some? ==> v.value.perPage == p.value.perPage
    ensures v.Some? ==> v.value.strip == PageNumbers(p.value.page, p.value.pages)
    ensures v.Some? ==> v.value.firstDisabled == v.value.prevDisabled == !p.value.hasPrev
    ensures v.Some? ==> v.value.nextDisabled == v.value.lastDisabled == !p.value.hasNext
  {
    match p
    case None => None
    case Some(info) =>
      if info.total == 0 then None
      else Some(View(StartItem(info), EndItem(info), info.total, PageNumbers(info.page, info.pages),
                     !info.hasPrev, !info.hasPrev, !info.hasNext, !info.hasNext, info.perPage))
  }

  lemma MulLeDiv(a: int, b: int, c: int)
    requires c > 0 && b >= 0 && a <= b / c
    ensures a * c <= b
  {
    assert b == (b / c) * c + b % c;
    if a > 0 {
      assert a * c <= (b / c) * c by {
        assert (b / c - a) * c >= 0;
      }
    }
  }

  /** On a page that exists, the displayed range is non-empty, lies within the records,
      and spans at most one page's worth of them. */
  lemma ItemRangeWithinTotal(p: PaginationInfo)
    requires Consistent(p) && p.total > 0 && 1 <= p.page <= p.pages
    ensures 1 <= StartItem(p) <= EndItem(p) <= p.total
    ensures EndItem(p) - StartItem(p) + 1 <= p.perPage
  {
    MulLeDiv(p.page, p.total + p.perPage - 1, p.perPage);
    assert (p.page - 1) * p.perPage == p.page * p.perPage - p.perPage;
    assert (p.page - 1) * p.perPage >= 0;
  }

  /** The widget's controls. `PageButton(n)` is the button of a page shown in the strip. */
  datatype Control = FirstButton | PreviousButton | PageButton(n: int) | NextButton | LastButton | PerPageSelect(size: int)

  /** The page sizes the selector offers. */
  const PerPageChoices: seq<int> := [5, 10, 20, 50, 100]

  predicate Disabled(p: PaginationInfo, c: Control) {
    match c
    case FirstButton => !p.hasPrev
    case PreviousButton => !p.hasPrev
    case NextButton => !p.hasNext
    case LastButton => !p.hasNext
    case _ => false
  }

  /** The arguments of `onPageChange`: a page and, from the selector only, a new page size. */
  datatype PageChange = PageChange(page: int, perPage: Option<int>)

  /** What activating a control asks for, `None` for a disabled button. */
  function Activate(p: PaginationInfo, c: Control): (r: Option<PageChange>)
    ensures r.None? <==> Disabled(p, c)
    ensures r.Some? ==> (r.value.perPage.Some? <==> c.PerPageSelect?)
    ensures c.PerPageSelect? ==> r == Some(PageChange(1, Some(c.size)))
  {
    if Disabled(p, c) then None
    else
      match c
      case FirstButton => Some(PageChange(1, None))
      case PreviousButton => Some(PageChange(p.page - 1, None))
      case PageButton(n) => Some(PageChange(n, None))
      case NextButton => Some(PageChange(p.page + 1, None))
      case LastButton => Some(PageChange(p.pages, None))
      case PerPageSelect(size) => Some(PageChange(1, Some(size)))
  }

  /** With metadata the server computed, no control of the widget asks for a page that does not exist. */
  lemma NavigationStaysInRange(p: PaginationInfo, c: Control)
    requires Consistent(p) && p.total > 0 && 1 <= p.page <= p.pages
    requires c.PageButton? ==> PageNumber(c.n) in PageNumbers(p.page, p.pages)
    ensures Activate(p, c).Some? ==> 1 <= Activate(p, c).value.page <= p.pages
  {
    PageNumbersFacts(p.page, p.pages);
    if c.PageButton? {
      var r := PageNumbers(p.page, p.pages);
      var i :| 0 <= i < |r| && r[i] == PageNumber(c.n);
    }
  }
}
