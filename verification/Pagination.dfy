/**
 The page numbers of an admin list: both ends, a window around the current page, and gaps.
 */
module Pagination {
  const INNER := 4
  const OUTER := 1

  // A page number, or a gap between distant pages (with number 0).
  datatype PageItem = PageItem(page: int, gap: bool)

  const GAP := PageItem(0, true)

  // The page nearest to the one that was asked for.
  function Clamp(current: int, total: int): (page: int)
    ensures total >= 1 ==> 1 <= page <= total
    ensures forall p :: 1 <= p <= total ==> Distance(page, current) <= Distance(p, current)
  {
    if current < 1 then 1 else if current > total then total else current
  }

  function Distance(p: int, q: int): int { if p < q then q - p else p - q }

  // Pages lo to hi.
  function Run(lo: int, hi: int): (r: seq<PageItem>)
    ensures |r| == if hi < lo then 0 else hi - lo + 1
    ensures forall i :: 0 <= i < |r| ==> r[i] == PageItem(lo + i, false)
  {
    if hi < lo then [] else seq(hi - lo + 1, i => PageItem(lo + i, false))
  }

  function Front(first: int): seq<PageItem> {
    if OUTER + 3 < first then Run(1, OUTER + 1) + [GAP] else Run(1, first - 1)
  }

  function Back(last: int, total: int): seq<PageItem> {
    if total - OUTER - 2 > last then [GAP] + Run(total - OUTER, total) else Run(last + 1, total)
  }

  /// ### What a reader of the list may rely on

  predicate Follows(items: seq<PageItem>, i: int)
    requires 0 <= i < |items| - 1
  {
    if items[i].gap
      then items[i] == PageItem(0, true) && i > 0 && !items[i - 1].gap && !items[i + 1].gap
        && items[i + 1].page - items[i - 1].page >= 3
    else items[i + 1].gap || items[i + 1].page == items[i].page + 1
  }

  // From 1 to total without holes, but for gaps that each hide at least two pages.
  predicate Spans(items: seq<PageItem>, total: int) {
    && items != [] && items[0] == PageItem(1, false) && items[|items| - 1] == PageItem(total, false)
    && forall i :: 0 <= i < |items| - 1 ==> Follows(items, i)
  }

  predicate Shows(items: seq<PageItem>, page: int) { PageItem(page, false) in items }

  // The window: nine pages where there are as many, as central as the ends allow.
  ghost predicate IsWindow(current: int, total: int, first: int, last: int) {
    && 1 <= first <= current <= last <= total
    && last - first == (if total <= 9 then total - 1 else 8)
    && (first > 1 && last < total ==> current - first == last - current)
    && (current - 4 >= 1 ==> first <= current - 4) && (current + 4 <= total ==> last >= current + 4)
  }

  // In the window, among the two pages at either end, or the only page a gap would hide.
  predicate Visible(page: int, total: int, first: int, last: int) {
    && 1 <= page <= total
    && (first <= page <= last || page <= 2 || page >= total - 1 || (page == 3 && first == 4)
      || (page == total - 2 && last == total - 3))
  }

  ghost predicate ShowsVisible(items: seq<PageItem>, total: int, first: int, last: int) {
    forall page :: Shows(items, page) <==> Visible(page, total, first, last)
  }

  ghost predicate Faithful(items: seq<PageItem>, current: int, total: int) {
    && Spans(items, total) && |items| <= 15 && Shows(items, Clamp(current, total))
    && exists first, last ::
      IsWindow(Clamp(current, total), total, first, last) && ShowsVisible(items, total, first, last)
  }

  // Joining at a step of one, or across a gap.
  lemma RunFollows(before: seq<PageItem>, lo: int, hi: int, after: seq<PageItem>, i: nat)
    requires lo <= hi && |before| <= i < |before| + (hi - lo)
    ensures Follows(before + Run(lo, hi) + after, i)
  {
    var items := before + Run(lo, hi) + after;
    assert items[i] == Run(lo, hi)[i - |before|] && items[i + 1] == Run(lo, hi)[i + 1 - |before|];
  }

  lemma Reassociate(a: seq<PageItem>, b: seq<PageItem>, c: seq<PageItem>)
    ensures a + b + c == a + (b + c)
  {
  }

  lemma FrontFollows(first: int, rest: seq<PageItem>, i: nat)
    requires first >= 1 && rest != [] && rest[0] == PageItem(first, false) && i < |Front(first)|
    ensures Follows(Front(first) + rest, i)
  {
  }

  lemma BackFollows(shown: seq<PageItem>, last: int, total: int, i: nat)
    requires last <= total && shown != [] && shown[|shown| - 1] == PageItem(last, false)
    requires |shown| - 1 <= i < |shown| + |Back(last, total)| - 1
    ensures Follows(shown + Back(last, total), i)
  {
  }

  lemma WindowFollows(current: int, total: int, first: int, last: int, i: nat)
    requires IsWindow(current, total, first, last)
    requires i < |Front(first) + Run(first, last) + Back(last, total)| - 1
    ensures Follows(Front(first) + Run(first, last) + Back(last, total), i)
  {
    var front, middle, back := Front(first), Run(first, last), Back(last, total);
    if i < |front| {
      Reassociate(front, middle, back);
      FrontFollows(first, middle + back, i);
    } else if i < |front| + |middle| - 1 {
      RunFollows(front, first, last, back, i);
    } else {
      BackFollows(front + middle, last, total, i);
    }
  }

  lemma WindowSpans(current: int, total: int, first: int, last: int)
    requires IsWindow(current, total, first, last)
    ensures var items := Front(first) + Run(first, last) + Back(last, total);
      Spans(items, total) && |items| <= 15
  {
    forall i | 0 <= i < |Front(first) + Run(first, last) + Back(last, total)| - 1
      ensures Follows(Front(first) + Run(first, last) + Back(last, total), i)
    {
      WindowFollows(current, total, first, last, i);
    }
  }

  lemma RunShows(lo: int, hi: int, page: int)
    ensures Shows(Run(lo, hi), page) <==> lo <= page <= hi
  {
    if lo <= page <= hi { assert Run(lo, hi)[page - lo] == PageItem(page, false); }
  }

  lemma FrontShows(first: int, page: int)
    requires first >= 1
    ensures Shows(Front(first), page) <==> 1 <= page <= if first > 4 then 2 else first - 1
  {
    RunShows(1, 2, page);
    RunShows(1, first - 1, page);
  }

  lemma BackShows(last: int, total: int, page: int)
    requires last <= total
    ensures Shows(Back(last, total), page) <==> (if last < total - 3 then total - 1 else last + 1) <= page <= total
  {
    RunShows(total - 1, total, page);
    RunShows(last + 1, total, page);
  }

  lemma WindowShows(current: int, total: int, first: int, last: int, page: int)
    requires IsWindow(current, total, first, last)
    ensures Shows(Front(first) + Run(first, last) + Back(last, total), page) <==> Visible(page, total, first, last)
  {
    FrontShows(first, page);
    RunShows(first, last, page);
    BackShows(last, total, page);
  }

  lemma WindowIsFaithful(current: int, total: int, first: int, last: int)
    requires total >= 1 && IsWindow(Clamp(current, total), total, first, last)
    ensures Faithful(Front(first) + Run(first, last) + Back(last, total), current, total)
  {
    var page := Clamp(current, total);
    var items := Front(first) + Run(first, last) + Back(last, total);
    WindowSpans(page, total, first, last);
    forall p ensures Shows(items, p) <==> Visible(p, total, first, last) {
      WindowShows(page, total, first, last, p);
    }
    assert ShowsVisible(items, total, first, last);
  }

  method AppendRun(items: seq<PageItem>, lo: int, hi: int) returns (r: seq<PageItem>)
    ensures r == items + Run(lo, hi)
  {
    r := items;
    var p := lo;
    while p <= hi
      invariant lo <= p && (p <= hi + 1 || p == lo)
      invariant r == items + Run(lo, p - 1)
    {
      assert Run(lo, p) == Run(lo, p - 1) + [PageItem(p, false)];
      r := r + [PageItem(p, false)];
      p := p + 1;
    }
    assert Run(lo, p - 1) == Run(lo, hi);
  }

  // The inner window around the current page, shifted and cut at the ends.
  method Window(page: int, total: int) returns (first: int, last: int)
    requires 1 <= page <= total
    ensures IsWindow(page, total, first, last)
  {
    first, last := page - INNER, page + INNER;
    if last > total {
      first := first - (last - total);
      last := total;
    }
    if first < 1 {
      last := last + (1 - first);
      first := 1;
      if last > total { last := total; }
    }
  }

  method FirstPages(first: int) returns (items: seq<PageItem>)
    ensures items == Front(first)
  {
    if OUTER + 3 < first {
      items := AppendRun([], 1, OUTER + 1);
      items := items + [GAP];
    } else {
      items := AppendRun([], 1, first - 1);
    }
  }

  method LastPages(shown: seq<PageItem>, last: int, total: int) returns (items: seq<PageItem>)
    ensures items == shown + Back(last, total)
  {
    if total - OUTER - 2 > last {
      items := AppendRun(shown + [GAP], total - OUTER, total);
    } else {
      items := AppendRun(shown, last + 1, total);
    }
  }

  method PaginationWindow(current: int, total: int) returns (items: seq<PageItem>)
    ensures if total < 1 then items == [] else Faithful(items, current, total)
  {
    if total < 1 { return []; }
    var page := current;
    if page < 1 { page := 1; }
    if page > total { page := total; }
    var first, last := Window(page, total);
    items := FirstPages(first);
    items := AppendRun(items, first, last);
    items := LastPages(items, last, total);
    WindowIsFaithful(current, total, first, last);
  }
}
