/** Offset-cursor paging as every script performs it: request a page of at most
    `size` results starting at `offset`, act on it, and continue while the server
    says more results are available. */
module Paging {

  /** What FindItems returns: `Items`, `MoreAvailable`, `NextPageOffset`. */
  datatype FindResult<T> = FindResult(items: seq<T>, moreAvailable: bool, nextPageOffset: nat)

  function Min(a: nat, b: nat): nat {
    if a < b then a else b
  }

  /** The server's answer to a view of `size` results at `offset` over the
      results `all` that currently match the query, in server order. */
  function FindPage<T>(all: seq<T>, size: nat, offset: nat): (r: FindResult<T>)
    ensures |r.items| <= size
    ensures r.moreAvailable <==> offset + size < |all|
    ensures r.nextPageOffset <= |all|
    ensures offset <= |all| ==> r.nextPageOffset == offset + |r.items| && r.items == all[offset..r.nextPageOffset]
    ensures offset > |all| ==> r.items == []
    ensures r.moreAvailable ==> |r.items| == size
    ensures !r.moreAvailable ==> r.nextPageOffset == |all|
  {
    var lo := Min(offset, |all|);
    var hi := Min(offset + size, |all|);
    FindResult(all[lo..hi], hi < |all|, hi)
  }

  /** The cursor update of the two loop variants: `offset += Items.length` or `offset = NextPageOffset`. */
  function Advance<T>(offset: nat, page: FindResult<T>, byLength: bool): nat {
    if byLength then offset + |page.items| else page.nextPageOffset
  }

  /** A view over results that do not change while a scan runs: the items before
      the cursor and the page received are the items before the next cursor, and
      while more results are available the cursor moves forward. */
  lemma FixedPageStep<T>(all: seq<T>, size: nat, offset: nat)
    requires size > 0 && offset <= |all|
    ensures var page := FindPage(all, size, offset);
            && all[..offset] + page.items == all[..page.nextPageOffset]
            && page.nextPageOffset == offset + |page.items|
            && (page.moreAvailable ==> offset < page.nextPageOffset < |all|)
            && (!page.moreAvailable ==> all[..page.nextPageOffset] == all)
  {
    var page := FindPage(all, size, offset);
    assert all[..offset] + all[offset..page.nextPageOffset] == all[..page.nextPageOffset];
  }

  /** The items of the pages received, in page order and each page in server order. */
  function Yielded<T>(pages: seq<FindResult<T>>): seq<T> {
    if pages == [] then [] else pages[0].items + Yielded(pages[1..])
  }

  lemma {:induction false} YieldedAppend<T>(pages: seq<FindResult<T>>, page: FindResult<T>)
    ensures Yielded(pages + [page]) == Yielded(pages) + page.items
    decreases |pages|
  {
    if pages == [] {
      assert [page][1..] == [];
    } else {
      assert (pages + [page])[1..] == pages[1..] + [page];
      YieldedAppend(pages[1..], page);
    }
  }

  /** The requests of a scan that is still going: the first at offset 0, each
      later one at the cursor the previous answer gave, every answer so far with
      `MoreAvailable`; `next` is where the following request starts. */
  ghost predicate OpenTrace<T>(offsets: seq<nat>, pages: seq<FindResult<T>>, byLength: bool, next: nat) {
    && |offsets| == |pages|
    && (forall i :: 0 <= i < |pages| ==> pages[i].moreAvailable)
    && (forall i {:trigger pages[i]} :: 0 <= i < |pages| - 1 ==> offsets[i + 1] == Advance(offsets[i], pages[i], byLength))
    && (if pages == [] then next == 0 else offsets[0] == 0 && next == Advance(offsets[|pages| - 1], pages[|pages| - 1], byLength))
  }

  /** The requests of a finished scan: an open trace that the last answer,
      the only one without `MoreAvailable`, closes. */
  ghost predicate Trace<T>(offsets: seq<nat>, pages: seq<FindResult<T>>, byLength: bool) {
    && |pages| > 0
    && |offsets| == |pages|
    && OpenTrace(offsets[..|pages| - 1], pages[..|pages| - 1], byLength, offsets[|pages| - 1])
    && !pages[|pages| - 1].moreAvailable
  }

  /** The requests of a scan that stopped after its last request, whatever that
      answer said: all earlier answers had `MoreAvailable`. */
  ghost predicate Requested<T>(offsets: seq<nat>, pages: seq<FindResult<T>>, byLength: bool) {
    && |pages| > 0
    && |offsets| == |pages|
    && OpenTrace(offsets[..|pages| - 1], pages[..|pages| - 1], byLength, offsets[|pages| - 1])
  }

  lemma OpenTraceExtend<T>(offsets: seq<nat>, pages: seq<FindResult<T>>, byLength: bool, next: nat, page: FindResult<T>)
    requires OpenTrace(offsets, pages, byLength, next)
    requires page.moreAvailable
    ensures OpenTrace(offsets + [next], pages + [page], byLength, Advance(next, page, byLength))
  {
  }

  lemma OpenTraceClose<T>(offsets: seq<nat>, pages: seq<FindResult<T>>, byLength: bool, next: nat, page: FindResult<T>)
    requires OpenTrace(offsets, pages, byLength, next)
    requires !page.moreAvailable
    ensures Trace(offsets + [next], pages + [page], byLength)
  {
    assert (offsets + [next])[..|pages|] == offsets;
    assert (pages + [page])[..|pages|] == pages;
  }

  /** How far a cursor is from the end of `total` results; a scan stops once it is 0. */
  function Slack(total: nat, offset: nat): nat {
    if total >= offset then total - offset else 0
  }

  /** One more request of a scan: the trace grows by the answer received, and while
      more results are available the cursor moves toward the end of the results a
      search has, provided they do not grow (`after <= before`). */
  lemma TraceStep<T>(offsets: seq<nat>, pages: seq<FindResult<T>>, byLength: bool, offset: nat, size: nat,
                     first: FindResult<T>, found: FindResult<T>, before: nat, after: nat)
    requires OpenTrace(offsets, pages, byLength, offset)
    requires pages == [] ==> found == first
    requires |pages| > 0 ==> pages[0] == first
    requires found.moreAvailable ==> offset + size < before && found.nextPageOffset == offset + |found.items| && |found.items| == size
    requires size > 0 && after <= before
    ensures found.moreAvailable ==> OpenTrace(offsets + [offset], pages + [found], byLength, Advance(offset, found, byLength))
    ensures !found.moreAvailable ==> Trace(offsets + [offset], pages + [found], byLength)
    ensures found.moreAvailable ==> Slack(after, Advance(offset, found, byLength)) < Slack(before, offset)
    ensures (pages + [found])[0] == first
  {
    if found.moreAvailable {
      OpenTraceExtend(offsets, pages, byLength, offset, found);
    } else {
      OpenTraceClose(offsets, pages, byLength, offset, found);
    }
  }

  /** The pages a scan receives when nothing changes the results while it runs. */
  function Pages<T>(all: seq<T>, size: nat, offset: nat): seq<FindResult<T>>
    requires size > 0
    decreases |all| - offset
  {
    var page := FindPage(all, size, offset);
    [page] + (if page.moreAvailable then Pages(all, size, page.nextPageOffset) else [])
  }

  /** Pagination completeness over unchanging results: the pages from `offset`
      hold exactly the results from `offset` on, each once, in order; every page
      but the last is full and the last is not empty unless there is nothing at all. */
  lemma {:induction false} PagesComplete<T>(all: seq<T>, size: nat, offset: nat)
    requires size > 0 && offset <= |all|
    ensures Yielded(Pages(all, size, offset)) == all[offset..]
    ensures forall i :: 0 <= i < |Pages(all, size, offset)| - 1 ==> |Pages(all, size, offset)[i].items| == size
    ensures offset < |all| ==> |Pages(all, size, offset)[|Pages(all, size, offset)| - 1].items| > 0
    decreases |all| - offset
  {
    var page := FindPage(all, size, offset);
    var ps := Pages(all, size, offset);
    if page.moreAvailable {
      PagesComplete(all, size, page.nextPageOffset);
      var rest := Pages(all, size, page.nextPageOffset);
      assert ps == [page] + rest;
      assert ps[1..] == rest;
      assert all[offset..] == all[offset..page.nextPageOffset] + all[page.nextPageOffset..];
      forall i | 0 <= i < |ps| - 1 ensures |ps[i].items| == size {
        if i > 0 { assert ps[i] == rest[i - 1]; }
      }
    } else {
      assert ps == [page];
      assert ps[1..] == [];
    }
  }

  /** A finished scan of results that do not change while it runs receives exactly
      the pages `Pages` describes, so by `PagesComplete` it sees every result once. */
  lemma TraceOverFixedResults<T>(all: seq<T>, size: nat, offsets: seq<nat>, pages: seq<FindResult<T>>, byLength: bool)
    requires size > 0
    requires Trace(offsets, pages, byLength)
    requires forall i {:trigger pages[i]} :: 0 <= i < |pages| ==> pages[i] == FindPage(all, size, offsets[i])
    ensures pages == Pages(all, size, 0)
  {
    forall i | 0 <= i < |pages| - 1
      ensures pages[i].moreAvailable && offsets[i + 1] == Advance(offsets[i], pages[i], byLength)
    {
      TraceLink(offsets, pages, byLength, i);
    }
    TraceStart(offsets, pages, byLength);
    ScanFrom(all, size, offsets, pages, byLength, 0);
  }

  /** Every answer of a finished scan but the last said `MoreAvailable`, and the cursor moved by it. */
  lemma TraceLink<T>(offsets: seq<nat>, pages: seq<FindResult<T>>, byLength: bool, i: nat)
    requires Trace(offsets, pages, byLength) && i < |pages| - 1
    ensures pages[i].moreAvailable && offsets[i + 1] == Advance(offsets[i], pages[i], byLength)
  {
    var n := |pages|;
    assert pages[..n - 1][i] == pages[i];
    assert offsets[..n - 1][i] == offsets[i];
    if i + 1 < n - 1 {
      assert offsets[..n - 1][i + 1] == offsets[i + 1];
    }
  }

  /** A finished scan starts at offset 0. */
  lemma TraceStart<T>(offsets: seq<nat>, pages: seq<FindResult<T>>, byLength: bool)
    requires Trace(offsets, pages, byLength)
    ensures offsets[0] == 0
  {
    var n := |pages|;
    if n > 1 {
      assert offsets[..n - 1][0] == offsets[0];
    }
  }

  lemma {:induction false} ScanFrom<T>(all: seq<T>, size: nat, offsets: seq<nat>, pages: seq<FindResult<T>>, byLength: bool, start: nat)
    requires size > 0 && start <= |all|
    requires |pages| > 0 && |offsets| == |pages| && offsets[0] == start
    requires forall i :: 0 <= i < |pages| - 1 ==> pages[i].moreAvailable && offsets[i + 1] == Advance(offsets[i], pages[i], byLength)
    requires !pages[|pages| - 1].moreAvailable
    requires forall i :: 0 <= i < |pages| ==> pages[i] == FindPage(all, size, offsets[i])
    ensures pages == Pages(all, size, start)
    decreases |pages|
  {
    var page := FindPage(all, size, start);
    assert pages[0] == page;
    if page.moreAvailable {
      assert |pages| > 1;
      var next := page.nextPageOffset;
      assert offsets[1] == next;
      forall i | 0 <= i < |pages| - 2
        ensures pages[1..][i].moreAvailable && offsets[1..][i + 1] == Advance(offsets[1..][i], pages[1..][i], byLength)
      {
        assert pages[1..][i] == pages[i + 1] && offsets[1..][i] == offsets[i + 1] && offsets[1..][i + 1] == offsets[i + 2];
      }
      forall i | 0 <= i < |pages| - 1 ensures pages[1..][i] == FindPage(all, size, offsets[1..][i]) {
        assert pages[1..][i] == pages[i + 1] && offsets[1..][i] == offsets[i + 1];
      }
      ScanFrom(all, size, offsets[1..], pages[1..], byLength, next);
      assert pages == [page] + pages[1..];
    } else {
      assert pages == [page];
    }
  }
}
