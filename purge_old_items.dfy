/** `purge-old-items`: move everything created before a cutoff date out of the
    Inbox, Sent Items and Calendar into Deleted Items. */
module PurgeOldItems {
  import opened Wrappers
  import opened Paging
  import opened Mailbox

  /** The item view of `purgeItems`. */
  const PageSize := 1000

  /** The folders purged, in order. */
  const PurgedFolders: seq<FolderId> := [WellKnown(Inbox), WellKnown(SentItems), WellKnown(Calendar)]

  /** The restriction of the scan: created before the cutoff. */
  function OldFilter(cutoff: int): Filter {
    [CreatedBefore(cutoff)]
  }

  /** The moves to Deleted Items of some items, in order. */
  function MovesOf(items: seq<Item>): (r: seq<Call>)
    ensures |r| == |items|
  {
    if items == [] then [] else MovesOf(items[..|items| - 1]) + [ItemMoved(items[|items| - 1].id, WellKnown(DeletedItems))]
  }

  /** Move `k` sends item `k` to Deleted Items. */
  lemma {:induction false} MovesOfIndex(items: seq<Item>, k: nat)
    requires k < |items|
    ensures MovesOf(items)[k] == ItemMoved(items[k].id, WellKnown(DeletedItems))
  {
    if k < |items| - 1 {
      MovesOfIndex(items[..|items| - 1], k);
    }
  }

  lemma {:induction false} MovesOfAppend(a: seq<Item>, b: seq<Item>)
    ensures MovesOf(a + b) == MovesOf(a) + MovesOf(b)
    decreases |b|
  {
    if b == [] {
      assert a + b == a;
    } else {
      var c := b[..|b| - 1];
      assert (a + b)[..|a + b| - 1] == a + c;
      MovesOfAppend(a, c);
    }
  }

  /** The call log after one more page holds that page's moves after the earlier ones. */
  lemma MovesStep(calls0: seq<Call>, calls1: seq<Call>, calls2: seq<Call>, before: seq<Item>, page: seq<Item>)
    requires calls1 == calls0 + MovesOf(before)
    requires calls2 == calls1 + MovesOf(page)
    ensures calls2 == calls0 + MovesOf(before + page)
  {
    MovesOfAppend(before, page);
    assert calls2 == calls0 + (MovesOf(before) + MovesOf(page));
  }

  /** The loop body of `purgeItems` for one page: each item is counted and moved
      to Deleted Items, in page order. The searched folder's results never grow
      and no folder but it and Deleted Items changes. */
  method MovePage(store: Store, folder: FolderId, filter: Filter, items: seq<Item>) returns (moved: nat)
    modifies store
    ensures moved == |items|
    ensures store.calls == old(store.calls) + MovesOf(items)
    ensures |store.Results(folder, filter)| <= |old(store.Results(folder, filter))|
    ensures KeepsOthers(old(store.folders), store.folders, folder)
    ensures store.folderList == old(store.folderList) && store.groups == old(store.groups)
    ensures store.unloadable == old(store.unloadable)
  {
    moved := 0;
    var j := 0;
    while j < |items|
      invariant 0 <= j <= |items| && moved == j
      invariant store.calls == old(store.calls) + MovesOf(items[..j])
      invariant |store.Results(folder, filter)| <= |old(store.Results(folder, filter))|
      invariant KeepsOthers(old(store.folders), store.folders, folder)
      invariant store.folderList == old(store.folderList) && store.groups == old(store.groups)
      invariant store.unloadable == old(store.unloadable)
    {
      moved := moved + 1;
      RelocatedShrinks(store.folders, folder, {items[j].id}, Some(WellKnown(DeletedItems)), filter);
      KeepsOthersStep(old(store.folders), store.folders, folder, {items[j].id}, Some(WellKnown(DeletedItems)));
      store.Move(folder, items[j].id, WellKnown(DeletedItems));
      assert items[..j + 1][..j] == items[..j];
      j := j + 1;
    }
    assert items[..|items|] == items;
  }

  /** One request of `purgeItems`: the view of a thousand at `offset` over the
      folder's current results, each item received moved. The ghost parameters
      are the scan so far, returned extended by this page. */
  method PurgePage(store: Store, folder: FolderId, filter: Filter, offset: nat,
                   ghost offsets: seq<nat>, ghost pages: seq<FindResult<Item>>, ghost contents0: seq<Item>)
    returns (found: FindResult<Item>, moved: nat, ghost offsets': seq<nat>, ghost pages': seq<FindResult<Item>>)
    modifies store
    requires OpenTrace(offsets, pages, false, offset)
    requires pages == [] ==> store.Contents(folder) == contents0
    requires |pages| > 0 ==> pages[0] == FindPage(Matching(contents0, filter), PageSize, 0)
    ensures found == FindPage(old(store.Results(folder, filter)), PageSize, offset)
    ensures AllMatch(found.items, filter)
    ensures offsets' == offsets + [offset] && pages' == pages + [found]
    ensures pages'[0] == FindPage(Matching(contents0, filter), PageSize, 0)
    ensures found.moreAvailable ==> OpenTrace(offsets', pages', false, found.nextPageOffset)
    ensures !found.moreAvailable ==> Trace(offsets', pages', false)
    ensures found.moreAvailable ==>
              Slack(|store.Results(folder, filter)|, found.nextPageOffset) < Slack(|old(store.Results(folder, filter))|, offset)
    ensures moved == |found.items|
    ensures store.calls == old(store.calls) + MovesOf(found.items)
    ensures KeepsOthers(old(store.folders), store.folders, folder)
    ensures store.folderList == old(store.folderList) && store.groups == old(store.groups)
    ensures store.unloadable == old(store.unloadable)
  {
    ghost var before := |store.Results(folder, filter)|;
    found := store.FindItems(folder, filter, PageSize, offset);
    moved := MovePage(store, folder, filter, found.items);
    TraceStep(offsets, pages, false, offset, PageSize, FindPage(Matching(contents0, filter), PageSize, 0), found, before, |store.Results(folder, filter)|);
    offsets', pages' := offsets + [offset], pages + [found];
  }

  /** One call of `purgeItems` as it happened: the folder, the requests and
      answers, and the number of items moved. */
  datatype PurgeRun = PurgeRun(folder: FolderId, offsets: seq<nat>, pages: seq<FindResult<Item>>, numDeleted: nat)

  /** A run scanned `folder`, whose contents were `contents` when it started,
      moved every item it received and counted each once. */
  ghost predicate RunDone(run: PurgeRun, folder: FolderId, contents: seq<Item>, filter: Filter) {
    RunFinished(run, folder, FindPage(Matching(contents, filter), PageSize, 0), filter)
  }

  /** A run over `folder` whose first answer was `first` is finished; the items
      it received all satisfy `filter` and were counted once. */
  ghost predicate RunFinished(run: PurgeRun, folder: FolderId, first: FindResult<Item>, filter: Filter) {
    && run.folder == folder
    && Trace(run.offsets, run.pages, false)
    && run.pages[0] == first
    && run.numDeleted == |Yielded(run.pages)|
    && AllMatch(Yielded(run.pages), filter)
  }

  /** `purgeItems`: views of a thousand from offset 0, continuing at
      `NextPageOffset` while `MoreAvailable`; every item received is moved to
      Deleted Items and counted once. The pages are those the store returned as
      the moves went on; nothing is claimed about results the moves made the
      offsets skip. */
  method PurgeItems(store: Store, folder: FolderId, filter: Filter)
    returns (numDeleted: nat, ghost offsets: seq<nat>, ghost pages: seq<FindResult<Item>>)
    modifies store
    ensures Trace(offsets, pages, false)
    ensures pages[0] == FindPage(Matching(old(store.Contents(folder)), filter), PageSize, 0)
    ensures numDeleted == |Yielded(pages)|
    ensures AllMatch(Yielded(pages), filter)
    ensures store.calls == old(store.calls) + MovesOf(Yielded(pages))
    ensures KeepsOthers(old(store.folders), store.folders, folder)
    ensures store.folderList == old(store.folderList) && store.groups == old(store.groups)
    ensures store.unloadable == old(store.unloadable)
  {
    ghost var contents0 := store.Contents(folder);
    ghost var folders0, calls0 := store.folders, store.calls;
    ghost var folderList0, groups0, unloadable0 := store.folderList, store.groups, store.unloadable;
    offsets, pages := [], [];
    numDeleted := 0;
    var offset := 0;
    while true
      invariant OpenTrace(offsets, pages, false, offset)
      invariant pages == [] ==> store.Contents(folder) == contents0
      invariant |pages| > 0 ==> pages[0] == FindPage(Matching(contents0, filter), PageSize, 0)
      invariant numDeleted == |Yielded(pages)|
      invariant AllMatch(Yielded(pages), filter)
      invariant store.calls == calls0 + MovesOf(Yielded(pages))
      invariant KeepsOthers(folders0, store.folders, folder)
      invariant store.folderList == folderList0 && store.groups == groups0
      invariant store.unloadable == unloadable0
      decreases Slack(|store.Results(folder, filter)|, offset)
    {
      var found, moved;
      ghost var yielded := Yielded(pages);
      ghost var folders, calls, pages0 := store.folders, store.calls, pages;
      found, moved, offsets, pages := PurgePage(store, folder, filter, offset, offsets, pages, contents0);
      KeepsOthersTrans(folders0, folders, store.folders, folder);
      YieldedAppend(pages0, found);
      AllMatchAppend(yielded, found.items, filter);
      MovesStep(calls0, calls, store.calls, yielded, found.items);
      numDeleted := numDeleted + moved;
      if !found.moreAvailable {
        break;
      }
      offset := found.nextPageOffset;
    }
  }

  lemma RunDoneIntro(run: PurgeRun, folder: FolderId, contents: seq<Item>, filter: Filter)
    requires run.folder == folder && Trace(run.offsets, run.pages, false)
    requires run.pages[0] == FindPage(Matching(contents, filter), PageSize, 0)
    requires run.numDeleted == |Yielded(run.pages)|
    requires AllMatch(Yielded(run.pages), filter)
    ensures RunDone(run, folder, contents, filter)
  {
  }

  /** One iteration of the loop of `processItems`: `purgeItems` on one folder, recorded as a run. */
  method PurgeFolder(store: Store, folder: FolderId, filter: Filter) returns (numDeleted: nat, ghost run: PurgeRun)
    modifies store
    ensures run.numDeleted == numDeleted && RunDone(run, folder, old(store.Contents(folder)), filter)
    ensures store.calls == old(store.calls) + MovesOf(Yielded(run.pages))
    ensures KeepsOthers(old(store.folders), store.folders, folder)
  {
    ghost var contents0 := store.Contents(folder);
    ghost var offsets, pages;
    numDeleted, offsets, pages := PurgeItems(store, folder, filter);
    run := PurgeRun(folder, offsets, pages, numDeleted);
    RunDoneIntro(run, folder, contents0, filter);
  }

  /** What a finished run did: the k-th move sent the k-th item received to
      Deleted Items, and that item was created before the cutoff. */
  lemma RunMovesOnlyOld(run: PurgeRun, folder: FolderId, contents: seq<Item>, cutoff: int)
    requires RunDone(run, folder, contents, OldFilter(cutoff))
    ensures |MovesOf(Yielded(run.pages))| == run.numDeleted
    ensures forall k :: 0 <= k < run.numDeleted ==>
              && Yielded(run.pages)[k].created < cutoff
              && MovesOf(Yielded(run.pages))[k] == ItemMoved(Yielded(run.pages)[k].id, WellKnown(DeletedItems))
  {
    assert RunFinished(run, folder, FindPage(Matching(contents, OldFilter(cutoff)), PageSize, 0), OldFilter(cutoff));
    MovedOld(Yielded(run.pages), cutoff);
  }

  /** Moving items that all satisfy the filter of `processItems` moves only old items, each to Deleted Items. */
  lemma MovedOld(moved: seq<Item>, cutoff: int)
    requires AllMatch(moved, OldFilter(cutoff))
    ensures forall k :: 0 <= k < |moved| ==>
              moved[k].created < cutoff && MovesOf(moved)[k] == ItemMoved(moved[k].id, WellKnown(DeletedItems))
  {
    forall k | 0 <= k < |moved| ensures moved[k].created < cutoff {
      assert moved[k] in moved;
      assert Holds(OldFilter(cutoff)[0], moved[k]);
    }
    forall k | 0 <= k < |moved| ensures MovesOf(moved)[k] == ItemMoved(moved[k].id, WellKnown(DeletedItems)) {
      MovesOfIndex(moved, k);
    }
  }

  /** The moves of some runs, in order. */
  function RunMoves(runs: seq<PurgeRun>): seq<Call> {
    if runs == [] then [] else RunMoves(runs[..|runs| - 1]) + MovesOf(Yielded(runs[|runs| - 1].pages))
  }

  /** Runs `runs` purged the first `|runs|` folders of the list in order, each
      starting from that folder's contents in `folders0`. */
  ghost predicate PurgeRuns(runs: seq<PurgeRun>, folders0: map<FolderId, seq<Item>>, filter: Filter) {
    && |runs| <= |PurgedFolders|
    && forall k :: 0 <= k < |runs| ==> RunOf(runs, k, folders0, filter)
  }

  /** The k-th run purged the k-th folder of the list. */
  ghost predicate RunOf(runs: seq<PurgeRun>, k: nat, folders0: map<FolderId, seq<Item>>, filter: Filter)
    requires k < |runs| && k < |PurgedFolders|
  {
    RunDone(runs[k], PurgedFolders[k], ContentsIn(folders0, PurgedFolders[k]), filter)
  }

  /** The folders of the list from position `from` on still hold what they held in `folders0`. */
  ghost predicate Untouched(folders0: map<FolderId, seq<Item>>, folders: map<FolderId, seq<Item>>, from: nat) {
    forall k :: from <= k < |PurgedFolders| ==> ContentsIn(folders, PurgedFolders[k]) == ContentsIn(folders0, PurgedFolders[k])
  }

  /** A run over the next folder of the list extends the runs. */
  lemma PurgeRunsSnoc(runs: seq<PurgeRun>, run: PurgeRun, folders0: map<FolderId, seq<Item>>, filter: Filter)
    requires |runs| < |PurgedFolders| && PurgeRuns(runs, folders0, filter)
    requires RunDone(run, PurgedFolders[|runs|], ContentsIn(folders0, PurgedFolders[|runs|]), filter)
    ensures PurgeRuns(runs + [run], folders0, filter)
  {
    var runs' := runs + [run];
    forall k | 0 <= k < |runs'| ensures RunOf(runs', k, folders0, filter) {
      if k < |runs| {
        assert runs'[k] == runs[k];
        assert RunOf(runs, k, folders0, filter);
      } else {
        assert runs'[k] == run;
      }
    }
  }

  /** A run over folder `i` of the list only moves items into Deleted Items,
      so the folders after it stay untouched. */
  lemma UntouchedStep(folders0: map<FolderId, seq<Item>>, before: map<FolderId, seq<Item>>, after: map<FolderId, seq<Item>>, i: nat)
    requires i < |PurgedFolders| && Untouched(folders0, before, i)
    requires KeepsOthers(before, after, PurgedFolders[i])
    ensures Untouched(folders0, after, i + 1)
  {
    forall k | i + 1 <= k < |PurgedFolders|
      ensures ContentsIn(after, PurgedFolders[k]) == ContentsIn(folders0, PurgedFolders[k])
    {
      assert PurgedFolders[k] != PurgedFolders[i] && PurgedFolders[k] != WellKnown(DeletedItems);
    }
  }

  /** The call log after one more run holds that run's moves after the earlier ones. */
  lemma RunMovesSnoc(calls0: seq<Call>, calls1: seq<Call>, calls2: seq<Call>, runs: seq<PurgeRun>, run: PurgeRun)
    requires calls1 == calls0 + RunMoves(runs)
    requires calls2 == calls1 + MovesOf(Yielded(run.pages))
    ensures calls2 == calls0 + RunMoves(runs + [run])
  {
    assert (runs + [run])[..|runs|] == runs;
    assert calls2 == calls0 + (RunMoves(runs) + MovesOf(Yielded(run.pages)));
  }

  /** `processItems`. Without a parseable date it returns -1 before any folder is
      touched; otherwise it purges the Inbox, Sent Items and Calendar, in that
      order, each run starting from the folder's contents before the purge (the
      earlier runs only move items into Deleted Items), and returns nothing. */
  method ProcessItems(store: Store, cutoff: Option<int>) returns (result: Option<int>, ghost runs: seq<PurgeRun>)
    modifies store
    ensures cutoff.None? ==> result == Some(-1) && runs == []
    ensures cutoff.None? ==> store.folders == old(store.folders) && store.calls == old(store.calls)
    ensures cutoff.Some? ==> result.None? && |runs| == |PurgedFolders|
    ensures cutoff.Some? ==> PurgeRuns(runs, old(store.folders), OldFilter(cutoff.value))
    ensures store.calls == old(store.calls) + RunMoves(runs)
  {
    runs := [];
    if cutoff.None? {
      return Some(-1), runs;
    }
    var filter := OldFilter(cutoff.value);
    var i := 0;
    while i < |PurgedFolders|
      invariant 0 <= i <= |PurgedFolders| && |runs| == i
      invariant PurgeRuns(runs, old(store.folders), filter)
      invariant Untouched(old(store.folders), store.folders, i)
      invariant store.calls == old(store.calls) + RunMoves(runs)
    {
      var folder := PurgedFolders[i];
      ghost var before := store.folders;
      assert ContentsIn(before, folder) == ContentsIn(old(store.folders), folder);
      ghost var calls := store.calls;
      var numDeleted, run := PurgeFolder(store, folder, filter);
      PurgeRunsSnoc(runs, run, old(store.folders), filter);
      UntouchedStep(old(store.folders), before, store.folders, i);
      RunMovesSnoc(old(store.calls), calls, store.calls, runs, run);
      runs := runs + [run];
      i := i + 1;
    }
    result := None;
  }
}
