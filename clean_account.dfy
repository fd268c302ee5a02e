/** `clean-account`: purge old items from a fixed list of folders in batches of a
    hundred, reporting one progress symbol per response, then hard-delete old
    items from Deleted Items. */
module CleanAccount {
  import opened Wrappers
  import opened Paging
  import opened Mailbox

  /** The item view of `itemsInFolder`. */
  const PageSize := 500
  /** The size at which the purge buffer is flushed. */
  const BatchSize := 100
  /** The folder view of `IdentifiersFromNames`. */
  const FolderViewSize := 1000

  /** `resultsMap`: the progress symbol of a response. */
  function ResultSymbol(r: ServiceResult): (c: char)
    ensures c == '.' <==> r == Success
    ensures c == 'W' <==> r == Warning
    ensures c == 'E' <==> r == Error
  {
    match r
    case Success => '.'
    case Warning => 'W'
    case Error => 'E'
  }

  /** The progress text of a sequence of responses: one symbol each, in order. */
  function Symbols(responses: seq<ServiceResult>): (r: string)
    ensures |r| == |responses|
  {
    if responses == [] then [] else [ResultSymbol(responses[0])] + Symbols(responses[1..])
  }

  /** Symbol `k` is the symbol of response `k`. */
  lemma {:induction false} SymbolsIndex(responses: seq<ServiceResult>, k: nat)
    requires k < |responses|
    ensures Symbols(responses)[k] == ResultSymbol(responses[k])
  {
    if k > 0 {
      SymbolsIndex(responses[1..], k - 1);
    }
  }

  lemma {:induction false} SymbolsAppend(a: seq<ServiceResult>, b: seq<ServiceResult>)
    ensures Symbols(a + b) == Symbols(a) + Symbols(b)
    decreases |a|
  {
    if a == [] {
      assert a + b == b;
    } else {
      assert (a + b)[0] == a[0] && (a + b)[1..] == a[1..] + b;
      SymbolsAppend(a[1..], b);
    }
  }

  /** The progress text can be read back: the responses are determined by their symbols. */
  lemma SymbolsInjective(a: seq<ServiceResult>, b: seq<ServiceResult>)
    requires Symbols(a) == Symbols(b)
    ensures a == b
  {
    assert |a| == |b|;
    forall k | 0 <= k < |a| ensures a[k] == b[k] {
      SymbolsIndex(a, k);
      SymbolsIndex(b, k);
    }
  }

  /** The restriction of `itemsInFolder`: created before the cutoff. */
  function PurgeFilter(before: int): Filter {
    [CreatedBefore(before)]
  }

  /** The ids of some items, in order. */
  function Ids(items: seq<Item>): (r: seq<ItemId>)
    ensures |r| == |items|
  {
    if items == [] then [] else [items[0].id] + Ids(items[1..])
  }

  /** Id `k` is the id of item `k`. */
  lemma {:induction false} IdsIndex(items: seq<Item>, k: nat)
    requires k < |items|
    ensures Ids(items)[k] == items[k].id
  {
    if k > 0 {
      IdsIndex(items[1..], k - 1);
    }
  }

  lemma {:induction false} IdsAppend(a: seq<Item>, b: seq<Item>)
    ensures Ids(a + b) == Ids(a) + Ids(b)
    decreases |a|
  {
    if a == [] {
      assert a + b == b;
    } else {
      assert (a + b)[0] == a[0] && (a + b)[1..] == a[1..] + b;
      IdsAppend(a[1..], b);
    }
  }

  /** The concatenation of some sequences, in order. */
  function Flatten<T>(parts: seq<seq<T>>): seq<T> {
    if parts == [] then [] else Flatten(parts[..|parts| - 1]) + parts[|parts| - 1]
  }

  lemma FlattenSnoc<T>(parts: seq<seq<T>>, last: seq<T>)
    ensures Flatten(parts + [last]) == Flatten(parts) + last
  {
    assert (parts + [last])[..|parts|] == parts;
  }

  /** Parts of equal lengths flatten to sequences of equal length. */
  lemma {:induction false} FlattenLength<S, T>(a: seq<seq<S>>, b: seq<seq<T>>)
    requires |a| == |b| && forall i :: 0 <= i < |a| ==> |a[i]| == |b[i]|
    ensures |Flatten(a)| == |Flatten(b)|
  {
    if a != [] {
      FlattenLength(a[..|a| - 1], b[..|b| - 1]);
    }
  }

  /** The DeleteItems calls of some batches, in order. */
  function DeleteCalls(batches: seq<seq<ItemId>>, hard: bool): (r: seq<Call>)
    ensures |r| == |batches|
  {
    if batches == [] then [] else DeleteCalls(batches[..|batches| - 1], hard) + [ItemsDeleted(batches[|batches| - 1], hard)]
  }

  /** Call `i` deletes batch `i`. */
  lemma {:induction false} DeleteCallsIndex(batches: seq<seq<ItemId>>, hard: bool, i: nat)
    requires i < |batches|
    ensures DeleteCalls(batches, hard)[i] == ItemsDeleted(batches[i], hard)
  {
    if i < |batches| - 1 {
      DeleteCallsIndex(batches[..|batches| - 1], hard, i);
    }
  }

  /** Where DeleteItems sends the items: Deleted Items, or nowhere on a hard delete. */
  function DeleteDest(hard: bool): Option<FolderId> {
    if hard then None else Some(WellKnown(DeletedItems))
  }

  /** The ids of a batch, as a set. */
  function IdSet(batch: seq<ItemId>): set<ItemId> {
    set k | 0 <= k < |batch| :: batch[k]
  }

  /** The folders after DeleteItems on the items of `folder` with each batch in turn. */
  function BatchesApplied(folders: map<FolderId, seq<Item>>, folder: FolderId, batches: seq<seq<ItemId>>, hard: bool)
    : map<FolderId, seq<Item>>
  {
    if batches == [] then folders
    else Relocated(BatchesApplied(folders, folder, batches[..|batches| - 1], hard), folder, IdSet(batches[|batches| - 1]), DeleteDest(hard))
  }

  lemma BatchesAppliedSnoc(folders: map<FolderId, seq<Item>>, folder: FolderId, batches: seq<seq<ItemId>>, batch: seq<ItemId>, hard: bool)
    ensures BatchesApplied(folders, folder, batches + [batch], hard)
            == Relocated(BatchesApplied(folders, folder, batches, hard), folder, IdSet(batch), DeleteDest(hard))
  {
    assert (batches + [batch])[..|batches|] == batches;
  }

  /** Purging a folder changes no folder but it and Deleted Items. */
  lemma {:induction false} BatchesKeepOthers(folders: map<FolderId, seq<Item>>, folder: FolderId, batches: seq<seq<ItemId>>, hard: bool)
    ensures KeepsOthers(folders, BatchesApplied(folders, folder, batches, hard), folder)
  {
    if batches != [] {
      BatchesKeepOthers(folders, folder, batches[..|batches| - 1], hard);
      KeepsOthersStep(folders, BatchesApplied(folders, folder, batches[..|batches| - 1], hard), folder,
                      IdSet(batches[|batches| - 1]), DeleteDest(hard));
    }
  }

  /** After a purge of a folder other than Deleted Items, or a hard one, the
      folder keeps only items it held before, and none whose id was sent in a batch. */
  lemma {:induction false} BatchesEmptyFolder(folders: map<FolderId, seq<Item>>, folder: FolderId, batches: seq<seq<ItemId>>, hard: bool)
    requires hard || folder != WellKnown(DeletedItems)
    ensures forall x :: x in ContentsIn(BatchesApplied(folders, folder, batches, hard), folder) ==>
              x in ContentsIn(folders, folder) && x.id !in Flatten(batches)
  {
    if batches != [] {
      var init := batches[..|batches| - 1];
      var batch := batches[|batches| - 1];
      BatchesEmptyFolder(folders, folder, init, hard);
      var mid := BatchesApplied(folders, folder, init, hard);
      FlattenSnoc(init, batch);
      assert batches == init + [batch];
      BatchesAppliedSnoc(folders, folder, init, batch, hard);
      RelocatedSource(mid, folder, IdSet(batch), DeleteDest(hard));
      forall x | x in ContentsIn(BatchesApplied(folders, folder, batches, hard), folder)
        ensures x in ContentsIn(folders, folder) && x.id !in Flatten(batches)
      {
        RestMembers(ContentsIn(mid, folder), IdSet(batch), x);
        assert x.id !in batch;
      }
    }
  }

  /** `ids` cut into batches of exactly a hundred followed by a buffer that is never full. */
  ghost predicate Cut(ids: seq<ItemId>, batches: seq<seq<ItemId>>, buffer: seq<ItemId>) {
    && Flatten(batches) + buffer == ids
    && |buffer| < BatchSize
    && (forall i :: 0 <= i < |batches| ==> |batches[i]| == BatchSize)
  }

  /** One response per id of each batch. */
  ghost predicate Answered(batches: seq<seq<ItemId>>, responses: seq<seq<ServiceResult>>) {
    && |responses| == |batches|
    && (forall i :: 0 <= i < |batches| ==> |responses[i]| == |batches[i]|)
  }

  /** One response per id of each batch; `purged` counts them and `progress` holds their symbols. */
  ghost predicate Counted(batches: seq<seq<ItemId>>, responses: seq<seq<ServiceResult>>, purged: nat, progress: string) {
    && Answered(batches, responses)
    && purged == |Flatten(responses)|
    && progress == Symbols(Flatten(responses))
  }

  /** The state of `purgeItems` after buffering the ids `ids`: the flushed batches,
      each of exactly a hundred, followed by the buffer, which is never full, give
      back `ids`; there is one response per flushed id, `purged` counts the
      responses and `progress` holds their symbols; the store has received one
      DeleteItems per batch, which took the batch's items out of `folder`. */
  ghost predicate Batched(ids: seq<ItemId>, batches: seq<seq<ItemId>>, buffer: seq<ItemId>,
                          responses: seq<seq<ServiceResult>>, purged: nat, progress: string,
                          calls0: seq<Call>, calls: seq<Call>, hard: bool,
                          folder: FolderId, folders0: map<FolderId, seq<Item>>, folders: map<FolderId, seq<Item>>)
  {
    && Cut(ids, batches, buffer)
    && Counted(batches, responses, purged, progress)
    && calls == calls0 + DeleteCalls(batches, hard)
    && folders == BatchesApplied(folders0, folder, batches, hard)
  }

  /** DeleteItems on a batch of ids found in `folder`; the folder's search results never grow. */
  method DeleteBatch(store: Store, folder: FolderId, filter: Filter, batch: seq<ItemId>, hard: bool)
    returns (responses: seq<ServiceResult>)
    modifies store
    ensures |responses| == |batch|
    ensures store.calls == old(store.calls) + [ItemsDeleted(batch, hard)]
    ensures store.folders == Relocated(old(store.folders), folder, IdSet(batch), DeleteDest(hard))
    ensures |store.Results(folder, filter)| <= |old(store.Results(folder, filter))|
    ensures store.folderList == old(store.folderList) && store.groups == old(store.groups)
    ensures store.unloadable == old(store.unloadable)
  {
    RelocatedShrinks(store.folders, folder, IdSet(batch), DeleteDest(hard), filter);
    responses := store.DeleteItems(folder, batch, hard);
  }

  /** Pushing an id into a buffer that stays short of a hundred. */
  lemma CutPush(ids: seq<ItemId>, batches: seq<seq<ItemId>>, buffer: seq<ItemId>, id: ItemId)
    requires Cut(ids, batches, buffer) && |buffer| + 1 < BatchSize
    ensures Cut(ids + [id], batches, buffer + [id])
  {
    ConcatAssoc(Flatten(batches), buffer, [id]);
  }

  /** Pushing the id that fills the buffer: the full buffer becomes the next batch. */
  lemma CutFull(ids: seq<ItemId>, batches: seq<seq<ItemId>>, buffer: seq<ItemId>, id: ItemId)
    requires Cut(ids, batches, buffer) && |buffer| + 1 == BatchSize
    ensures Cut(ids + [id], batches + [buffer + [id]], [])
  {
    FlattenSnoc(batches, buffer + [id]);
    ConcatAssoc(Flatten(batches), buffer, [id]);
  }

  /** At the end, the buffer, when not empty, is the last batch. */
  lemma CutFlushed(ids: seq<ItemId>, batches: seq<seq<ItemId>>, buffer: seq<ItemId>)
    requires Cut(ids, batches, buffer) && |buffer| > 0
    ensures CutAll(ids, batches + [buffer])
  {
    FlattenSnoc(batches, buffer);
  }

  /** At the end, with an empty buffer, the batches are all there is. */
  lemma CutDone(ids: seq<ItemId>, batches: seq<seq<ItemId>>)
    requires Cut(ids, batches, [])
    ensures CutAll(ids, batches)
  {
    assert Flatten(batches) + [] == Flatten(batches);
  }

  /** The responses to one more batch are counted. */
  lemma CountedSnoc(batches: seq<seq<ItemId>>, responses: seq<seq<ServiceResult>>, purged: nat, progress: string,
                    batch: seq<ItemId>, r: seq<ServiceResult>)
    requires Counted(batches, responses, purged, progress) && |r| == |batch|
    ensures Counted(batches + [batch], responses + [r], purged + |r|, progress + Symbols(r))
  {
    var bs, rs := batches + [batch], responses + [r];
    forall i | 0 <= i < |bs|
      ensures |rs[i]| == |bs[i]|
    {
      if i < |batches| {
        assert rs[i] == responses[i] && bs[i] == batches[i];
      }
    }
    FlattenSnoc(responses, r);
    SymbolsAppend(Flatten(responses), r);
  }

  /** Every id got a response. */
  lemma CountedLength(batches: seq<seq<ItemId>>, responses: seq<seq<ServiceResult>>, purged: nat, progress: string)
    requires Counted(batches, responses, purged, progress)
    ensures purged == |Flatten(batches)|
  {
    FlattenLength(batches, responses);
  }

  /** One more DeleteItems call, on one more batch. */
  lemma DeleteCallsSnoc(calls0: seq<Call>, calls: seq<Call>, batches: seq<seq<ItemId>>, batch: seq<ItemId>, hard: bool)
    requires calls == calls0 + DeleteCalls(batches, hard)
    ensures calls + [ItemsDeleted(batch, hard)] == calls0 + DeleteCalls(batches + [batch], hard)
  {
    assert (batches + [batch])[..|batches|] == batches;
    ConcatAssoc(calls0, DeleteCalls(batches, hard), [ItemsDeleted(batch, hard)]);
  }

  /** The loop body of `purgeItems` for one id: push it, and flush the buffer once it holds a hundred. */
  method BufferId(store: Store, folder: FolderId, filter: Filter, hard: bool, id: ItemId,
                  buffer: seq<ItemId>, purged: nat, progress: string,
                  ghost ids: seq<ItemId>, ghost batches: seq<seq<ItemId>>, ghost responses: seq<seq<ServiceResult>>,
                  ghost calls0: seq<Call>, ghost folders0: map<FolderId, seq<Item>>)
    returns (buffer': seq<ItemId>, purged': nat, progress': string,
             ghost batches': seq<seq<ItemId>>, ghost responses': seq<seq<ServiceResult>>)
    modifies store
    requires Batched(ids, batches, buffer, responses, purged, progress, calls0, store.calls, hard, folder, folders0, store.folders)
    ensures Batched(ids + [id], batches', buffer', responses', purged', progress', calls0, store.calls, hard, folder, folders0, store.folders)
    ensures |store.Results(folder, filter)| <= |old(store.Results(folder, filter))|
    ensures store.folderList == old(store.folderList) && store.groups == old(store.groups)
    ensures store.unloadable == old(store.unloadable)
  {
    if |buffer| + 1 == BatchSize {
      purged', progress', batches', responses' :=
        Flush(store, folder, filter, hard, buffer, id, purged, progress, ids, batches, responses, calls0, folders0);
      buffer' := [];
    } else {
      CutPush(ids, batches, buffer, id);
      buffer' := buffer + [id];
      batches', responses', purged', progress' := batches, responses, purged, progress;
    }
  }

  /** The id that fills the buffer: one DeleteItems call on the full buffer, which becomes the next batch. */
  method Flush(store: Store, folder: FolderId, filter: Filter, hard: bool, buffer: seq<ItemId>, id: ItemId,
               purged: nat, progress: string,
               ghost ids: seq<ItemId>, ghost batches: seq<seq<ItemId>>, ghost responses: seq<seq<ServiceResult>>,
               ghost calls0: seq<Call>, ghost folders0: map<FolderId, seq<Item>>)
    returns (purged': nat, progress': string, ghost batches': seq<seq<ItemId>>, ghost responses': seq<seq<ServiceResult>>)
    modifies store
    requires Batched(ids, batches, buffer, responses, purged, progress, calls0, store.calls, hard, folder, folders0, store.folders)
    requires |buffer| + 1 == BatchSize
    ensures Batched(ids + [id], batches', [], responses', purged', progress', calls0, store.calls, hard, folder, folders0, store.folders)
    ensures |store.Results(folder, filter)| <= |old(store.Results(folder, filter))|
    ensures store.folderList == old(store.folderList) && store.groups == old(store.groups)
    ensures store.unloadable == old(store.unloadable)
  {
    var full := buffer + [id];
    var r := DeleteBatch(store, folder, filter, full, hard);
    CutFull(ids, batches, buffer, id);
    CountedSnoc(batches, responses, purged, progress, full, r);
    DeleteCallsSnoc(calls0, old(store.calls), batches, full, hard);
    BatchesAppliedSnoc(folders0, folder, batches, full, hard);
    batches', responses' := batches + [full], responses + [r];
    purged' := purged + |r|;
    progress' := progress + Symbols(r);
  }

  /** The ids of a page pushed through the buffer in page order. */
  method BufferPage(store: Store, folder: FolderId, filter: Filter, hard: bool, page: seq<Item>,
                    buffer: seq<ItemId>, purged: nat, progress: string,
                    ghost ids: seq<ItemId>, ghost batches: seq<seq<ItemId>>, ghost responses: seq<seq<ServiceResult>>,
                    ghost calls0: seq<Call>, ghost folders0: map<FolderId, seq<Item>>)
    returns (buffer': seq<ItemId>, purged': nat, progress': string,
             ghost batches': seq<seq<ItemId>>, ghost responses': seq<seq<ServiceResult>>)
    modifies store
    requires Batched(ids, batches, buffer, responses, purged, progress, calls0, store.calls, hard, folder, folders0, store.folders)
    ensures Batched(ids + Ids(page), batches', buffer', responses', purged', progress', calls0, store.calls, hard, folder, folders0, store.folders)
    ensures |store.Results(folder, filter)| <= |old(store.Results(folder, filter))|
    ensures store.folderList == old(store.folderList) && store.groups == old(store.groups)
    ensures store.unloadable == old(store.unloadable)
  {
    buffer', purged', progress', batches', responses' := buffer, purged, progress, batches, responses;
    var j := 0;
    while j < |page|
      invariant 0 <= j <= |page|
      invariant Batched(ids + Ids(page[..j]), batches', buffer', responses', purged', progress', calls0, store.calls, hard, folder, folders0, store.folders)
      invariant |store.Results(folder, filter)| <= |old(store.Results(folder, filter))|
      invariant store.folderList == old(store.folderList) && store.groups == old(store.groups)
      invariant store.unloadable == old(store.unloadable)
    {
      IdsSnoc(ids, page, j);
      buffer', purged', progress', batches', responses' :=
        BufferId(store, folder, filter, hard, page[j].id, buffer', purged', progress', ids + Ids(page[..j]), batches', responses', calls0, folders0);
      j := j + 1;
    }
    assert page[..|page|] == page;
  }

  lemma IdsSnoc(ids: seq<ItemId>, page: seq<Item>, j: nat)
    requires j < |page|
    ensures ids + Ids(page[..j + 1]) == (ids + Ids(page[..j])) + [page[j].id]
  {
    IdsAppend(page[..j], [page[j]]);
    assert page[..j + 1] == page[..j] + [page[j]];
  }

  /** What the whole purge leaves: the batches are the yielded ids cut into runs of
      a hundred, the last possibly shorter; `purged` counts the responses of every
      DeleteItems call and `progress` is their symbols, closed by a line break once
      anything was purged; the folders are those left by the batches' deletes. */
  ghost predicate Purged(ids: seq<ItemId>, batches: seq<seq<ItemId>>, responses: seq<seq<ServiceResult>>,
                         purged: nat, progress: string, calls0: seq<Call>, calls: seq<Call>, hard: bool,
                         folder: FolderId, folders0: map<FolderId, seq<Item>>, folders: map<FolderId, seq<Item>>)
  {
    && CutAll(ids, batches)
    && Answered(batches, responses)
    && purged == |Flatten(responses)| == |ids|
    && progress == Symbols(Flatten(responses)) + (if purged > 0 then "\n" else "")
    && calls == calls0 + DeleteCalls(batches, hard)
    && folders == BatchesApplied(folders0, folder, batches, hard)
  }

  /** `ids` cut into non-empty batches of at most a hundred, all but the last of exactly a hundred. */
  ghost predicate CutAll(ids: seq<ItemId>, batches: seq<seq<ItemId>>) {
    && Flatten(batches) == ids
    && (forall i :: 0 <= i < |batches| ==> 0 < |batches[i]| <= BatchSize)
    && (forall i :: 0 <= i < |batches| - 1 ==> |batches[i]| == BatchSize)
  }

  /** `Batched` for the ids of the pages received so far. */
  ghost predicate BatchedScan(pages: seq<FindResult<Item>>, batches: seq<seq<ItemId>>, buffer: seq<ItemId>,
                          responses: seq<seq<ServiceResult>>, purged: nat, progress: string,
                          calls0: seq<Call>, calls: seq<Call>, hard: bool,
                          folder: FolderId, folders0: map<FolderId, seq<Item>>, folders: map<FolderId, seq<Item>>)
  {
    Batched(Ids(Yielded(pages)), batches, buffer, responses, purged, progress, calls0, calls, hard, folder, folders0, folders)
  }

  /** The state of the scan between two requests: the requests so far, the
      first answer, and the buffer and batches fed by the ids received. */
  ghost predicate Scanning(offsets: seq<nat>, pages: seq<FindResult<Item>>, offset: nat, first: FindResult<Item>,
                           batches: seq<seq<ItemId>>, buffer: seq<ItemId>, responses: seq<seq<ServiceResult>>,
                           purged: nat, progress: string, calls0: seq<Call>, calls: seq<Call>, hard: bool,
                           folder: FolderId, folders0: map<FolderId, seq<Item>>, folders: map<FolderId, seq<Item>>)
  {
    && OpenTrace(offsets, pages, true, offset)
    && (|pages| > 0 ==> pages[0] == first)
    && BatchedScan(pages, batches, buffer, responses, purged, progress, calls0, calls, hard, folder, folders0, folders)
  }

  lemma BatchedStart(calls0: seq<Call>, hard: bool, folder: FolderId, folders0: map<FolderId, seq<Item>>)
    ensures BatchedScan([], [], [], [], 0, "", calls0, calls0, hard, folder, folders0, folders0)
  {
    assert Flatten<ItemId>([]) + [] == [] == Ids(Yielded<Item>([]));
    assert calls0 + DeleteCalls([], hard) == calls0;
  }

  /** The scan of `itemsInFolder` feeding the buffer: views of 500 at offset 0,
      then at the offset advanced by the number of items received, while
      `MoreAvailable`; every id received is pushed in page order. */
  method ScanAndBuffer(store: Store, folder: FolderId, filter: Filter, hard: bool)
    returns (buffer: seq<ItemId>, purged: nat, progress: string, ghost offsets: seq<nat>, ghost pages: seq<FindResult<Item>>,
             ghost batches: seq<seq<ItemId>>, ghost responses: seq<seq<ServiceResult>>)
    modifies store
    ensures Trace(offsets, pages, true)
    ensures pages[0] == FindPage(Matching(old(store.Contents(folder)), filter), PageSize, 0)
    ensures BatchedScan(pages, batches, buffer, responses, purged, progress, old(store.calls), store.calls, hard,
                        folder, old(store.folders), store.folders)
    ensures store.folderList == old(store.folderList) && store.groups == old(store.groups)
    ensures store.unloadable == old(store.unloadable)
  {
    ghost var contents0, folders0 := store.Contents(folder), store.folders;
    ghost var calls0 := store.calls;
    ghost var first := FindPage(Matching(contents0, filter), PageSize, 0);
    ghost var folderList0, groups0, unloadable0 := store.folderList, store.groups, store.unloadable;
    offsets, pages, batches, responses := [], [], [], [];
    buffer := [];
    purged, progress := 0, "";
    var offset: nat := 0;
    BatchedStart(calls0, hard, folder, folders0);
    while true
      invariant pages == [] ==> store.Contents(folder) == contents0
      invariant Scanning(offsets, pages, offset, first, batches, buffer, responses, purged, progress, calls0, store.calls, hard,
                         folder, folders0, store.folders)
      invariant store.folderList == folderList0 && store.groups == groups0 && store.unloadable == unloadable0
      decreases Slack(|store.Results(folder, filter)|, offset)
    {
      var search;
      search, buffer, purged, progress, offsets, pages, batches, responses :=
        PurgePage(store, folder, filter, hard, offset, buffer, purged, progress, offsets, pages, batches, responses, contents0, calls0, folders0);
      if !search.moreAvailable {
        break;
      }
      offset := offset + |search.items|;
    }
  }

  /** One request of the scan and the ids it returns pushed through the buffer.
      The ghost parameters are the scan so far, returned extended by this page. */
  method PurgePage(store: Store, folder: FolderId, filter: Filter, hard: bool, offset: nat,
                   buffer: seq<ItemId>, purged: nat, progress: string,
                   ghost offsets: seq<nat>, ghost pages: seq<FindResult<Item>>,
                   ghost batches: seq<seq<ItemId>>, ghost responses: seq<seq<ServiceResult>>,
                   ghost contents0: seq<Item>, ghost calls0: seq<Call>, ghost folders0: map<FolderId, seq<Item>>)
    returns (search: FindResult<Item>, buffer': seq<ItemId>, purged': nat, progress': string,
             ghost offsets': seq<nat>, ghost pages': seq<FindResult<Item>>,
             ghost batches': seq<seq<ItemId>>, ghost responses': seq<seq<ServiceResult>>)
    modifies store
    requires pages == [] ==> store.Contents(folder) == contents0
    requires Scanning(offsets, pages, offset, FindPage(Matching(contents0, filter), PageSize, 0),
                      batches, buffer, responses, purged, progress, calls0, store.calls, hard, folder, folders0, store.folders)
    ensures search == FindPage(old(store.Results(folder, filter)), PageSize, offset)
    ensures offsets' == offsets + [offset] && pages' == pages + [search]
    ensures search.moreAvailable ==>
              Scanning(offsets', pages', offset + |search.items|, FindPage(Matching(contents0, filter), PageSize, 0),
                       batches', buffer', responses', purged', progress', calls0, store.calls, hard, folder, folders0, store.folders)
    ensures !search.moreAvailable ==>
              && Trace(offsets', pages', true) && pages'[0] == FindPage(Matching(contents0, filter), PageSize, 0)
              && BatchedScan(pages', batches', buffer', responses', purged', progress', calls0, store.calls, hard, folder, folders0, store.folders)
    ensures search.moreAvailable ==>
              Slack(|store.Results(folder, filter)|, offset + |search.items|) < Slack(|old(store.Results(folder, filter))|, offset)
    ensures store.folderList == old(store.folderList) && store.groups == old(store.groups)
    ensures store.unloadable == old(store.unloadable)
  {
    ghost var before := |store.Results(folder, filter)|;
    search := store.FindItems(folder, filter, PageSize, offset);
    buffer', purged', progress', batches', responses' :=
      BufferFound(store, folder, filter, hard, search, buffer, purged, progress, pages, batches, responses, calls0, folders0);
    TraceStep(offsets, pages, true, offset, PageSize, FindPage(Matching(contents0, filter), PageSize, 0), search,
              before, |store.Results(folder, filter)|);
    offsets', pages' := offsets + [offset], pages + [search];
  }

  /** `BufferPage` for the answer to the next request of the scan. */
  method BufferFound(store: Store, folder: FolderId, filter: Filter, hard: bool, search: FindResult<Item>,
                     buffer: seq<ItemId>, purged: nat, progress: string, ghost pages: seq<FindResult<Item>>,
                     ghost batches: seq<seq<ItemId>>, ghost responses: seq<seq<ServiceResult>>,
                     ghost calls0: seq<Call>, ghost folders0: map<FolderId, seq<Item>>)
    returns (buffer': seq<ItemId>, purged': nat, progress': string,
             ghost batches': seq<seq<ItemId>>, ghost responses': seq<seq<ServiceResult>>)
    modifies store
    requires BatchedScan(pages, batches, buffer, responses, purged, progress, calls0, store.calls, hard, folder, folders0, store.folders)
    ensures BatchedScan(pages + [search], batches', buffer', responses', purged', progress', calls0, store.calls, hard,
                        folder, folders0, store.folders)
    ensures |store.Results(folder, filter)| <= |old(store.Results(folder, filter))|
    ensures store.folderList == old(store.folderList) && store.groups == old(store.groups)
    ensures store.unloadable == old(store.unloadable)
  {
    ScannedIds(pages, search);
    buffer', purged', progress', batches', responses' :=
      BufferPage(store, folder, filter, hard, search.items, buffer, purged, progress, Ids(Yielded(pages)), batches, responses, calls0, folders0);
  }

  lemma ScannedIds(pages: seq<FindResult<Item>>, page: FindResult<Item>)
    ensures Ids(Yielded(pages + [page])) == Ids(Yielded(pages)) + Ids(page.items)
  {
    YieldedAppend(pages, page);
    IdsAppend(Yielded(pages), page.items);
  }

  /** The end of `purgeItems` when ids are left in the buffer: one last DeleteItems
      takes them, and the progress line is closed. */
  lemma FinishWithFlush(ids: seq<ItemId>, batches: seq<seq<ItemId>>, buffer: seq<ItemId>,
                        responses: seq<seq<ServiceResult>>, purged: nat, progress: string,
                        calls0: seq<Call>, calls: seq<Call>, hard: bool, r: seq<ServiceResult>,
                        folder: FolderId, folders0: map<FolderId, seq<Item>>, folders: map<FolderId, seq<Item>>)
    requires Batched(ids, batches, buffer, responses, purged, progress, calls0, calls, hard, folder, folders0, folders)
    requires |buffer| > 0 && |r| == |buffer|
    ensures Purged(ids, batches + [buffer], responses + [r], purged + |r|, progress + Symbols(r) + "\n",
                   calls0, calls + [ItemsDeleted(buffer, hard)], hard,
                   folder, folders0, Relocated(folders, folder, IdSet(buffer), DeleteDest(hard)))
  {
    CutFlushed(ids, batches, buffer);
    CountedSnoc(batches, responses, purged, progress, buffer, r);
    CountedLength(batches + [buffer], responses + [r], purged + |r|, progress + Symbols(r));
    DeleteCallsSnoc(calls0, calls, batches, buffer, hard);
    BatchesAppliedSnoc(folders0, folder, batches, buffer, hard);
  }

  /** The end of `purgeItems` when the buffer is empty: no further call, and the
      progress line is closed only if something was purged. */
  lemma FinishWithoutFlush(ids: seq<ItemId>, batches: seq<seq<ItemId>>, buffer: seq<ItemId>,
                           responses: seq<seq<ServiceResult>>, purged: nat, progress: string,
                           calls0: seq<Call>, calls: seq<Call>, hard: bool,
                           folder: FolderId, folders0: map<FolderId, seq<Item>>, folders: map<FolderId, seq<Item>>)
    requires Batched(ids, batches, buffer, responses, purged, progress, calls0, calls, hard, folder, folders0, folders)
    requires buffer == []
    ensures Purged(ids, batches, responses, purged, progress + (if purged > 0 then "\n" else ""), calls0, calls, hard,
                   folder, folders0, folders)
  {
    CutDone(ids, batches);
    CountedLength(batches, responses, purged, progress);
  }

  /** `purgeItems`: the ids the scan of `folder` yields are deleted a hundred at a
      time as they arrive, and whatever is left in the buffer afterwards in one last call. */
  method PurgeItems(store: Store, folder: FolderId, before: int, hard: bool)
    returns (purged: nat, progress: string, ghost offsets: seq<nat>, ghost pages: seq<FindResult<Item>>,
             ghost batches: seq<seq<ItemId>>, ghost responses: seq<seq<ServiceResult>>)
    modifies store
    ensures Trace(offsets, pages, true)
    ensures pages[0] == FindPage(Matching(old(store.Contents(folder)), PurgeFilter(before)), PageSize, 0)
    ensures Purged(Ids(Yielded(pages)), batches, responses, purged, progress, old(store.calls), store.calls, hard,
                   folder, old(store.folders), store.folders)
    ensures store.folderList == old(store.folderList) && store.groups == old(store.groups)
    ensures store.unloadable == old(store.unloadable)
  {
    var filter := PurgeFilter(before);
    var buffer;
    buffer, purged, progress, offsets, pages, batches, responses := ScanAndBuffer(store, folder, filter, hard);
    ghost var ids := Ids(Yielded(pages));
    if |buffer| > 0 {
      ghost var callsBefore, foldersBefore := store.calls, store.folders;
      var r := DeleteBatch(store, folder, filter, buffer, hard);
      FinishWithFlush(ids, batches, buffer, responses, purged, progress, old(store.calls), callsBefore, hard, r,
                      folder, old(store.folders), foldersBefore);
      batches, responses := batches + [buffer], responses + [r];
      purged := purged + |r|;
      progress := progress + Symbols(r) + "\n";
    } else {
      FinishWithoutFlush(ids, batches, buffer, responses, purged, progress, old(store.calls), store.calls, hard,
                         folder, old(store.folders), store.folders);
      if purged > 0 {
        progress := progress + "\n";
      }
    }
  }

  // ---------------------------------------------------------------------------
  // The folders to purge

  /** A folder found by name: its id and display name. */
  datatype Identifier = Identifier(id: FolderId, displayName: string)

  /** The folders whose display name is exactly one of `names`, in the order listed. */
  function NamedFolders(list: seq<FolderInfo>, names: seq<string>): (r: seq<Identifier>)
    ensures |r| <= |list|
  {
    if list == [] then []
    else (if list[0].displayName in names then [Identifier(list[0].id, list[0].displayName)] else [])
         + NamedFolders(list[1..], names)
  }

  /** The filter keeps exactly the folders named in `names` (compared exactly) ... */
  lemma {:induction false} NamedFoldersExact(list: seq<FolderInfo>, names: seq<string>)
    ensures forall x :: x in NamedFolders(list, names) <==>
              exists k :: 0 <= k < |list| && list[k].displayName in names && x == Identifier(list[k].id, list[k].displayName)
  {
    if list != [] {
      NamedFoldersExact(list[1..], names);
      forall x | x in NamedFolders(list[1..], names)
        ensures exists k :: 0 <= k < |list| && list[k].displayName in names && x == Identifier(list[k].id, list[k].displayName)
      {
        var k :| 0 <= k < |list| - 1 && list[1..][k].displayName in names && x == Identifier(list[1..][k].id, list[1..][k].displayName);
        assert list[k + 1] == list[1..][k];
      }
      forall x | exists k :: 0 <= k < |list| && list[k].displayName in names && x == Identifier(list[k].id, list[k].displayName)
        ensures x in NamedFolders(list, names)
      {
        var k :| 0 <= k < |list| && list[k].displayName in names && x == Identifier(list[k].id, list[k].displayName);
        if k > 0 {
          assert list[1..][k - 1] == list[k];
        }
      }
    }
  }

  /** ... and keeps their order: filtering a listing in two parts is filtering each part. */
  lemma {:induction false} NamedFoldersAppend(a: seq<FolderInfo>, b: seq<FolderInfo>, names: seq<string>)
    ensures NamedFolders(a + b, names) == NamedFolders(a, names) + NamedFolders(b, names)
    decreases |a|
  {
    if a == [] {
      assert a + b == b;
    } else {
      assert (a + b)[0] == a[0] && (a + b)[1..] == a[1..] + b;
      NamedFoldersAppend(a[1..], b, names);
      var head := if a[0].displayName in names then [Identifier(a[0].id, a[0].displayName)] else [];
      assert NamedFolders(a, names) == head + NamedFolders(a[1..], names);
      assert NamedFolders(a + b, names) == head + (NamedFolders(a[1..], names) + NamedFolders(b, names));
    }
  }

  /** `IdentifiersFromNames`: a deep folder search from the root with a view of
      a thousand, filtered by exact display name. */
  method IdentifiersFromNames(store: Store, displayNames: seq<string>) returns (r: seq<Identifier>)
    ensures r == NamedFolders(store.folderList[..Min(FolderViewSize, |store.folderList|)], displayNames)
  {
    var results := store.ListFolders(FolderViewSize);
    r := NamedFolders(results, displayNames);
  }

  const PurgedFolderNames := ["NDR Processed", "Flood warnings"]

  function FolderIds(ids: seq<Identifier>): (r: seq<FolderId>)
    ensures |r| == |ids| && forall k :: 0 <= k < |ids| ==> r[k] == ids[k].id
  {
    if ids == [] then [] else [ids[0].id] + FolderIds(ids[1..])
  }

  /** The folders the main block moves old items out of, in order. */
  function MoveTargets(named: seq<Identifier>): seq<FolderId> {
    [WellKnown(Inbox), WellKnown(SentItems), WellKnown(Calendar)] + FolderIds(named)
  }

  /** One call of `purgeItems` as it happened: the folder, the cutoff, the delete
      mode, the ids scanned, the batches sent and the number purged. */
  datatype PurgeRun = PurgeRun(folder: FolderId, before: int, hard: bool, ids: seq<ItemId>, batches: seq<seq<ItemId>>, purged: nat)

  /** A run cut its ids into batches of a hundred, the last possibly shorter, and counted them all. */
  ghost predicate RunBatched(run: PurgeRun) {
    && Flatten(run.batches) == run.ids
    && (forall i :: 0 <= i < |run.batches| ==> 0 < |run.batches[i]| <= BatchSize)
    && (forall i :: 0 <= i < |run.batches| - 1 ==> |run.batches[i]| == BatchSize)
    && run.purged == |run.ids|
  }

  /** The DeleteItems calls of some runs, in order. */
  function RunCalls(runs: seq<PurgeRun>): seq<Call> {
    if runs == [] then [] else RunCalls(runs[..|runs| - 1]) + DeleteCalls(runs[|runs| - 1].batches, runs[|runs| - 1].hard)
  }

  lemma RunCallsSnoc(runs: seq<PurgeRun>, run: PurgeRun)
    ensures RunCalls(runs + [run]) == RunCalls(runs) + DeleteCalls(run.batches, run.hard)
  {
    assert (runs + [run])[..|runs|] == runs;
  }

  /** The folders after the deletes of some runs, in order. */
  function RunsApplied(folders: map<FolderId, seq<Item>>, runs: seq<PurgeRun>): map<FolderId, seq<Item>> {
    if runs == [] then folders
    else
      var run := runs[|runs| - 1];
      BatchesApplied(RunsApplied(folders, runs[..|runs| - 1]), run.folder, run.batches, run.hard)
  }

  lemma RunsAppliedSnoc(folders: map<FolderId, seq<Item>>, runs: seq<PurgeRun>, run: PurgeRun)
    ensures RunsApplied(folders, runs + [run]) == BatchesApplied(RunsApplied(folders, runs), run.folder, run.batches, run.hard)
  {
    assert (runs + [run])[..|runs|] == runs;
  }

  /** Runs on other folders leave a folder other than Deleted Items as it was. */
  lemma {:induction false} RunsKeepOthers(folders: map<FolderId, seq<Item>>, runs: seq<PurgeRun>, g: FolderId)
    requires g != WellKnown(DeletedItems)
    requires forall i :: 0 <= i < |runs| ==> runs[i].folder != g
    ensures ContentsIn(RunsApplied(folders, runs), g) == ContentsIn(folders, g)
  {
    if runs != [] {
      var run := runs[|runs| - 1];
      RunsKeepOthers(folders, runs[..|runs| - 1], g);
      BatchesKeepOthers(RunsApplied(folders, runs[..|runs| - 1]), run.folder, run.batches, run.hard);
    }
  }

  /** One call of `purgeItems`, recorded as a run. */
  method PurgeRunOf(store: Store, folder: FolderId, before: int, hard: bool) returns (purged: nat, ghost run: PurgeRun)
    modifies store
    ensures run.purged == purged
    ensures run.folder == folder && run.before == before && run.hard == hard
    ensures RunBatched(run)
    ensures store.calls == old(store.calls) + DeleteCalls(run.batches, hard)
    ensures store.folders == BatchesApplied(old(store.folders), folder, run.batches, hard)
    ensures store.folderList == old(store.folderList) && store.groups == old(store.groups)
    ensures store.unloadable == old(store.unloadable)
  {
    var progress;
    ghost var offsets, pages, batches, responses;
    purged, progress, offsets, pages, batches, responses := PurgeItems(store, folder, before, hard);
    run := PurgeRun(folder, before, hard, Ids(Yielded(pages)), batches, purged);
  }

  /** The runs of the moving pass: one per target folder, in order, each with the
      same cutoff, moving to Deleted Items and batching as `purgeItems` does. */
  ghost predicate MoveRuns(runs: seq<PurgeRun>, targets: seq<FolderId>, before: int) {
    if runs == [] then targets == []
    else
      && |targets| == |runs|
      && MoveRuns(runs[..|runs| - 1], targets[..|runs| - 1], before)
      && var run := runs[|runs| - 1];
         run.folder == targets[|runs| - 1] && run.before == before && !run.hard && RunBatched(run)
  }

  /** Run `k` of the moving pass is the one for target `k`. */
  lemma {:induction false} MoveRunsIndex(runs: seq<PurgeRun>, targets: seq<FolderId>, before: int, k: nat)
    requires MoveRuns(runs, targets, before) && k < |runs|
    ensures |runs| == |targets|
    ensures runs[k].folder == targets[k] && runs[k].before == before && !runs[k].hard && RunBatched(runs[k])
  {
    if k < |runs| - 1 {
      MoveRunsIndex(runs[..|runs| - 1], targets[..|runs| - 1], before, k);
    }
  }

  lemma MoveRunsSnoc(runs: seq<PurgeRun>, targets: seq<FolderId>, i: nat, before: int, run: PurgeRun)
    requires i < |targets| && MoveRuns(runs, targets[..i], before)
    requires run.folder == targets[i] && run.before == before && !run.hard && RunBatched(run)
    ensures MoveRuns(runs + [run], targets[..i + 1], before)
  {
    assert (runs + [run])[..|runs|] == runs;
    if runs != [] {
      assert |runs| == i;
    }
    assert targets[..i + 1][..i] == targets[..i];
  }

  /** The moving pass: `purgeItems` on each target in turn, moving to Deleted Items. */
  method MoveOldItems(store: Store, targets: seq<FolderId>, before: int) returns (ghost runs: seq<PurgeRun>)
    modifies store
    ensures MoveRuns(runs, targets, before)
    ensures store.calls == old(store.calls) + RunCalls(runs)
    ensures store.folders == RunsApplied(old(store.folders), runs)
    ensures store.folderList == old(store.folderList)
  {
    runs := [];
    ghost var folders0, calls0, folderList0 := store.folders, store.calls, store.folderList;
    var i := 0;
    while i < |targets|
      invariant 0 <= i <= |targets|
      invariant MoveRuns(runs, targets[..i], before)
      invariant store.calls == calls0 + RunCalls(runs)
      invariant store.folders == RunsApplied(folders0, runs)
      invariant store.folderList == folderList0
    {
      var purged, run := PurgeRunOf(store, targets[i], before, false);
      RunCallsSnoc(runs, run);
      ConcatAssoc(calls0, RunCalls(runs), DeleteCalls(run.batches, false));
      RunsAppliedSnoc(folders0, runs, run);
      MoveRunsSnoc(runs, targets, i, before, run);
      runs := runs + [run];
      i := i + 1;
    }
    assert targets[..|targets|] == targets;
  }

  /** The runs of the whole clean-up: the moving pass over `targets`, then one
      hard delete in Deleted Items with the cutoff `trashBefore`. */
  ghost predicate CleanRuns(runs: seq<PurgeRun>, targets: seq<FolderId>, before: int, trashBefore: int) {
    && |runs| > 0
    && MoveRuns(runs[..|runs| - 1], targets, before)
    && var last := runs[|runs| - 1];
       last.folder == WellKnown(DeletedItems) && last.before == trashBefore && last.hard && RunBatched(last)
  }

  lemma CleanRunsSnoc(runs: seq<PurgeRun>, targets: seq<FolderId>, before: int, last: PurgeRun)
    requires MoveRuns(runs, targets, before)
    requires last.folder == WellKnown(DeletedItems) && last.hard && RunBatched(last)
    ensures CleanRuns(runs + [last], targets, before, last.before)
  {
    assert (runs + [last])[..|runs|] == runs;
  }

  /** The main block: without a valid date it exits with 1 and touches nothing;
      otherwise old items are moved to Deleted Items from Inbox, Sent Items,
      Calendar and the folders named "NDR Processed" and "Flood warnings", in
      that order, and then Deleted Items is emptied by hard delete of what is
      older than the cutoff moved back three months (`addMonths`). */
  method CleanAccountMain(store: Store, purgeBefore: Option<int>, addMonths: (int, int) -> int)
    returns (exit: nat, ghost runs: seq<PurgeRun>)
    modifies store
    ensures exit == 1 <==> purgeBefore.None?
    ensures purgeBefore.None? ==> store.folders == old(store.folders) && store.calls == old(store.calls) && runs == []
    ensures purgeBefore.Some? ==>
              var targets := MoveTargets(NamedFolders(old(store.folderList)[..Min(FolderViewSize, |old(store.folderList)|)], PurgedFolderNames));
              && CleanRuns(runs, targets, purgeBefore.value, addMonths(purgeBefore.value, -3))
              && store.calls == old(store.calls) + RunCalls(runs)
              && store.folders == RunsApplied(old(store.folders), runs)
  {
    runs := [];
    if purgeBefore.None? {
      return 1, runs;
    }
    var before := purgeBefore.value;
    var named := IdentifiersFromNames(store, PurgedFolderNames);
    var targets := MoveTargets(named);
    ghost var calls0, folders0 := store.calls, store.folders;
    runs := MoveOldItems(store, targets, before);
    ghost var moved := RunCalls(runs);
    var purged, last := PurgeRunOf(store, WellKnown(DeletedItems), addMonths(before, -3), true);
    RunCallsSnoc(runs, last);
    RunsAppliedSnoc(folders0, runs, last);
    CleanRunsSnoc(runs, targets, before, last);
    ConcatAssoc(calls0, moved, DeleteCalls(last.batches, true));
    runs := runs + [last];
    exit := 0;
  }

  /** After the clean-up, a folder that is neither a target nor Deleted Items is
      as it was, and Deleted Items holds none of the items its hard delete sent. */
  lemma CleanKeepsOthers(folders: map<FolderId, seq<Item>>, runs: seq<PurgeRun>, targets: seq<FolderId>,
                         before: int, trashBefore: int, g: FolderId)
    requires CleanRuns(runs, targets, before, trashBefore)
    requires g !in targets && g != WellKnown(DeletedItems)
    ensures ContentsIn(RunsApplied(folders, runs), g) == ContentsIn(folders, g)
  {
    forall i | 0 <= i < |runs| ensures runs[i].folder != g {
      if i < |runs| - 1 {
        MoveRunsIndex(runs[..|runs| - 1], targets, before, i);
        assert runs[i] == runs[..|runs| - 1][i];
      }
    }
    RunsKeepOthers(folders, runs, g);
  }

  /** Deleted Items, after the hard delete that ends the clean-up, holds only
      items it held before that delete, none of them one the delete sent. */
  lemma CleanEmptiesTrash(folders: map<FolderId, seq<Item>>, runs: seq<PurgeRun>, targets: seq<FolderId>,
                          before: int, trashBefore: int)
    requires CleanRuns(runs, targets, before, trashBefore)
    ensures var last := runs[|runs| - 1];
            var trash := WellKnown(DeletedItems);
            forall x :: x in ContentsIn(RunsApplied(folders, runs), trash) ==>
              x in ContentsIn(RunsApplied(folders, runs[..|runs| - 1]), trash) && x.id !in last.ids
  {
    var last := runs[|runs| - 1];
    assert runs == runs[..|runs| - 1] + [last];
    RunsAppliedSnoc(folders, runs[..|runs| - 1], last);
    BatchesEmptyFolder(RunsApplied(folders, runs[..|runs| - 1]), last.folder, last.batches, last.hard);
  }
}
