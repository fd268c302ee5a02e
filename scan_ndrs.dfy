/** `scan-ndrs`: page through the NDR notices of the "NDR Processed" folder and
    of Deleted Items and print those addressed to a recipient on a watch list.
    The scan only reads, so every matching notice is visited exactly once. */
module ScanNdrs {
  import opened Wrappers
  import opened Paging
  import opened Mailbox
  import CleanAccount

  /** The item view of `itemsInFolder` (`paging`). */
  const ViewSize := 500
  /** The pause after every page (`sleepSeconds`), in milliseconds. */
  const PauseMs: nat := 1000

  /** The addresses to look for amongst NDR notices: none. */
  const LookFor: seq<string> := []

  /** The display name of the folder the NDR processor files handled notices in. */
  const NdrFolderName := "NDR Processed"

  /** The restriction of `itemsInFolder`: an item class containing "NDR", created before `before`. */
  function NdrFilter(before: int): Filter {
    [ClassContains("NDR"), CreatedBefore(before)]
  }

  /** What is printed for a notice: its creation time and its text body. */
  datatype Printout = Printout(created: int, text: string)

  /** Some `To` recipient has an address, and that address is on the list. */
  predicate HasLookedFor(item: Item, lookFor: seq<string>) {
    exists k :: 0 <= k < |item.toRecipients| && item.toRecipients[k].address.Some? && item.toRecipients[k].address.value in lookFor
  }

  /** The printouts of the items addressed to someone on the list, in order. */
  function Printed(items: seq<Item>, lookFor: seq<string>): seq<Printout> {
    if items == [] then []
    else
      (if HasLookedFor(items[0], lookFor) then [Printout(items[0].created, items[0].textBody)] else [])
      + Printed(items[1..], lookFor)
  }

  lemma {:induction false} PrintedAppend(a: seq<Item>, b: seq<Item>, lookFor: seq<string>)
    ensures Printed(a + b, lookFor) == Printed(a, lookFor) + Printed(b, lookFor)
    decreases |a|
  {
    if a == [] {
      assert a + b == b;
    } else {
      var head := if HasLookedFor(a[0], lookFor) then [Printout(a[0].created, a[0].textBody)] else [];
      assert (a + b)[0] == a[0] && (a + b)[1..] == a[1..] + b;
      assert Printed(a + b, lookFor) == head + Printed(a[1..] + b, lookFor);
      PrintedAppend(a[1..], b, lookFor);
      ConcatAssoc(head, Printed(a[1..], lookFor), Printed(b, lookFor));
    }
  }

  /** A printout is exactly the creation time and text of a scanned item addressed to someone on the list. */
  lemma {:induction false} PrintedExact(items: seq<Item>, lookFor: seq<string>)
    ensures forall p :: p in Printed(items, lookFor) <==>
              exists x :: x in items && HasLookedFor(x, lookFor) && p == Printout(x.created, x.textBody)
  {
    if items != [] {
      PrintedExact(items[1..], lookFor);
      assert items == [items[0]] + items[1..];
      forall x | x in items ensures x == items[0] || x in items[1..] { }
    }
  }

  /** With the empty watch list the script prints nothing, whatever it scans. */
  lemma {:induction false} NothingPrinted(items: seq<Item>)
    ensures Printed(items, LookFor) == []
  {
    if items != [] {
      NothingPrinted(items[1..]);
    }
  }

  /** Every pause is of one second. */
  ghost predicate OneSecondEach(pauses: seq<nat>) {
    forall k :: 0 <= k < |pauses| ==> pauses[k] == PauseMs
  }

  lemma OneSecondEachAppend(a: seq<nat>, b: seq<nat>)
    requires OneSecondEach(a) && OneSecondEach(b)
    ensures OneSecondEach(a + b)
  {
  }

  /** The number of views of 500 needed to read `n` results: at least one, even with nothing to read. */
  function PageCount(n: nat): (r: nat)
    ensures r >= 1
    ensures (r - 1) * ViewSize <= n && (n <= r * ViewSize)
    ensures n > 0 ==> (r - 1) * ViewSize < n
  {
    if n <= ViewSize then 1 else 1 + PageCount(n - ViewSize)
  }

  /** One page of a scan over results `all` that do not change: the printouts so
      far extend to those of every item before the next offset, and the pages
      left to request are this one and those after the next offset. */
  lemma ScanStep(all: seq<Item>, offset: nat, printed: seq<Printout>, page: FindResult<Item>)
    requires offset <= |all| && printed == Printed(all[..offset], LookFor)
    requires page == FindPage(all, ViewSize, offset)
    ensures printed + Printed(page.items, LookFor) == Printed(all[..offset + |page.items|], LookFor)
    ensures page.moreAvailable ==> offset < offset + |page.items| < |all|
    ensures page.moreAvailable ==> PageCount(|all| - offset) == 1 + PageCount(|all| - (offset + |page.items|))
    ensures !page.moreAvailable ==> all[..offset + |page.items|] == all && PageCount(|all| - offset) == 1
  {
    FixedPageStep(all, ViewSize, offset);
    PrintedAppend(all[..offset], page.items, LookFor);
  }

  /** `itemsInFolder` on one folder together with the loop consuming it: views of
      500 from offset 0, the offset growing by the page length while
      `MoreAvailable`, a pause after every page including the last. Nothing changes
      the results meanwhile, so the printouts are those of every result, and there
      is one pause per view of 500 the results need. */
  method ScanFolder(store: Store, folder: FolderId, filter: Filter) returns (printed: seq<Printout>, pauses: seq<nat>)
    ensures printed == Printed(store.Results(folder, filter), LookFor)
    ensures |pauses| == PageCount(|store.Results(folder, filter)|)
    ensures OneSecondEach(pauses)
  {
    ghost var all := store.Results(folder, filter);
    printed, pauses := [], [];
    var offset := 0;
    while true
      invariant offset <= |all|
      invariant printed == Printed(all[..offset], LookFor)
      invariant offset == 0 || offset < |all|
      invariant PageCount(|all|) == |pauses| + PageCount(|all| - offset)
      invariant OneSecondEach(pauses)
      decreases |all| - offset
    {
      var search := store.FindItems(folder, filter, ViewSize, offset);
      ScanStep(all, offset, printed, search);
      printed := printed + Printed(search.items, LookFor);
      offset := offset + |search.items|;
      OneSecondEachAppend(pauses, [PauseMs]);
      pauses := pauses + [PauseMs];
      if !search.moreAvailable {
        break;
      }
    }
  }

  /** The printouts of a scan of `folders` in order. */
  function PrintedAll(store: Store, folders: seq<FolderId>, filter: Filter): seq<Printout>
    reads store
  {
    if folders == [] then []
    else PrintedAll(store, folders[..|folders| - 1], filter) + Printed(store.Results(folders[|folders| - 1], filter), LookFor)
  }

  /** The number of pages a scan of `folders` in order requests. */
  function PagesAll(store: Store, folders: seq<FolderId>, filter: Filter): nat
    reads store
  {
    if folders == [] then 0
    else PagesAll(store, folders[..|folders| - 1], filter) + PageCount(|store.Results(folders[|folders| - 1], filter)|)
  }

  lemma ScannedSnoc(store: Store, folders: seq<FolderId>, filter: Filter, i: nat)
    requires i < |folders|
    ensures PrintedAll(store, folders[..i + 1], filter)
            == PrintedAll(store, folders[..i], filter) + Printed(store.Results(folders[i], filter), LookFor)
    ensures PagesAll(store, folders[..i + 1], filter)
            == PagesAll(store, folders[..i], filter) + PageCount(|store.Results(folders[i], filter)|)
  {
    assert folders[..i + 1][..i] == folders[..i];
  }

  /** A scan of two folders prints and pauses for the first, then for the second. */
  lemma ScannedTwo(store: Store, a: FolderId, b: FolderId, filter: Filter)
    ensures PrintedAll(store, [a, b], filter) == Printed(store.Results(a, filter), LookFor) + Printed(store.Results(b, filter), LookFor)
    ensures PagesAll(store, [a, b], filter) == PageCount(|store.Results(a, filter)|) + PageCount(|store.Results(b, filter)|)
  {
    ScannedOne(store, a, filter);
    ScannedOne(store, b, filter);
    var folders := [a, b];
    assert folders[..1] == [a];
    ScannedSnoc(store, folders, filter, 1);
  }

  lemma ScannedOne(store: Store, a: FolderId, filter: Filter)
    ensures PrintedAll(store, [a], filter) == Printed(store.Results(a, filter), LookFor)
    ensures PagesAll(store, [a], filter) == PageCount(|store.Results(a, filter)|)
  {
    assert [a][..0] == [];
  }

  /** `itemsInFolder` over several folders: each folder in the order given, each from offset 0. */
  method ScanFolders(store: Store, folders: seq<FolderId>, filter: Filter) returns (printed: seq<Printout>, pauses: seq<nat>)
    ensures printed == PrintedAll(store, folders, filter)
    ensures |pauses| == PagesAll(store, folders, filter)
    ensures OneSecondEach(pauses)
  {
    printed, pauses := [], [];
    var i := 0;
    while i < |folders|
      invariant 0 <= i <= |folders|
      invariant printed == PrintedAll(store, folders[..i], filter)
      invariant |pauses| == PagesAll(store, folders[..i], filter)
      invariant OneSecondEach(pauses)
    {
      var p, s := ScanFolder(store, folders[i], filter);
      ScannedSnoc(store, folders, filter, i);
      OneSecondEachAppend(pauses, s);
      printed, pauses := printed + p, pauses + s;
      i := i + 1;
    }
    assert folders[..|folders|] == folders;
  }

  /** The script. `identifiers` is what the folder lookup by the name "NDR Processed"
      returned; the last one is used, and without one the script fails before
      any search. Otherwise the NDR folder and then Deleted Items are scanned. */
  method ScanNdrsMain(store: Store, identifiers: seq<CleanAccount.Identifier>, before: int)
    returns (r: Result<seq<Printout>>, pauses: seq<nat>)
    ensures r.Err? <==> identifiers == []
    ensures r.Err? ==> r.message == "Could not find NDR Processed folder." && pauses == []
    ensures OneSecondEach(pauses)
    ensures r.Ok? ==>
              var ndr := identifiers[|identifiers| - 1].id;
              && r.value == Printed(store.Results(ndr, NdrFilter(before)), LookFor)
                            + Printed(store.Results(WellKnown(DeletedItems), NdrFilter(before)), LookFor)
              && |pauses| == PageCount(|store.Results(ndr, NdrFilter(before))|)
                             + PageCount(|store.Results(WellKnown(DeletedItems), NdrFilter(before))|)
  {
    if identifiers == [] {
      return Err("Could not find NDR Processed folder."), [];
    }
    var ndrFolder := identifiers[|identifiers| - 1];
    var folders := [ndrFolder.id, WellKnown(DeletedItems)];
    var printed;
    printed, pauses := ScanFolders(store, folders, NdrFilter(before));
    ScannedTwo(store, ndrFolder.id, WellKnown(DeletedItems), NdrFilter(before));
    r := Ok(printed);
  }
}
