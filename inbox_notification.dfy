/** `inbox-notification`: tag every message of a folder that does not carry the
    processed tag yet, count them, and post one notice to a webhook when there
    was at least one. */
module InboxNotification {
  import opened Wrappers
  import opened Text
  import opened Paging
  import opened Mailbox
  import opened Http
  import NdrProcessor

  /** A validated configuration; the optional fields may be absent. */
  datatype InboxConfig = InboxConfig(
    processedTag: string,
    webhookUrl: string,
    mailboxName: string,
    folderName: Option<string>,
    customMessage: Option<string>,
    customText: Option<string>)

  /** The item view of the scan. */
  const PageSize := 100
  const DefaultMessage := "You have new support mail"

  /** A JavaScript string that is neither undefined nor empty, which is what `||` and `if` test. */
  predicate Truthy(s: Option<string>) {
    s.Some? && s.value != ""
  }

  /** The text of the notice when no custom text is configured. */
  function DefaultText(n: nat, mailboxName: string, mailboxLink: string): string {
    "You have " + NatToString(n) + " new message" + (if n > 1 then "s" else "")
    + " in the " + mailboxName + " mailbox - click here to access: " + mailboxLink
  }

  /** The content `invokeWebhook` posts: a configured message or text wins when truthy. */
  function Notice(n: nat, config: InboxConfig, mailboxLink: string): (p: Payload)
    ensures p.InboxNotice? && p.numNewMessages == n
    ensures p.message == (if Truthy(config.customMessage) then config.customMessage.value else DefaultMessage)
    ensures Truthy(config.customText) ==> p.text == config.customText.value
    ensures !Truthy(config.customText) ==> p.text == DefaultText(n, config.mailboxName, mailboxLink)
  {
    InboxNotice(
      if Truthy(config.customMessage) then config.customMessage.value else DefaultMessage,
      n,
      if Truthy(config.customText) then config.customText.value else DefaultText(n, config.mailboxName, mailboxLink))
  }

  /** The default text states the count in decimal and uses the plural exactly
      when there is more than one message: the character after "new message" is
      an `s` if and only if `n > 1`. */
  lemma {:induction false} DefaultTextNumber(n: nat, mailboxName: string, mailboxLink: string)
    ensures var head := "You have " + NatToString(n) + " new message";
            var text := DefaultText(n, mailboxName, mailboxLink);
            && StartsWith(text, head)
            && |text| > |head|
            && (text[|head|] == 's' <==> n > 1)
  {
    var head := "You have " + NatToString(n) + " new message";
    var plural := if n > 1 then "s" else "";
    var inThe := head + plural + " in the ";
    var named := inThe + mailboxName;
    var text := named + " mailbox - click here to access: " + mailboxLink;
    assert text == DefaultText(n, mailboxName, mailboxLink);
    TakeOfConcat(named + " mailbox - click here to access: ", mailboxLink, |head|);
    TakeOfConcat(named, " mailbox - click here to access: ", |head|);
    TakeOfConcat(inThe, mailboxName, |head|);
    TakeOfConcat(head + plural, " in the ", |head|);
    TakeOfConcat(head, plural, |head|);
    assert text[|head|] == inThe[|head|];
  }

  /** A prefix of a concatenation that fits in its left part is a prefix of that part. */
  lemma TakeOfConcat(x: string, y: string, k: nat)
    requires k <= |x|
    ensures (x + y)[..k] == x[..k]
  {
  }

  /** `invokeWebhook`: posts the notice once; "success" exactly when the post does not throw. */
  method InvokeWebhook(transport: Transport, n: nat, mailboxLink: string, config: InboxConfig) returns (success: bool)
    modifies transport
    ensures success == transport.reachable && transport.reachable == old(transport.reachable)
    ensures transport.posts == old(transport.posts) + [Post(config.webhookUrl, Notice(n, config, mailboxLink))]
  {
    success := transport.PostJson(config.webhookUrl, Notice(n, config, mailboxLink));
  }

  /** `getFolderIdFromName`: with a truthy name, a deep folder search for it with a
      view of one; the first match when there is any, and the Inbox otherwise. */
  method GetFolderIdFromName(store: Store, folderName: Option<string>) returns (id: FolderId)
    ensures var all := FoldersNamed(store.folderList, folderName.GetOr(""), false);
            id == (if Truthy(folderName) && |all| > 0 then all[0].id else WellKnown(Inbox))
  {
    if Truthy(folderName) {
      var found, total := store.FindFolders(folderName.value, 1, true);
      if total > 0 {
        return found[0].id;
      }
    }
    id := WellKnown(Inbox);
  }

  /** The folder searched is the Inbox or a folder whose display name matches the
      configured one; it is the Inbox whenever no name is configured. */
  lemma FolderIsNamedOrInbox(list: seq<FolderInfo>, folderName: Option<string>, id: FolderId)
    requires var all := FoldersNamed(list, folderName.GetOr(""), false);
             id == (if Truthy(folderName) && |all| > 0 then all[0].id else WellKnown(Inbox))
    ensures !Truthy(folderName) ==> id == WellKnown(Inbox)
    ensures id == WellKnown(Inbox) || exists f :: f in list && f.id == id && EqualsIgnoreCase(f.displayName, folderName.value)
  {
    var all := FoldersNamed(list, folderName.GetOr(""), false);
    if Truthy(folderName) && |all| > 0 {
      assert all[0] in all;
    }
  }

  /** The restriction of the scan: not carrying the processed tag. */
  function NewFilter(tag: string): Filter {
    [LacksCategory(tag)]
  }

  /** A message that has just been tagged no longer matches the scan's restriction. */
  lemma TaggedIsNoLongerNew(x: Item, tag: string)
    ensures !Matches(NewFilter(tag), Tagged(x, x.id, tag))
  {
    var y := Tagged(x, x.id, tag);
    assert y.categories[|x.categories|] == tag;
    assert EqualsIgnoreCase(tag, tag);
    assert !Holds(NewFilter(tag)[0], y);
  }

  /** The updates of some items, in order. */
  function Updates(items: seq<Item>): (r: seq<Call>)
    ensures |r| == |items|
  {
    if items == [] then [] else Updates(items[..|items| - 1]) + [ItemUpdated(items[|items| - 1].id)]
  }

  lemma {:induction false} UpdatesIndex(items: seq<Item>, k: nat)
    requires k < |items|
    ensures Updates(items)[k] == ItemUpdated(items[k].id)
  {
    if k < |items| - 1 {
      UpdatesIndex(items[..|items| - 1], k);
    }
  }

  lemma {:induction false} UpdatesAppend(a: seq<Item>, b: seq<Item>)
    ensures Updates(a + b) == Updates(a) + Updates(b)
    decreases |b|
  {
    if b == [] {
      assert a + b == a;
    } else {
      assert (a + b)[..|a + b| - 1] == a + b[..|b| - 1];
      UpdatesAppend(a, b[..|b| - 1]);
    }
  }

  /** The call log after one more page holds that page's updates after the earlier ones. */
  lemma UpdatesStep(calls0: seq<Call>, calls1: seq<Call>, calls2: seq<Call>, before: seq<Item>, page: seq<Item>)
    requires calls1 == calls0 + Updates(before)
    requires calls2 == calls1 + Updates(page)
    ensures calls2 == calls0 + Updates(before + page)
  {
    UpdatesAppend(before, page);
    assert calls2 == calls0 + (Updates(before) + Updates(page));
  }

  /** A folder's contents after each message of `items`, in order, gets the tag. */
  function TagEach(s: seq<Item>, items: seq<Item>, tag: string): (r: seq<Item>)
    ensures |r| == |s|
  {
    if items == [] then s else TagAll(TagEach(s, items[..|items| - 1], tag), items[|items| - 1].id, tag)
  }

  lemma TagEachStep(s: seq<Item>, items: seq<Item>, j: nat, tag: string)
    requires j < |items|
    ensures TagEach(s, items[..j + 1], tag) == TagAll(TagEach(s, items[..j], tag), items[j].id, tag)
  {
    assert items[..j + 1][..j] == items[..j];
  }

  lemma {:induction false} TagEachAppend(s: seq<Item>, a: seq<Item>, b: seq<Item>, tag: string)
    ensures TagEach(s, a + b, tag) == TagEach(TagEach(s, a, tag), b, tag)
    decreases |b|
  {
    if b == [] {
      assert a + b == a;
    } else {
      assert (a + b)[..|a + b| - 1] == a + b[..|b| - 1];
      TagEachAppend(s, a, b[..|b| - 1], tag);
    }
  }

  /** Some message of `items` has identifier `id`. */
  predicate Lists(items: seq<Item>, id: ItemId) {
    exists i :: 0 <= i < |items| && items[i].id == id
  }

  /** `r` is `s` with the tag added to the messages listed in `items`: the same
      messages in the same order, each keeping all it had, its categories
      followed by copies of the tag only, and some copy exactly when it is listed. */
  ghost predicate TaggedFrom(s: seq<Item>, r: seq<Item>, items: seq<Item>, tag: string) {
    && |r| == |s|
    && (forall k :: 0 <= k < |s| ==> r[k] == s[k].(categories := r[k].categories))
    && (forall k :: 0 <= k < |s| ==> |s[k].categories| <= |r[k].categories| && r[k].categories[..|s[k].categories|] == s[k].categories)
    && (forall k, j :: 0 <= k < |s| && |s[k].categories| <= j < |r[k].categories| ==> r[k].categories[j] == tag)
    && (forall k :: 0 <= k < |s| ==> (|s[k].categories| < |r[k].categories| <==> Lists(items, s[k].id)))
  }

  /** Tagging the messages of `items` adds the tag to exactly the messages of the
      folder they list, and changes nothing else. */
  lemma {:induction false} TagEachMeaning(s: seq<Item>, items: seq<Item>, tag: string)
    ensures TaggedFrom(s, TagEach(s, items, tag), items, tag)
    decreases |items|
  {
    if items != [] {
      var init := items[..|items| - 1];
      var id := items[|items| - 1].id;
      TagEachMeaning(s, init, tag);
      var r0 := TagEach(s, init, tag);
      var r := TagAll(r0, id, tag);
      forall k | 0 <= k < |s|
        ensures r[k] == s[k].(categories := r[k].categories)
        ensures |s[k].categories| <= |r[k].categories| && r[k].categories[..|s[k].categories|] == s[k].categories
        ensures forall j :: |s[k].categories| <= j < |r[k].categories| ==> r[k].categories[j] == tag
        ensures |s[k].categories| < |r[k].categories| <==> Lists(items, s[k].id)
      {
        ListsSnoc(items, s[k].id);
        TagStepAt(s[k], r0[k], id, tag, Lists(init, s[k].id), Lists(items, s[k].id));
      }
    }
  }

  /** `items` lists `id` exactly when its prefix does or its last message has it. */
  lemma ListsSnoc(items: seq<Item>, id: ItemId)
    requires items != []
    ensures Lists(items, id) <==> Lists(items[..|items| - 1], id) || items[|items| - 1].id == id
  {
    var init := items[..|items| - 1];
    if Lists(items, id) && items[|items| - 1].id != id {
      var i :| 0 <= i < |items| && items[i].id == id;
      assert init[i].id == id;
    }
    if Lists(init, id) {
      var i :| 0 <= i < |init| && init[i].id == id;
      assert items[i].id == id;
    }
  }

  /** One more tagging of `id` keeps a message tagged as `TaggedFrom` says, with
      `id` now listed. */
  lemma TagStepAt(x: Item, y: Item, id: ItemId, tag: string, listed: bool, listedNow: bool)
    requires y == x.(categories := y.categories)
    requires |x.categories| <= |y.categories| && y.categories[..|x.categories|] == x.categories
    requires forall j :: |x.categories| <= j < |y.categories| ==> y.categories[j] == tag
    requires |x.categories| < |y.categories| <==> listed
    requires listedNow <==> listed || x.id == id
    ensures var z := Tagged(y, id, tag);
            && z == x.(categories := z.categories)
            && |x.categories| <= |z.categories| && z.categories[..|x.categories|] == x.categories
            && (forall j :: |x.categories| <= j < |z.categories| ==> z.categories[j] == tag)
            && (|x.categories| < |z.categories| <==> listedNow)
  {
    if x.id == id {
      assert (y.categories + [tag])[..|x.categories|] == y.categories[..|x.categories|];
    }
  }

  /** After the scan, no message it received is new any more: each such message
      of the folder carries the tag. */
  lemma TaggedAreNoLongerNew(s: seq<Item>, items: seq<Item>, tag: string)
    ensures forall k :: 0 <= k < |s| && Lists(items, s[k].id) ==> !Matches(NewFilter(tag), TagEach(s, items, tag)[k])
  {
    var r := TagEach(s, items, tag);
    TagEachMeaning(s, items, tag);
    forall k | 0 <= k < |s| && Lists(items, s[k].id) ensures !Matches(NewFilter(tag), r[k]) {
      assert r[k].categories[|s[k].categories|] == tag;
      assert EqualsIgnoreCase(tag, tag);
      assert !Holds(NewFilter(tag)[0], r[k]);
    }
  }

  /** The loop body for one page: each message gets the tag, is updated and counted.
      Tagging never adds results to the search. */
  method TagPage(store: Store, folder: FolderId, tag: string, items: seq<Item>) returns (tagged: nat)
    modifies store
    ensures tagged == |items|
    ensures store.Contents(folder) == TagEach(old(store.Contents(folder)), items, tag)
    ensures store.folders - {folder} == old(store.folders) - {folder}
    ensures store.calls == old(store.calls) + Updates(items)
    ensures |store.Results(folder, NewFilter(tag))| <= |old(store.Results(folder, NewFilter(tag)))|
    ensures store.folderList == old(store.folderList) && store.groups == old(store.groups)
    ensures store.unloadable == old(store.unloadable)
  {
    tagged := 0;
    ghost var calls0, results0 := store.calls, |store.Results(folder, NewFilter(tag))|;
    ghost var folders0, contents0 := store.folders, store.Contents(folder);
    ghost var folderList0, groups0, unloadable0 := store.folderList, store.groups, store.unloadable;
    var j := 0;
    while j < |items|
      invariant 0 <= j <= |items| && tagged == j
      invariant store.Contents(folder) == TagEach(contents0, items[..j], tag)
      invariant store.folders - {folder} == folders0 - {folder}
      invariant store.calls == calls0 + Updates(items[..j])
      invariant |store.Results(folder, NewFilter(tag))| <= results0
      invariant store.folderList == folderList0 && store.groups == groups0 && store.unloadable == unloadable0
    {
      TagNext(store, folder, tag, items, j, contents0, calls0, folders0);
      tagged := tagged + 1;
      j := j + 1;
    }
    assert items[..|items|] == items;
  }

  /** `TagOne` on the next message of a page, stated over the page so far. */
  method TagNext(store: Store, folder: FolderId, tag: string, items: seq<Item>, j: nat,
                 ghost contents0: seq<Item>, ghost calls0: seq<Call>, ghost folders0: map<FolderId, seq<Item>>)
    modifies store
    requires j < |items|
    requires store.Contents(folder) == TagEach(contents0, items[..j], tag)
    requires store.folders - {folder} == folders0 - {folder}
    requires store.calls == calls0 + Updates(items[..j])
    ensures store.Contents(folder) == TagEach(contents0, items[..j + 1], tag)
    ensures store.folders - {folder} == folders0 - {folder}
    ensures store.calls == calls0 + Updates(items[..j + 1])
    ensures |store.Results(folder, NewFilter(tag))| <= |old(store.Results(folder, NewFilter(tag)))|
    ensures store.folderList == old(store.folderList) && store.groups == old(store.groups)
    ensures store.unloadable == old(store.unloadable)
  {
    TagOne(store, folder, tag, items[j].id);
    TagEachStep(contents0, items, j, tag);
    UpdatesStep(calls0, old(store.calls), store.calls, items[..j], [items[j]]);
    assert items[..j] + [items[j]] == items[..j + 1];
  }

  /** The update of one message: it gets the tag, which can only take it out of the search. */
  method TagOne(store: Store, folder: FolderId, tag: string, id: ItemId)
    modifies store
    ensures store.folders == old(store.folders)[folder := TagAll(old(store.Contents(folder)), id, tag)]
    ensures store.Contents(folder) == TagAll(old(store.Contents(folder)), id, tag)
    ensures store.folders - {folder} == old(store.folders) - {folder}
    ensures store.calls == old(store.calls) + [ItemUpdated(id)]
    ensures |store.Results(folder, NewFilter(tag))| <= |old(store.Results(folder, NewFilter(tag)))|
    ensures store.folderList == old(store.folderList) && store.groups == old(store.groups)
    ensures store.unloadable == old(store.unloadable)
  {
    ghost var contents := store.Contents(folder);
    TagAllMatching(contents, id, tag, NewFilter(tag));
    store.AddCategory(folder, id, tag);
    assert store.Contents(folder) == TagAll(contents, id, tag);
    assert store.folders - {folder} == old(store.folders) - {folder};
  }

  /** One request of the scan: the view of a hundred at `offset` over the
      folder's current results, each message received tagged. */
  method TagScanPage(store: Store, folder: FolderId, tag: string, offset: nat,
                     ghost offsets: seq<nat>, ghost pages: seq<FindResult<Item>>, ghost contents0: seq<Item>)
    returns (found: FindResult<Item>, tagged: nat, ghost offsets': seq<nat>, ghost pages': seq<FindResult<Item>>)
    modifies store
    requires OpenTrace(offsets, pages, false, offset)
    requires pages == [] ==> store.Contents(folder) == contents0
    requires |pages| > 0 ==> pages[0] == FindPage(Matching(contents0, NewFilter(tag)), PageSize, 0)
    ensures found == FindPage(old(store.Results(folder, NewFilter(tag))), PageSize, offset)
    ensures AllMatch(found.items, NewFilter(tag))
    ensures offsets' == offsets + [offset] && pages' == pages + [found]
    ensures pages'[0] == FindPage(Matching(contents0, NewFilter(tag)), PageSize, 0)
    ensures found.moreAvailable ==> OpenTrace(offsets', pages', false, found.nextPageOffset)
    ensures !found.moreAvailable ==> Trace(offsets', pages', false)
    ensures found.moreAvailable ==>
              Slack(|store.Results(folder, NewFilter(tag))|, found.nextPageOffset) < Slack(|old(store.Results(folder, NewFilter(tag)))|, offset)
    ensures tagged == |found.items|
    ensures store.Contents(folder) == TagEach(old(store.Contents(folder)), found.items, tag)
    ensures store.folders - {folder} == old(store.folders) - {folder}
    ensures store.calls == old(store.calls) + Updates(found.items)
    ensures store.folderList == old(store.folderList) && store.groups == old(store.groups)
    ensures store.unloadable == old(store.unloadable)
  {
    ghost var before := |store.Results(folder, NewFilter(tag))|;
    found := store.FindItems(folder, NewFilter(tag), PageSize, offset);
    tagged := TagPage(store, folder, tag, found.items);
    TraceStep(offsets, pages, false, offset, PageSize, FindPage(Matching(contents0, NewFilter(tag)), PageSize, 0), found,
              before, |store.Results(folder, NewFilter(tag))|);
    offsets', pages' := offsets + [offset], pages + [found];
  }

  /** The paging loop of `processInbox`: views of a hundred from offset 0,
      continuing at `NextPageOffset` while `MoreAvailable`; every message
      received lacked the tag, is tagged, updated and counted once. Tagging takes
      messages out of the results while the offsets advance, so nothing is claimed
      about messages the offsets skip. */
  method TagNewMessages(store: Store, folder: FolderId, tag: string)
    returns (numNew: nat, ghost offsets: seq<nat>, ghost pages: seq<FindResult<Item>>)
    modifies store
    ensures Trace(offsets, pages, false)
    ensures pages[0] == FindPage(Matching(old(store.Contents(folder)), NewFilter(tag)), PageSize, 0)
    ensures numNew == |Yielded(pages)|
    ensures AllMatch(Yielded(pages), NewFilter(tag))
    ensures store.Contents(folder) == TagEach(old(store.Contents(folder)), Yielded(pages), tag)
    ensures store.folders - {folder} == old(store.folders) - {folder}
    ensures store.calls == old(store.calls) + Updates(Yielded(pages))
    ensures store.folderList == old(store.folderList) && store.groups == old(store.groups)
    ensures store.unloadable == old(store.unloadable)
  {
    ghost var contents0, folders0 := store.Contents(folder), store.folders;
    offsets, pages := [], [];
    numNew := 0;
    var offset := 0;
    while true
      invariant OpenTrace(offsets, pages, false, offset)
      invariant pages == [] ==> store.Contents(folder) == contents0
      invariant |pages| > 0 ==> pages[0] == FindPage(Matching(contents0, NewFilter(tag)), PageSize, 0)
      invariant numNew == |Yielded(pages)|
      invariant AllMatch(Yielded(pages), NewFilter(tag))
      invariant store.calls == old(store.calls) + Updates(Yielded(pages))
      invariant store.Contents(folder) == TagEach(contents0, Yielded(pages), tag)
      invariant store.folders - {folder} == folders0 - {folder}
      invariant store.folderList == old(store.folderList) && store.groups == old(store.groups)
      invariant store.unloadable == old(store.unloadable)
      decreases Slack(|store.Results(folder, NewFilter(tag))|, offset)
    {
      var found, tagged;
      ghost var yielded := Yielded(pages);
      ghost var calls, pages0 := store.calls, pages;
      found, tagged, offsets, pages := TagScanPage(store, folder, tag, offset, offsets, pages, contents0);
      YieldedAppend(pages0, found);
      AllMatchAppend(yielded, found.items, NewFilter(tag));
      UpdatesStep(old(store.calls), calls, store.calls, yielded, found.items);
      TagEachAppend(contents0, yielded, found.items, tag);
      numNew := numNew + tagged;
      if !found.moreAvailable {
        break;
      }
      offset := found.nextPageOffset;
    }
  }

  /** What a scan tagged: the k-th update is of the k-th message received, and
      that message did not carry the tag when it was found. */
  lemma {:induction false} TaggedOnlyNew(items: seq<Item>, tag: string)
    requires AllMatch(items, NewFilter(tag))
    ensures forall k :: 0 <= k < |items| ==>
              && Updates(items)[k] == ItemUpdated(items[k].id)
              && forall j :: 0 <= j < |items[k].categories| ==> !EqualsIgnoreCase(items[k].categories[j], tag)
  {
    forall k | 0 <= k < |items|
      ensures Updates(items)[k] == ItemUpdated(items[k].id)
      ensures forall j :: 0 <= j < |items[k].categories| ==> !EqualsIgnoreCase(items[k].categories[j], tag)
    {
      assert items[k] in items;
      assert Holds(NewFilter(tag)[0], items[k]);
      UpdatesIndex(items, k);
    }
  }

  /** `processInbox`. Without a configuration it exits with 4 and touches nothing.
      Otherwise it resolves the folder, tags the new messages in it and, when
      there was at least one, posts a single notice with their number; the
      result of the post is not looked at. `mailboxLink` is the service URL with
      the path `/owa`. */
  method ProcessInbox(store: Store, transport: Transport, config: Option<InboxConfig>, mailboxLink: string)
    returns (exit: NdrProcessor.Exit, numNew: nat, folder: FolderId, ghost offsets: seq<nat>, ghost pages: seq<FindResult<Item>>)
    modifies store, transport
    ensures config.None? <==> exit == NdrProcessor.Exited(4)
    ensures config.None? ==> store.folders == old(store.folders) && store.calls == old(store.calls) && transport.posts == old(transport.posts)
    ensures config.Some? ==>
              var cfg := config.value;
              var all := FoldersNamed(old(store.folderList), cfg.folderName.GetOr(""), false);
              && folder == (if Truthy(cfg.folderName) && |all| > 0 then all[0].id else WellKnown(Inbox))
              && Trace(offsets, pages, false)
              && pages[0] == FindPage(Matching(old(store.Contents(folder)), NewFilter(cfg.processedTag)), PageSize, 0)
              && numNew == |Yielded(pages)|
              && AllMatch(Yielded(pages), NewFilter(cfg.processedTag))
              && store.Contents(folder) == TagEach(old(store.Contents(folder)), Yielded(pages), cfg.processedTag)
              && store.folders - {folder} == old(store.folders) - {folder}
              && store.calls == old(store.calls) + Updates(Yielded(pages))
              && transport.posts == old(transport.posts)
                                    + (if numNew > 0 then [Post(cfg.webhookUrl, Notice(numNew, cfg, mailboxLink))] else [])
  {
    numNew, folder, offsets, pages := 0, WellKnown(Inbox), [], [];
    if config.None? {
      return NdrProcessor.Exited(4), numNew, folder, offsets, pages;
    }
    var cfg := config.value;
    folder := GetFolderIdFromName(store, cfg.folderName);
    numNew, offsets, pages := TagNewMessages(store, folder, cfg.processedTag);
    if numNew > 0 {
      var _ := InvokeWebhook(transport, numNew, mailboxLink, cfg);
    }
    exit := NdrProcessor.Completed;
  }
}
