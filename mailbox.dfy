/** The remote mailbox as the scripts see it through the mailbox protocol: folders
    of items, a folder hierarchy, contact groups, and the calls that search, load,
    move, delete, tag and save. The store answers searches deterministically from
    its current contents; every state-changing call is recorded in `calls`. */
module Mailbox {
  import opened Wrappers
  import opened Text
  import opened Paging

  type ItemId = nat

  datatype WellKnownFolder = Inbox | SentItems | Calendar | DeletedItems | Contacts

  datatype FolderId = WellKnown(name: WellKnownFolder) | Custom(key: nat)

  /** A folder as a folder search reports it; `topLevel` marks a direct child of the message-folder root. */
  datatype FolderInfo = FolderInfo(id: FolderId, displayName: string, topLevel: bool)

  /** A recipient; the address may be missing. */
  datatype EmailAddress = EmailAddress(name: string, address: Option<string>)

  /** The declared type of an extended (MAPI) property. */
  datatype FieldType = StringField | NumberField | DateField

  datatype PropertyValue = Str(s: string) | Num(n: int)

  /** A mail item with every property the scripts load. Times are epoch milliseconds;
      extended properties are keyed by tag and declared type. */
  datatype Item = Item(
    id: ItemId,
    itemClass: string,
    subject: string,
    textBody: string,
    body: string,
    displayTo: string,
    toRecipients: seq<EmailAddress>,
    internetMessageId: string,
    created: int,
    sent: int,
    categories: seq<string>,
    extended: map<(nat, FieldType), PropertyValue>)

  /** One server-side restriction; a filter is their conjunction. String
      restrictions are compared ignoring case. */
  datatype Condition =
    | ClassIs(itemClass: string)
    | ClassContains(fragment: string)
    | CreatedBefore(before: int)
    | CreatedAfter(after: int)
    | MessageIdIs(messageId: string)
    | LacksCategory(category: string)

  type Filter = seq<Condition>

  predicate Holds(c: Condition, item: Item) {
    match c
    case ClassIs(cls) => EqualsIgnoreCase(item.itemClass, cls)
    case ClassContains(fragment) => ContainsIgnoreCase(item.itemClass, fragment)
    case CreatedBefore(t) => item.created < t
    case CreatedAfter(t) => item.created > t
    case MessageIdIs(m) => EqualsIgnoreCase(item.internetMessageId, m)
    case LacksCategory(tag) => forall k :: 0 <= k < |item.categories| ==> !EqualsIgnoreCase(item.categories[k], tag)
  }

  predicate Matches(filter: Filter, item: Item) {
    forall k :: 0 <= k < |filter| ==> Holds(filter[k], item)
  }

  /** The items of a folder that satisfy a filter, in folder order. */
  function Matching(items: seq<Item>, filter: Filter): (r: seq<Item>)
    ensures |r| <= |items|
    ensures forall x :: x in r ==> x in items && Matches(filter, x)
    ensures forall x :: x in items && Matches(filter, x) ==> x in r
  {
    if items == [] then []
    else (if Matches(filter, items[0]) then [items[0]] else []) + Matching(items[1..], filter)
  }

  lemma {:induction false} MatchingAppend(a: seq<Item>, b: seq<Item>, filter: Filter)
    ensures Matching(a + b, filter) == Matching(a, filter) + Matching(b, filter)
    decreases |a|
  {
    if a != [] {
      assert (a + b)[1..] == a[1..] + b;
      MatchingAppend(a[1..], b, filter);
    } else {
      assert a + b == b;
    }
  }

  /** Every item of `items` satisfies `filter`; every item a search returns does. */
  ghost predicate AllMatch(items: seq<Item>, filter: Filter) {
    forall x :: x in items ==> Matches(filter, x)
  }

  lemma AllMatchAppend(a: seq<Item>, b: seq<Item>, filter: Filter)
    requires AllMatch(a, filter) && AllMatch(b, filter)
    ensures AllMatch(a + b, filter)
  {
  }

  /** The items of `s` whose id is in `ids`, and the others. */
  function Picked(s: seq<Item>, ids: set<ItemId>): seq<Item> {
    if s == [] then [] else (if s[0].id in ids then [s[0]] else []) + Picked(s[1..], ids)
  }

  function Rest(s: seq<Item>, ids: set<ItemId>): seq<Item> {
    if s == [] then [] else (if s[0].id in ids then [] else [s[0]]) + Rest(s[1..], ids)
  }

  lemma {:induction false} PickedRestMatching(s: seq<Item>, ids: set<ItemId>, filter: Filter)
    ensures |Matching(Picked(s, ids), filter)| + |Matching(Rest(s, ids), filter)| == |Matching(s, filter)|
    decreases |s|
  {
    if s != [] {
      PickedRestMatching(s[1..], ids, filter);
      var head := if s[0].id in ids then [s[0]] else [];
      var tail := if s[0].id in ids then [] else [s[0]];
      MatchingAppend(head, Picked(s[1..], ids), filter);
      MatchingAppend(tail, Rest(s[1..], ids), filter);
      assert [s[0]][1..] == [];
    }
  }

  /** Adding a category can only make `LacksCategory` restrictions fail. */
  function Tagged(x: Item, id: ItemId, tag: string): Item {
    if x.id == id then x.(categories := x.categories + [tag]) else x
  }

  function TagAll(s: seq<Item>, id: ItemId, tag: string): (r: seq<Item>)
    ensures |r| == |s|
    ensures forall k :: 0 <= k < |s| ==> r[k] == Tagged(s[k], id, tag)
  {
    if s == [] then [] else [Tagged(s[0], id, tag)] + TagAll(s[1..], id, tag)
  }

  lemma TaggedMatchesOnlyIfMatched(x: Item, id: ItemId, tag: string, filter: Filter)
    ensures Matches(filter, Tagged(x, id, tag)) ==> Matches(filter, x)
  {
    if Matches(filter, Tagged(x, id, tag)) && x.id == id {
      forall k | 0 <= k < |filter| ensures Holds(filter[k], x) {
        assert Holds(filter[k], Tagged(x, id, tag));
        if filter[k].LacksCategory? {
          var y := Tagged(x, id, tag);
          forall j | 0 <= j < |x.categories| ensures !EqualsIgnoreCase(x.categories[j], filter[k].category) {
            assert y.categories[j] == x.categories[j];
          }
        }
      }
    }
  }

  lemma {:induction false} TagAllMatching(s: seq<Item>, id: ItemId, tag: string, filter: Filter)
    ensures |Matching(TagAll(s, id, tag), filter)| <= |Matching(s, filter)|
    decreases |s|
  {
    if s != [] {
      TagAllMatching(s[1..], id, tag, filter);
      TaggedMatchesOnlyIfMatched(s[0], id, tag, filter);
      assert TagAll(s, id, tag)[1..] == TagAll(s[1..], id, tag);
    }
  }

  /** Contents of every folder after the items of `from` whose id is in `ids`
      leave it, appended to `dest` when there is one (a move) or dropped (a hard delete). */
  function Relocated(folders: map<FolderId, seq<Item>>, from: FolderId, ids: set<ItemId>, dest: Option<FolderId>): map<FolderId, seq<Item>> {
    var source := if from in folders then folders[from] else [];
    var afterRemoval := folders[from := Rest(source, ids)];
    match dest
    case None => afterRemoval
    case Some(d) => afterRemoval[d := (if d in afterRemoval then afterRemoval[d] else []) + Picked(source, ids)]
  }

  /** A relocation out of `from` never adds results to a search of `from`. */
  lemma RelocatedShrinks(folders: map<FolderId, seq<Item>>, from: FolderId, ids: set<ItemId>, dest: Option<FolderId>, filter: Filter)
    ensures var source := if from in folders then folders[from] else [];
            var after := Relocated(folders, from, ids, dest);
            from in after && |Matching(after[from], filter)| <= |Matching(source, filter)|
  {
    var source := if from in folders then folders[from] else [];
    PickedRestMatching(source, ids, filter);
    if dest.Some? && dest.value == from {
      MatchingAppend(Rest(source, ids), Picked(source, ids), filter);
    }
  }

  /** A relocation out of `from` leaves every folder other than `from` and the destination as it was. */
  lemma RelocatedKeepsOthers(folders: map<FolderId, seq<Item>>, from: FolderId, ids: set<ItemId>, dest: Option<FolderId>, g: FolderId)
    requires g != from && (dest.None? || dest.value != g)
    ensures var after := Relocated(folders, from, ids, dest);
            (g in after <==> g in folders) && (g in folders ==> after[g] == folders[g])
  {
  }

  /** The contents of folder `g` in a store's folder map. */
  function ContentsIn(folders: map<FolderId, seq<Item>>, g: FolderId): seq<Item> {
    if g in folders then folders[g] else []
  }

  /** A relocation out of `from` elsewhere leaves in `from` the items not relocated. */
  lemma RelocatedSource(folders: map<FolderId, seq<Item>>, from: FolderId, ids: set<ItemId>, dest: Option<FolderId>)
    requires dest.None? || dest.value != from
    ensures ContentsIn(Relocated(folders, from, ids, dest), from) == Rest(ContentsIn(folders, from), ids)
  {
  }

  /** No folder other than `folder` and Deleted Items changed from `before` to `after`. */
  ghost predicate KeepsOthers(before: map<FolderId, seq<Item>>, after: map<FolderId, seq<Item>>, folder: FolderId) {
    forall g :: g != folder && g != WellKnown(DeletedItems) ==> ContentsIn(after, g) == ContentsIn(before, g)
  }

  /** Moving items out of `folder` into Deleted Items, or deleting them for good,
      changes no other folder. */
  lemma KeepsOthersStep(a: map<FolderId, seq<Item>>, b: map<FolderId, seq<Item>>, folder: FolderId,
                        ids: set<ItemId>, dest: Option<FolderId>)
    requires KeepsOthers(a, b, folder)
    requires dest.None? || dest.value == WellKnown(DeletedItems)
    ensures KeepsOthers(a, Relocated(b, folder, ids, dest), folder)
  {
    forall g | g != folder && g != WellKnown(DeletedItems)
      ensures ContentsIn(Relocated(b, folder, ids, dest), g) == ContentsIn(a, g)
    {
      RelocatedKeepsOthers(b, folder, ids, dest, g);
    }
  }

  lemma KeepsOthersTrans(a: map<FolderId, seq<Item>>, b: map<FolderId, seq<Item>>, c: map<FolderId, seq<Item>>, folder: FolderId)
    requires KeepsOthers(a, b, folder) && KeepsOthers(b, c, folder)
    ensures KeepsOthers(a, c, folder)
  {
  }

  /** An item left behind by a relocation was in the folder and is not one of those taken. */
  lemma {:induction false} RestMembers(s: seq<Item>, ids: set<ItemId>, x: Item)
    requires x in Rest(s, ids)
    ensures x in s && x.id !in ids
    decreases |s|
  {
    if s[0].id in ids || x != s[0] {
      RestMembers(s[1..], ids, x);
    }
  }

  datatype Member = Member(name: string, address: string)

  /** A contact group (distribution list) in the Contacts folder. */
  datatype ContactGroup = ContactGroup(displayName: string, members: seq<Member>)

  datatype ServiceResult = Success | Warning | Error

  /** A state-changing call the store received. */
  datatype Call =
    | ItemMoved(id: ItemId, destination: FolderId)
    | ItemsDeleted(ids: seq<ItemId>, hard: bool)
    | ItemUpdated(id: ItemId)
    | FolderSaved(displayName: string)
    | GroupSaved(displayName: string)
    | GroupUpdated(group: nat)

  /** The moves in a call log, in order. */
  function Moves(calls: seq<Call>): (r: seq<Call>)
    ensures |r| <= |calls|
  {
    if calls == [] then [] else (if calls[0].ItemMoved? then [calls[0]] else []) + Moves(calls[1..])
  }

  /** The moves of a call log are exactly its `ItemMoved` entries. */
  lemma {:induction false} MovesMembers(calls: seq<Call>)
    ensures forall k :: 0 <= k < |Moves(calls)| ==> Moves(calls)[k].ItemMoved?
    ensures forall c :: c in Moves(calls) <==> c in calls && c.ItemMoved?
  {
    if calls != [] {
      MovesMembers(calls[1..]);
      assert calls == [calls[0]] + calls[1..];
    }
  }

  lemma {:induction false} MovesAppend(a: seq<Call>, b: seq<Call>)
    ensures Moves(a + b) == Moves(a) + Moves(b)
    decreases |a|
  {
    if a == [] {
      assert a + b == b;
    } else {
      assert (a + b)[1..] == a[1..] + b;
      assert (a + b)[0] == a[0];
      MovesAppend(a[1..], b);
      var head: seq<Call> := if a[0].ItemMoved? then [a[0]] else [];
      assert Moves(a + b) == head + (Moves(a[1..]) + Moves(b));
      assert head + (Moves(a[1..]) + Moves(b)) == (head + Moves(a[1..])) + Moves(b);
    }
  }

  lemma {:induction false} NoMoves(calls: seq<Call>)
    requires forall k :: 0 <= k < |calls| ==> !calls[k].ItemMoved?
    ensures Moves(calls) == []
  {
    if calls != [] {
      assert forall k :: 0 <= k < |calls| - 1 ==> calls[1..][k] == calls[k + 1];
      NoMoves(calls[1..]);
    }
  }

  /** Indices of the groups named `name` (compared ignoring case), in store order. */
  function GroupsNamed(groups: seq<ContactGroup>, name: string, from: nat): (r: seq<nat>)
    ensures forall k :: 0 <= k < |r| ==> from <= r[k] < |groups| && EqualsIgnoreCase(groups[r[k]].displayName, name)
    ensures forall g :: from <= g < |groups| && EqualsIgnoreCase(groups[g].displayName, name) ==> g in r
    decreases |groups| - from
  {
    if from >= |groups| then []
    else (if EqualsIgnoreCase(groups[from].displayName, name) then [from] else []) + GroupsNamed(groups, name, from + 1)
  }

  /** The folders named `name` (compared ignoring case), in the order a search lists them. */
  function FoldersNamed(list: seq<FolderInfo>, name: string, topLevelOnly: bool): (r: seq<FolderInfo>)
    ensures forall f :: f in r <==> f in list && EqualsIgnoreCase(f.displayName, name) && (topLevelOnly ==> f.topLevel)
  {
    if list == [] then []
    else (if EqualsIgnoreCase(list[0].displayName, name) && (topLevelOnly ==> list[0].topLevel) then [list[0]] else [])
         + FoldersNamed(list[1..], name, topLevelOnly)
  }

  function MaxCustomKey(list: seq<FolderInfo>): (k: nat)
    ensures forall f :: f in list && f.id.Custom? ==> f.id.key <= k
  {
    if list == [] then 0
    else
      var rest := MaxCustomKey(list[1..]);
      if list[0].id.Custom? && list[0].id.key > rest then list[0].id.key else rest
  }

  class Store {
    var folders: map<FolderId, seq<Item>>
    var folderList: seq<FolderInfo>
    var groups: seq<ContactGroup>
    var unloadable: set<ItemId>
    var calls: seq<Call>

    constructor (folders: map<FolderId, seq<Item>>, folderList: seq<FolderInfo>, groups: seq<ContactGroup>, unloadable: set<ItemId>)
      ensures this.folders == folders && this.folderList == folderList && this.groups == groups
      ensures this.unloadable == unloadable && calls == []
    {
      this.folders := folders;
      this.folderList := folderList;
      this.groups := groups;
      this.unloadable := unloadable;
      calls := [];
    }

    function Contents(f: FolderId): seq<Item>
      reads this
    {
      if f in folders then folders[f] else []
    }

    /** The results a search of folder `f` with `filter` currently has. */
    function Results(f: FolderId, filter: Filter): seq<Item>
      reads this
    {
      Matching(Contents(f), filter)
    }

    /** FindItems with an item view of `size` at `offset`. */
    method FindItems(f: FolderId, filter: Filter, size: nat, offset: nat) returns (r: FindResult<Item>)
      ensures r == FindPage(Results(f, filter), size, offset)
    {
      r := FindPage(Results(f, filter), size, offset);
    }

    /** LoadPropertiesForItems: the overall result is Success exactly when every item loads. */
    method LoadPropertiesForItems(items: seq<Item>) returns (overall: ServiceResult)
      ensures overall == Success <==> forall k :: 0 <= k < |items| ==> items[k].id !in unloadable
      ensures overall == Success || overall == Error
    {
      overall := Success;
      var k := 0;
      while k < |items|
        invariant 0 <= k <= |items|
        invariant overall == Success <==> forall j :: 0 <= j < k ==> items[j].id !in unloadable
        invariant overall == Success || overall == Error
      {
        if items[k].id in unloadable {
          overall := Error;
        }
        k := k + 1;
      }
    }

    /** Item.Move: the item leaves `from` and is appended to `dest`. */
    method Move(from: FolderId, id: ItemId, dest: FolderId)
      modifies this
      ensures folders == Relocated(old(folders), from, {id}, Some(dest))
      ensures calls == old(calls) + [ItemMoved(id, dest)]
      ensures folderList == old(folderList) && groups == old(groups) && unloadable == old(unloadable)
    {
      folders := Relocated(folders, from, {id}, Some(dest));
      calls := calls + [ItemMoved(id, dest)];
    }

    /** DeleteItems on items found in `from`: one response per id, Success for an
        id present there and Error otherwise; the items go to DeletedItems, or
        nowhere when `hard`. */
    method DeleteItems(from: FolderId, ids: seq<ItemId>, hard: bool) returns (responses: seq<ServiceResult>)
      modifies this
      ensures |responses| == |ids|
      ensures forall k :: 0 <= k < |ids| ==>
                responses[k] == (if exists x :: x in old(Contents(from)) && x.id == ids[k] then Success else Error)
      ensures folders == Relocated(old(folders), from, set k | 0 <= k < |ids| :: ids[k], if hard then None else Some(WellKnown(DeletedItems)))
      ensures calls == old(calls) + [ItemsDeleted(ids, hard)]
      ensures folderList == old(folderList) && groups == old(groups) && unloadable == old(unloadable)
    {
      var source := Contents(from);
      responses := seq(|ids|, k requires 0 <= k < |ids| => if exists x :: x in source && x.id == ids[k] then Success else Error);
      folders := Relocated(folders, from, set k | 0 <= k < |ids| :: ids[k], if hard then None else Some(WellKnown(DeletedItems)));
      calls := calls + [ItemsDeleted(ids, hard)];
    }

    /** `item.Categories.Add(tag)` followed by `item.Update`. */
    method AddCategory(f: FolderId, id: ItemId, tag: string)
      modifies this
      ensures folders == old(folders)[f := TagAll(old(Contents(f)), id, tag)]
      ensures calls == old(calls) + [ItemUpdated(id)]
      ensures folderList == old(folderList) && groups == old(groups) && unloadable == old(unloadable)
    {
      folders := folders[f := TagAll(Contents(f), id, tag)];
      calls := calls + [ItemUpdated(id)];
    }

    /** FindFolders by display name with a folder view of `size`: the first
        `size` matches and the total number of matches. */
    method FindFolders(name: string, size: nat, deep: bool) returns (found: seq<FolderInfo>, total: nat)
      ensures found == FoldersNamed(folderList, name, !deep)[..Min(size, |FoldersNamed(folderList, name, !deep)|)]
      ensures total == |FoldersNamed(folderList, name, !deep)|
    {
      var all := FoldersNamed(folderList, name, !deep);
      found := all[..Min(size, |all|)];
      total := |all|;
    }

    /** A deep FindFolders without a filter and a view of `size`. */
    method ListFolders(size: nat) returns (found: seq<FolderInfo>)
      ensures found == folderList[..Min(size, |folderList|)]
    {
      found := folderList[..Min(size, |folderList|)];
    }

    /** Folder.Save under the message-folder root: a new, empty top-level folder. */
    method SaveFolder(name: string) returns (created: FolderInfo)
      modifies this
      ensures created == FolderInfo(Custom(MaxCustomKey(old(folderList)) + 1), name, true)
      ensures folderList == old(folderList) + [created]
      ensures folders == old(folders)[created.id := []]
      ensures calls == old(calls) + [FolderSaved(name)]
      ensures groups == old(groups) && unloadable == old(unloadable)
    {
      created := FolderInfo(Custom(MaxCustomKey(folderList) + 1), name, true);
      folderList := folderList + [created];
      folders := folders[created.id := []];
      calls := calls + [FolderSaved(name)];
    }

    /** FindItems for contact groups by display name with an item view of `size`. */
    method FindGroups(name: string, size: nat) returns (hits: seq<nat>)
      ensures hits == GroupsNamed(groups, name, 0)[..Min(size, |GroupsNamed(groups, name, 0)|)]
      ensures forall k :: 0 <= k < |hits| ==> hits[k] < |groups|
    {
      var all := GroupsNamed(groups, name, 0);
      hits := all[..Min(size, |all|)];
    }

    /** ContactGroup.Save in the Contacts folder: a new group without members. */
    method SaveGroup(name: string) returns (g: nat)
      modifies this
      ensures g == |old(groups)| && groups == old(groups) + [ContactGroup(name, [])]
      ensures calls == old(calls) + [GroupSaved(name)]
      ensures folders == old(folders) && folderList == old(folderList) && unloadable == old(unloadable)
    {
      g := |groups|;
      groups := groups + [ContactGroup(name, [])];
      calls := calls + [GroupSaved(name)];
    }

    /** ContactGroup.Update: the group's members become `members`. */
    method UpdateGroup(g: nat, members: seq<Member>)
      requires g < |groups|
      modifies this
      ensures groups == old(groups)[g := old(groups)[g].(members := members)]
      ensures calls == old(calls) + [GroupUpdated(g)]
      ensures folders == old(folders) && folderList == old(folderList) && unloadable == old(unloadable)
    {
      groups := groups[g := groups[g].(members := members)];
      calls := calls + [GroupUpdated(g)];
    }
  }
}
