/** Helpers the scripts share: reading a JSON configuration from the environment,
    turning a server-side collection into an array, and finding or creating a
    contact group by name. */
module EwsConnect {
  import opened Wrappers
  import opened Text
  import opened Paging
  import opened Mailbox

  /** Reads an environment variable holding JSON. `raw` is the variable (None when
      unset) and `parse` stands for `JSON.parse`, None where that throws. */
  function GetConfigFromEnvironmentVariable<T>(raw: Option<string>, parse: string -> Option<T>): (r: Option<T>)
    ensures r.Some? <==> raw.Some? && raw.value != "" && parse(raw.value).Some?
    ensures r.Some? ==> r == parse(raw.value)
  {
    if raw.Some? && raw.value != "" then parse(raw.value) else None
  }

  /** `collectionToArray`: `Count` elements, element `i` being `_getItem(i)`. */
  function CollectionToArray<T>(collection: seq<T>): (r: seq<T>)
    ensures |r| == |collection|
    ensures forall i :: 0 <= i < |r| ==> r[i] == collection[i]
    ensures r == collection
  {
    if collection == [] then [] else [collection[0]] + CollectionToArray(collection[1..])
  }

  /** A contact group bound by its position in the store. */
  datatype GroupHandle = GroupHandle(index: nat, group: ContactGroup)

  /** What a find-or-create leaves behind: the group obtained (None when the name
      is ambiguous), the groups afterwards and the calls made. */
  datatype GroupLookup = GroupLookup(handle: Option<GroupHandle>, groups: seq<ContactGroup>, newCalls: seq<Call>)

  /** The effect of `findOrCreateContactGroup(name)` on the contact groups `groups`. */
  function FindOrCreateEffect(groups: seq<ContactGroup>, name: string): (r: GroupLookup)
    ensures r.handle.None? <==> |GroupsNamed(groups, name, 0)| > 1
    ensures r.handle.None? ==> r.groups == groups && r.newCalls == []
    ensures r.handle.Some? ==> r.handle.value.index < |r.groups| && r.groups[r.handle.value.index] == r.handle.value.group
    ensures r.handle.Some? ==> EqualsIgnoreCase(r.handle.value.group.displayName, name)
    ensures |GroupsNamed(groups, name, 0)| == 1 ==> r.groups == groups && r.newCalls == []
    ensures |GroupsNamed(groups, name, 0)| == 0 ==>
              && r.handle == Some(GroupHandle(|groups|, ContactGroup(name, [])))
              && r.groups == groups + [ContactGroup(name, [])]
              && r.newCalls == [GroupSaved(name)]
  {
    var all := GroupsNamed(groups, name, 0);
    if |all| > 1 then GroupLookup(None, groups, [])
    else if |all| == 1 then GroupLookup(Some(GroupHandle(all[0], groups[all[0]])), groups, [])
    else
      assert forall k :: 0 <= k < |name| ==> CharEqualsIgnoreCase(name[k], name[k]);
      GroupLookup(Some(GroupHandle(|groups|, ContactGroup(name, []))), groups + [ContactGroup(name, [])], [GroupSaved(name)])
  }

  /** The decision on a view of at most two hits tells no, one and several matches apart. */
  lemma ViewOfTwoDecides(all: seq<nat>)
    ensures var view := all[..Min(2, |all|)];
            && (|view| > 1 <==> |all| > 1)
            && (|view| == 1 <==> |all| == 1)
            && (|view| == 1 ==> view[0] == all[0])
  {
  }

  /** `findOrCreateContactGroup`: a view of two contact groups named `name` in
      Contacts; several give None and change nothing, one is bound and returned,
      none makes a new empty group with that display name be saved and returned. */
  method FindOrCreateContactGroup(store: Store, name: string) returns (r: Option<GroupHandle>)
    modifies store
    ensures r == FindOrCreateEffect(old(store.groups), name).handle
    ensures store.groups == FindOrCreateEffect(old(store.groups), name).groups
    ensures store.calls == old(store.calls) + FindOrCreateEffect(old(store.groups), name).newCalls
    ensures store.folders == old(store.folders) && store.folderList == old(store.folderList)
    ensures store.unloadable == old(store.unloadable)
  {
    var found := store.FindGroups(name, 2);
    ViewOfTwoDecides(GroupsNamed(store.groups, name, 0));
    if |found| > 1 {
      r := None;
    } else if |found| == 1 {
      r := Some(GroupHandle(found[0], store.groups[found[0]]));
    } else {
      var g := store.SaveGroup(name);
      r := Some(GroupHandle(g, ContactGroup(name, [])));
    }
  }
}
