/** Reading the block list: the members of the contact group "Blocked Recipients". */
module BlockedRecipient {
  import opened Wrappers
  import opened Text
  import opened Mailbox
  import opened EwsConnect

  const BlockedListName := "Blocked Recipients"

  /** `findContactGroup`: like the find-or-create lookup, but a missing group stays
      missing. It only searches and binds, so the store is left as it is. */
  method FindContactGroup(store: Store, name: string) returns (r: Option<ContactGroup>)
    ensures var all := GroupsNamed(store.groups, name, 0);
            && (r.Some? <==> |all| == 1)
            && (r.Some? ==> r.value == store.groups[all[0]])
    ensures r.Some? ==> EqualsIgnoreCase(r.value.displayName, name)
    ensures r.Some? ==> r.value == FindOrCreateEffect(store.groups, name).handle.value.group
  {
    var found := store.FindGroups(name, 2);
    ViewOfTwoDecides(GroupsNamed(store.groups, name, 0));
    if |found| > 1 {
      r := None;
    } else if |found| == 1 {
      r := Some(store.groups[found[0]]);
    } else {
      r := None;
    }
  }

  /** The addresses of a group's members, as a set. */
  function MemberAddresses(members: seq<Member>): (s: set<string>)
    ensures forall a :: a in s <==> exists k :: 0 <= k < |members| && members[k].address == a
  {
    set k | 0 <= k < |members| :: members[k].address
  }

  /** `getBlockedRecipients`: the member addresses of the block list, or the empty
      set when there is no single group of that name. */
  method GetBlockedRecipients(store: Store) returns (blocked: set<string>)
    ensures var all := GroupsNamed(store.groups, BlockedListName, 0);
            blocked == (if |all| == 1 then MemberAddresses(store.groups[all[0]].members) else {})
    ensures forall a :: a in blocked <==>
              (|GroupsNamed(store.groups, BlockedListName, 0)| == 1 &&
               exists k :: 0 <= k < |store.groups[GroupsNamed(store.groups, BlockedListName, 0)[0]].members| &&
                           store.groups[GroupsNamed(store.groups, BlockedListName, 0)[0]].members[k].address == a)
  {
    var group := FindContactGroup(store, BlockedListName);
    if group.Some? {
      var members := CollectionToArray(group.value.members);
      blocked := MemberAddresses(members);
    } else {
      blocked := {};
    }
  }
}
