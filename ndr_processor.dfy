/** The bounce pipeline: find NDR items in the Inbox page by page, read the status
    code out of each, tell the webhook about the bounced original, put the
    recipients of hard bounces on the block list, and move handled items to the
    processed folder. */
module NdrProcessor {
  import opened Wrappers
  import opened Text
  import opened Paging
  import opened Mailbox
  import opened Http
  import opened NdrCode
  import opened EwsConnect

  /** A validated processor configuration; an absent `dryRun` reads as false. */
  datatype NdrConfig = NdrConfig(
    processedFolderName: Option<string>,
    blockedRecipientsListName: Option<string>,
    webhookUrl: string,
    dryRun: bool)

  const DefaultProcessedFolderName := "NDR Processed"
  const DefaultBlockedListName := "Blocked Recipients"
  /** The class an item must have, compared ignoring case, to be handled as an NDR. */
  const NdrItemClass := "Report.IPM.Note.NDR"
  /** The class the Inbox search restricts to. */
  const NdrSearchClass := "REPORT.IPM.Note.NDR"
  const PageSize := 10
  /** The view size of the search for a bounced original in Sent Items. */
  const OriginalSearchSize := 10

  function BlockListName(config: NdrConfig): string {
    config.blockedRecipientsListName.GetOr(DefaultBlockedListName)
  }

  function ProcessedFolderName(config: NdrConfig): string {
    config.processedFolderName.GetOr(DefaultProcessedFolderName)
  }

  /** The Inbox restriction of the scan. */
  function NdrFilter(): Filter {
    [ClassIs(NdrSearchClass)]
  }

  // ---------------------------------------------------------------------------
  // Extended properties

  /** One entry of the fixed schema: property name, MAPI tag and declared type. */
  datatype ExtraField = ExtraField(name: string, tag: nat, fieldType: FieldType)

  const OriginalMessageIdName := "PidTagOriginalMessageId"

  const ExtraFields: seq<ExtraField> := [
    ExtraField("PidTagOriginalMessageClass", 0x004B, StringField),
    ExtraField("PidTagOriginalSubject", 0x0049, StringField),
    ExtraField("PidTagOriginalSubmitTime", 0x004E, DateField),
    ExtraField(OriginalMessageIdName, 0x1046, StringField),
    ExtraField("PidTagNonDeliveryReportStatusCode", 0x0C20, NumberField),
    ExtraField("PidTagNonDeliveryReportReasonCode", 0x0C04, NumberField),
    ExtraField("PidTagNonDeliveryReportDiagCode", 0x0C05, NumberField)
  ]

  /** A property read from an item, with the schema's name and type. */
  datatype FieldValue = FieldValue(name: string, fieldType: FieldType, value: PropertyValue)

  type Properties = map<(nat, FieldType), PropertyValue>

  predicate IsPresent(f: ExtraField, props: Properties) {
    (f.tag, f.fieldType) in props
  }

  function ValueOf(f: ExtraField, props: Properties): FieldValue
    requires IsPresent(f, props)
  {
    FieldValue(f.name, f.fieldType, props[(f.tag, f.fieldType)])
  }

  /** `ExtendedProperties.TryGetValue` for one schema entry. */
  function TryGetValue(f: ExtraField, props: Properties): (r: Option<FieldValue>)
    ensures r.Some? <==> IsPresent(f, props)
    ensures r.Some? ==> r.value == ValueOf(f, props)
  {
    if IsPresent(f, props) then Some(ValueOf(f, props)) else None
  }

  /** `notEmpty`: the value is neither null nor undefined. */
  predicate NotEmpty<T>(v: Option<T>) {
    v.Some?
  }

  /** `.filter(notEmpty)`: the present values, in order. */
  function FilterNotEmpty<T(!new)>(s: seq<Option<T>>): (r: seq<T>)
    ensures |r| <= |s|
    ensures forall x :: x in r <==> Some(x) in s
  {
    if s == [] then []
    else (if NotEmpty(s[0]) then [s[0].value] else []) + FilterNotEmpty(s[1..])
  }

  /** `.map` of `TryGetValue` over the schema. */
  function Lookups(schema: seq<ExtraField>, props: Properties): (r: seq<Option<FieldValue>>)
    ensures |r| == |schema|
    ensures forall k :: 0 <= k < |schema| ==> r[k] == TryGetValue(schema[k], props)
  {
    if schema == [] then [] else [TryGetValue(schema[0], props)] + Lookups(schema[1..], props)
  }

  /** `getItemExtendedProperties`. */
  function GetItemExtendedProperties(item: Item): seq<FieldValue> {
    FilterNotEmpty(Lookups(ExtraFields, item.extended))
  }

  /** The positions from `from` on of the schema entries an item has, in increasing order. */
  function PresentIndices(schema: seq<ExtraField>, props: Properties, from: nat): (r: seq<nat>)
    ensures forall i :: 0 <= i < |r| ==> from <= r[i] < |schema| && IsPresent(schema[r[i]], props)
    ensures forall i, j :: 0 <= i < j < |r| ==> r[i] < r[j]
    ensures forall k :: from <= k < |schema| && IsPresent(schema[k], props) ==> k in r
    decreases |schema| - from
  {
    if from >= |schema| then []
    else (if IsPresent(schema[from], props) then [from] else []) + PresentIndices(schema, props, from + 1)
  }

  lemma {:induction false} ProjectionByIndices(schema: seq<ExtraField>, props: Properties, from: nat)
    requires from <= |schema|
    ensures var r := FilterNotEmpty(Lookups(schema, props)[from..]);
            var idx := PresentIndices(schema, props, from);
            && |r| == |idx|
            && forall i :: 0 <= i < |r| ==> IsPresent(schema[idx[i]], props) && r[i] == ValueOf(schema[idx[i]], props)
    decreases |schema| - from
  {
    var all := Lookups(schema, props);
    if from < |schema| {
      ProjectionByIndices(schema, props, from + 1);
      assert all[from..][1..] == all[from + 1..];
      assert all[from..][0] == TryGetValue(schema[from], props);
    } else {
      assert all[from..] == [];
    }
  }

  /** The projection keeps exactly the schema entries the item has, in schema
      order, each under its declared name and type; a missing one is skipped. */
  lemma ExtendedPropertiesExact(item: Item)
    ensures var r := GetItemExtendedProperties(item);
            var idx := PresentIndices(ExtraFields, item.extended, 0);
            && |r| == |idx|
            && forall i :: 0 <= i < |r| ==>
                 IsPresent(ExtraFields[idx[i]], item.extended) && r[i] == ValueOf(ExtraFields[idx[i]], item.extended)
  {
    ProjectionByIndices(ExtraFields, item.extended, 0);
    assert Lookups(ExtraFields, item.extended)[0..] == Lookups(ExtraFields, item.extended);
  }

  /** `values.find(({ name }) => name === n)`: the first value with that name. */
  function FindByName(values: seq<FieldValue>, name: string): Option<FieldValue> {
    if values == [] then None
    else if values[0].name == name then Some(values[0])
    else FindByName(values[1..], name)
  }

  /** The search finds nothing exactly when no value has the name, and otherwise
      the value at the first position that has it. */
  lemma {:induction false} FindByNameFirst(values: seq<FieldValue>, name: string)
    ensures var r := FindByName(values, name);
            && (r.None? <==> forall k :: 0 <= k < |values| ==> values[k].name != name)
            && (r.Some? ==> exists k :: 0 <= k < |values| && values[k] == r.value && values[k].name == name
                                        && forall j :: 0 <= j < k ==> values[j].name != name)
  {
    if values != [] && values[0].name != name {
      var rest := FindByName(values[1..], name);
      FindByNameFirst(values[1..], name);
      assert forall k :: 0 <= k < |values| - 1 ==> values[1..][k] == values[k + 1];
      if rest.Some? {
        var k :| 0 <= k < |values| - 1 && values[1..][k] == rest.value && values[1..][k].name == name
                 && forall j :: 0 <= j < k ==> values[1..][j].name != name;
        assert values[k + 1] == rest.value && forall j :: 0 <= j < k + 1 ==> values[j].name != name;
      }
    }
  }

  /** The original message id, taken only when it is a non-empty string. */
  function OriginalMessageId(values: seq<FieldValue>): (r: Option<string>)
    ensures r.Some? ==> r.value != ""
  {
    match FindByName(values, OriginalMessageIdName)
    case Some(FieldValue(_, _, Str(s))) => if s != "" then Some(s) else None
    case _ => None
  }

  /** The original message id as the item stores it. */
  function StoredOriginalMessageId(props: Properties): Option<string> {
    var key := (0x1046, StringField);
    if key in props && props[key].Str? && props[key].s != "" then Some(props[key].s) else None
  }

  /** When only entry `j` of the schema is called `name`, searching the projection
      for `name` finds that entry's value exactly when the item has it. */
  lemma {:induction false} FindInProjection(schema: seq<ExtraField>, props: Properties, from: nat, name: string, j: nat)
    requires from <= |schema| && j < |schema| && schema[j].name == name
    requires forall k :: from <= k < |schema| && k != j ==> schema[k].name != name
    ensures FindByName(FilterNotEmpty(Lookups(schema, props)[from..]), name)
            == if from <= j && IsPresent(schema[j], props) then Some(ValueOf(schema[j], props)) else None
    decreases |schema| - from
  {
    var all := Lookups(schema, props);
    if from < |schema| {
      FindInProjection(schema, props, from + 1, name, j);
      assert all[from..][1..] == all[from + 1..];
      var rest := FilterNotEmpty(all[from + 1..]);
      if IsPresent(schema[from], props) {
        var v := ValueOf(schema[from], props);
        assert FilterNotEmpty(all[from..]) == [v] + rest;
        assert ([v] + rest)[1..] == rest;
        assert ([v] + rest)[0] == v;
      } else {
        assert FilterNotEmpty(all[from..]) == rest;
      }
    } else {
      assert all[from..] == [];
    }
  }

  lemma ExtraFieldNames()
    ensures forall k :: 0 <= k < |ExtraFields| && k != 3 ==> ExtraFields[k].name != OriginalMessageIdName
  {
    assert |OriginalMessageIdName| == 23;
    forall k | 0 <= k < |ExtraFields| && k != 3 ensures ExtraFields[k].name != OriginalMessageIdName {
      assert |ExtraFields[k].name| != 23;
    }
  }

  /** Reading the id through the projection reads the item's own property. */
  lemma OriginalMessageIdOfItem(item: Item)
    ensures OriginalMessageId(GetItemExtendedProperties(item)) == StoredOriginalMessageId(item.extended)
  {
    ExtraFieldNames();
    FindInProjection(ExtraFields, item.extended, 0, OriginalMessageIdName, 3);
    assert Lookups(ExtraFields, item.extended)[0..] == Lookups(ExtraFields, item.extended);
  }

  // ---------------------------------------------------------------------------
  // The bounced original

  /** The Sent Items restriction for a message id, escaped as HTML. */
  function MessageIdFilter(messageId: string): Filter {
    [MessageIdIs(Escape(messageId))]
  }

  /** The original a message id finds among `sent`: only a single hit counts. */
  function Fetched(sent: seq<Item>, messageId: string): (r: Option<Item>)
    ensures r.Some? <==> |Matching(sent, MessageIdFilter(messageId))| == 1
    ensures r.Some? ==> r.value in sent && EqualsIgnoreCase(r.value.internetMessageId, Escape(messageId))
  {
    var hits := Matching(sent, MessageIdFilter(messageId));
    if |hits| == 1 then
      assert Matches(MessageIdFilter(messageId), hits[0]);
      assert Holds(MessageIdFilter(messageId)[0], hits[0]);
      Some(hits[0])
    else None
  }

  /** `fetchItemByMessageId`: a view of ten hits in Sent Items; a message is
      bound only when exactly one comes back. */
  method FetchItemByMessageId(store: Store, messageId: string) returns (r: Option<Item>)
    ensures r == Fetched(store.Contents(WellKnown(SentItems)), messageId)
  {
    var found := store.FindItems(WellKnown(SentItems), MessageIdFilter(messageId), OriginalSearchSize, 0);
    if |found.items| == 1 {
      r := Some(found.items[0]);
    } else {
      r := None;
    }
  }

  // ---------------------------------------------------------------------------
  // The webhook

  /** `invokeWebhook`: a dry run reports success and posts nothing; otherwise the
      bounce is posted and the result is "success" exactly when the post does not throw. */
  method InvokeWebhook(transport: Transport, messageId: string, errorCode: string, config: NdrConfig) returns (success: bool)
    modifies transport
    ensures config.dryRun ==> success && transport.posts == old(transport.posts)
    ensures !config.dryRun ==> success == transport.reachable
    ensures !config.dryRun ==> transport.posts == old(transport.posts) + [Post(config.webhookUrl, NdrNotice(messageId, errorCode))]
    ensures transport.reachable == old(transport.reachable)
  {
    if config.dryRun {
      success := true;
    } else {
      success := transport.PostJson(config.webhookUrl, NdrNotice(messageId, errorCode));
    }
  }

  // ---------------------------------------------------------------------------
  // The block list

  /** The addresses of the group's members, in member order. */
  function Addresses(members: seq<Member>): (r: seq<string>)
    ensures |r| == |members| && forall k :: 0 <= k < |r| ==> r[k] == members[k].address
  {
    if members == [] then [] else [members[0].address] + Addresses(members[1..])
  }

  /** A recipient is added when its address is non-empty and not already one of `existing`. */
  predicate ShouldAdd(recipient: EmailAddress, existing: seq<string>) {
    recipient.address.Some? && recipient.address.value != "" && recipient.address.value !in existing
  }

  function AsMember(recipient: EmailAddress): Member
    requires recipient.address.Some?
  {
    Member(recipient.name, recipient.address.value)
  }

  /** The members the loop adds, in recipient order. Existence is checked against
      the snapshot `existing` only, so a recipient listed twice is added twice. */
  function NewMembers(existing: seq<string>, recipients: seq<EmailAddress>): (r: seq<Member>)
    ensures |r| <= |recipients|
    ensures forall k :: 0 <= k < |r| ==> r[k].address != "" && r[k].address !in existing
    decreases |recipients|
  {
    if recipients == [] then []
    else
      var last := recipients[|recipients| - 1];
      NewMembers(existing, recipients[..|recipients| - 1]) + (if ShouldAdd(last, existing) then [AsMember(last)] else [])
  }

  lemma NewMembersSnoc(existing: seq<string>, recipients: seq<EmailAddress>, recipient: EmailAddress)
    ensures NewMembers(existing, recipients + [recipient])
            == NewMembers(existing, recipients) + (if ShouldAdd(recipient, existing) then [AsMember(recipient)] else [])
  {
    assert (recipients + [recipient])[..|recipients|] == recipients;
  }

  /** The added members are exactly the qualifying recipients. */
  lemma {:induction false} NewMembersExact(existing: seq<string>, recipients: seq<EmailAddress>)
    ensures forall k :: 0 <= k < |recipients| && ShouldAdd(recipients[k], existing) ==>
              AsMember(recipients[k]) in NewMembers(existing, recipients)
    ensures forall m :: m in NewMembers(existing, recipients) ==>
              exists k :: 0 <= k < |recipients| && ShouldAdd(recipients[k], existing) && m == AsMember(recipients[k])
    decreases |recipients|
  {
    if recipients != [] {
      var n := |recipients| - 1;
      var init := recipients[..n];
      NewMembersExact(existing, init);
      assert forall k :: 0 <= k < n ==> init[k] == recipients[k];
    }
  }

  /** The state the block list leaves behind. */
  datatype GroupsAfter = GroupsAfter(groups: seq<ContactGroup>, newCalls: seq<Call>)

  /** The effect of `blockRecipients` on the contact groups: find or create the
      list, then append the new members and update it once, unless this is a dry
      run or nothing is new. */
  function BlockEffect(groups: seq<ContactGroup>, name: string, recipients: seq<EmailAddress>, dryRun: bool): GroupsAfter {
    var lookup := FindOrCreateEffect(groups, name);
    match lookup.handle
    case None => GroupsAfter(lookup.groups, lookup.newCalls)
    case Some(h) =>
      var added := NewMembers(Addresses(h.group.members), recipients);
      if dryRun || added == [] then GroupsAfter(lookup.groups, lookup.newCalls)
      else GroupsAfter(lookup.groups[h.index := h.group.(members := h.group.members + added)], lookup.newCalls + [GroupUpdated(h.index)])
  }

  /** The block list is updated at most once, as the last call, never in a dry run
      and only when a member was added; the other calls are the group's creation. */
  lemma BlockEffectCalls(groups: seq<ContactGroup>, name: string, recipients: seq<EmailAddress>, dryRun: bool)
    ensures var e := BlockEffect(groups, name, recipients, dryRun);
            && (forall k :: 0 <= k < |e.newCalls| && e.newCalls[k].GroupUpdated? ==> k == |e.newCalls| - 1 && !dryRun)
            && (forall k :: 0 <= k < |e.newCalls| ==> e.newCalls[k].GroupUpdated? || e.newCalls[k] == GroupSaved(name))
            && Moves(e.newCalls) == []
  {
    var e := BlockEffect(groups, name, recipients, dryRun);
    var lookup := FindOrCreateEffect(groups, name);
    var i := if lookup.handle.Some? then lookup.handle.value.index else 0;
    assert lookup.newCalls == [] || lookup.newCalls == [GroupSaved(name)] by {
      var n := |GroupsNamed(groups, name, 0)|;
      if n > 1 {
      } else if n == 1 {
      } else {
      }
    }
    assert e.newCalls == lookup.newCalls || (!dryRun && e.newCalls == lookup.newCalls + [GroupUpdated(i)]) by {
      if lookup.handle.Some? {
        var added := NewMembers(Addresses(lookup.handle.value.group.members), recipients);
        if dryRun || added == [] {
        } else {
        }
      }
    }
    CreatedThenUpdated(lookup.newCalls, e.newCalls, name, i, dryRun);
  }

  /** The calls of the group's creation, if any, then possibly one update. */
  lemma CreatedThenUpdated(created: seq<Call>, calls: seq<Call>, name: string, i: nat, dryRun: bool)
    requires created == [] || created == [GroupSaved(name)]
    requires calls == created || (!dryRun && calls == created + [GroupUpdated(i)])
    ensures forall k :: 0 <= k < |calls| && calls[k].GroupUpdated? ==> k == |calls| - 1 && !dryRun
    ensures forall k :: 0 <= k < |calls| ==> calls[k].GroupUpdated? || calls[k] == GroupSaved(name)
    ensures Moves(calls) == []
  {
    NoMoves(calls);
  }

  /** What the list looks like afterwards: the existing members stay in front, every
      added member has a non-empty address that was not in the list, every
      recipient that qualifies is added unless this is a dry run, and no other
      group changes. */
  lemma BlockEffectMembers(groups: seq<ContactGroup>, name: string, recipients: seq<EmailAddress>, dryRun: bool)
    requires FindOrCreateEffect(groups, name).handle.Some?
    ensures var lookup := FindOrCreateEffect(groups, name);
            var h := lookup.handle.value;
            var e := BlockEffect(groups, name, recipients, dryRun);
            var members := e.groups[h.index].members;
            && |e.groups| == |lookup.groups|
            && (forall g :: 0 <= g < |e.groups| && g != h.index ==> e.groups[g] == lookup.groups[g])
            && e.groups[h.index].displayName == h.group.displayName
            && |h.group.members| <= |members| && members[..|h.group.members|] == h.group.members
            && (forall k :: |h.group.members| <= k < |members| ==>
                  members[k].address != "" && members[k].address !in Addresses(h.group.members))
            && (dryRun ==> members == h.group.members)
            && (!dryRun ==> forall k :: 0 <= k < |recipients| && ShouldAdd(recipients[k], Addresses(h.group.members)) ==>
                  AsMember(recipients[k]) in members[|h.group.members|..])
  {
    var lookup := FindOrCreateEffect(groups, name);
    var h := lookup.handle.value;
    var added := NewMembers(Addresses(h.group.members), recipients);
    var e := BlockEffect(groups, name, recipients, dryRun);
    var members := e.groups[h.index].members;
    NewMembersExact(Addresses(h.group.members), recipients);
    if !dryRun && added != [] {
      assert members == h.group.members + added;
      assert members[|h.group.members|..] == added;
      forall k | |h.group.members| <= k < |members|
        ensures members[k].address != "" && members[k].address !in Addresses(h.group.members)
      {
        assert members[k] == added[k - |h.group.members|];
        assert members[k] in added;
      }
    }
  }

  /** The loop of `blockRecipients`: starting from the group's members `base`,
      append each qualifying recipient unless this is a dry run; `changed` says
      whether anything was appended. */
  method MergeMembers(base: seq<Member>, existing: seq<string>, recipients: seq<EmailAddress>, dryRun: bool)
    returns (members: seq<Member>, changed: bool)
    ensures members == base + (if dryRun then [] else NewMembers(existing, recipients))
    ensures changed <==> !dryRun && NewMembers(existing, recipients) != []
  {
    members := base;
    changed := false;
    var i := 0;
    while i < |recipients|
      invariant 0 <= i <= |recipients|
      invariant dryRun ==> members == base && !changed
      invariant !dryRun ==> members == base + NewMembers(existing, recipients[..i])
      invariant !dryRun ==> (changed <==> NewMembers(existing, recipients[..i]) != [])
    {
      var recipient := recipients[i];
      assert recipients[..i + 1] == recipients[..i] + [recipient];
      NewMembersSnoc(existing, recipients[..i], recipient);
      if recipient.address.Some? && recipient.address.value != "" && recipient.address.value !in existing {
        if !dryRun {
          members := members + [AsMember(recipient)];
          changed := true;
        }
      }
      i := i + 1;
    }
    assert recipients[..|recipients|] == recipients;
  }

  /** `blockRecipients`: the lookup, the merge, and at most one Update. */
  method BlockRecipients(store: Store, recipients: seq<EmailAddress>, config: NdrConfig)
    modifies store
    ensures store.groups == BlockEffect(old(store.groups), BlockListName(config), recipients, config.dryRun).groups
    ensures store.calls == old(store.calls) + BlockEffect(old(store.groups), BlockListName(config), recipients, config.dryRun).newCalls
    ensures store.folders == old(store.folders) && store.folderList == old(store.folderList)
    ensures store.unloadable == old(store.unloadable)
  {
    ghost var lookup := FindOrCreateEffect(store.groups, BlockListName(config));
    var list := FindOrCreateContactGroup(store, BlockListName(config));
    assert list == lookup.handle && store.groups == lookup.groups;
    if list.Some? {
      var handle := list.value;
      var blockedSenders := CollectionToArray(handle.group.members);
      var foundEmailAddresses := Addresses(blockedSenders);
      assert foundEmailAddresses == Addresses(handle.group.members);
      var members, changed := MergeMembers(handle.group.members, foundEmailAddresses, recipients, config.dryRun);
      if changed {
        store.UpdateGroup(handle.index, members);
      }
    }
  }

  // ---------------------------------------------------------------------------
  // One NDR item

  datatype NdrOutcome = Processed | Unprocessed

  /** What handling one item amounts to: its outcome, the notice posted (if any)
      and the recipients put on the block list (if any). */
  datatype NdrPlan = NdrPlan(outcome: NdrOutcome, notice: Option<Payload>, blocked: Option<seq<EmailAddress>>)

  predicate IsNdrClass(itemClass: string) {
    EqualsIgnoreCase(itemClass, NdrItemClass)
  }

  /** The decision tree of `processOneNdrItem`, given the original message id read
      from the item's properties, the Sent Items contents and whether the webhook
      is reachable. */
  function PlanFor(item: Item, originalId: Option<string>, sent: seq<Item>, dryRun: bool, reachable: bool): NdrPlan {
    if !IsNdrClass(item.itemClass) then NdrPlan(Unprocessed, None, None)
    else match ExtractNdrErrorCode(item.textBody)
      case None => NdrPlan(Unprocessed, None, None)
      case Some(code) =>
        match originalId
        case None => NdrPlan(Processed, None, None)
        case Some(messageId) =>
          if Fetched(sent, messageId).None? then NdrPlan(Unprocessed, None, None)
          else NdrPlan(
            if dryRun || reachable then Processed else Unprocessed,
            if dryRun then None else Some(NdrNotice(messageId, code)),
            if IsHardBounce(code) then Some(item.toRecipients) else None)
  }

  /** An item is "processed" exactly when it is an NDR with a status code and either
      carries no usable original message id, or its original is the single hit in
      Sent Items and the webhook call succeeds (a dry run always succeeds). */
  lemma PlanProcessedIff(item: Item, sent: seq<Item>, dryRun: bool, reachable: bool)
    ensures var plan := PlanFor(item, OriginalMessageId(GetItemExtendedProperties(item)), sent, dryRun, reachable);
            var stored := StoredOriginalMessageId(item.extended);
            plan.outcome == Processed <==>
              && IsNdrClass(item.itemClass)
              && ExtractNdrErrorCode(item.textBody).Some?
              && (stored.None? || (|Matching(sent, MessageIdFilter(stored.value))| == 1 && (dryRun || reachable)))
  {
    OriginalMessageIdOfItem(item);
    PlanProcessedIffFor(item, StoredOriginalMessageId(item.extended), sent, dryRun, reachable);
  }

  lemma PlanProcessedIffFor(item: Item, id: Option<string>, sent: seq<Item>, dryRun: bool, reachable: bool)
    ensures PlanFor(item, id, sent, dryRun, reachable).outcome == Processed <==>
              && IsNdrClass(item.itemClass)
              && ExtractNdrErrorCode(item.textBody).Some?
              && (id.None? || (|Matching(sent, MessageIdFilter(id.value))| == 1 && (dryRun || reachable)))
  {
  }

  /** A hard bounce puts the NDR's own recipients on the block list whenever its
      original is found, whatever the webhook answers; nothing else is blocked. */
  lemma PlanBlocksHardBounces(item: Item, sent: seq<Item>, dryRun: bool, reachable: bool)
    ensures var plan := PlanFor(item, OriginalMessageId(GetItemExtendedProperties(item)), sent, dryRun, reachable);
            var stored := StoredOriginalMessageId(item.extended);
            var code := ExtractNdrErrorCode(item.textBody);
            && (plan.blocked.Some? <==>
                  IsNdrClass(item.itemClass) && code.Some? && IsHardBounce(code.value)
                  && stored.Some? && |Matching(sent, MessageIdFilter(stored.value))| == 1)
            && (plan.blocked.Some? ==> plan.blocked.value == item.toRecipients)
            && plan.blocked == PlanFor(item, OriginalMessageId(GetItemExtendedProperties(item)), sent, dryRun, !reachable).blocked
  {
    OriginalMessageIdOfItem(item);
  }

  /** A notice is posted only outside a dry run, only for a found original, and it
      names that original's id and the extracted code. An unprocessed item whose
      original was found and which is not a dry run is one whose post failed. */
  lemma PlanNotices(item: Item, sent: seq<Item>, dryRun: bool, reachable: bool)
    ensures var plan := PlanFor(item, OriginalMessageId(GetItemExtendedProperties(item)), sent, dryRun, reachable);
            var stored := StoredOriginalMessageId(item.extended);
            var code := ExtractNdrErrorCode(item.textBody);
            && (plan.notice.Some? <==>
                  !dryRun && IsNdrClass(item.itemClass) && code.Some?
                  && stored.Some? && |Matching(sent, MessageIdFilter(stored.value))| == 1)
            && (plan.notice.Some? ==> plan.notice.value == NdrNotice(stored.value, code.value))
            && (plan.notice.Some? ==> (plan.outcome == Processed <==> reachable))
  {
    OriginalMessageIdOfItem(item);
  }

  /** `processOneNdrItem`, proved against `PlanFor`. */
  method ProcessOneNdrItem(store: Store, transport: Transport, item: Item, values: seq<FieldValue>, config: NdrConfig)
    returns (outcome: NdrOutcome)
    modifies store, transport
    ensures var plan := PlanFor(item, OriginalMessageId(values), old(store.Contents(WellKnown(SentItems))), config.dryRun, old(transport.reachable));
            && outcome == plan.outcome
            && transport.posts == old(transport.posts) + (if plan.notice.Some? then [Post(config.webhookUrl, plan.notice.value)] else [])
            && (plan.blocked.Some? ==>
                  && store.groups == BlockEffect(old(store.groups), BlockListName(config), plan.blocked.value, config.dryRun).groups
                  && store.calls == old(store.calls) + BlockEffect(old(store.groups), BlockListName(config), plan.blocked.value, config.dryRun).newCalls)
            && (plan.blocked.None? ==> store.groups == old(store.groups) && store.calls == old(store.calls))
    ensures Moves(store.calls) == Moves(old(store.calls))
    ensures transport.reachable == old(transport.reachable)
    ensures store.folders == old(store.folders) && store.folderList == old(store.folderList)
    ensures store.unloadable == old(store.unloadable)
  {
    outcome := Unprocessed;
    if IsNdrClass(item.itemClass) {
      // The NDR bound as an email message: its recipients are the ones that failed.
      var ndrAsEmail := item;
      var errorCode := ExtractNdrErrorCode(item.textBody);
      if errorCode.Some? {
        var messageId := OriginalMessageId(values);
        if messageId.Some? {
          var originalMessage := FetchItemByMessageId(store, messageId.value);
          if originalMessage.Some? {
            var webhookResult := InvokeWebhook(transport, messageId.value, errorCode.value, config);
            if IsHardBounce(errorCode.value) {
              var recipients := CollectionToArray(ndrAsEmail.toRecipients);
              BlockEffectCalls(old(store.groups), BlockListName(config), recipients, config.dryRun);
              MovesAppend(old(store.calls), BlockEffect(old(store.groups), BlockListName(config), recipients, config.dryRun).newCalls);
              BlockRecipients(store, recipients, config);
            }
            if webhookResult {
              outcome := Processed;
            }
          }
        } else {
          outcome := Processed;
        }
      }
    }
  }

  // ---------------------------------------------------------------------------
  // The processed folder

  /** `findOrCreateFolder`: a shallow view of two folders with that name under the
      message-folder root; several give None and change nothing, one is returned,
      none makes a new top-level folder be saved and returned. */
  method FindOrCreateFolder(store: Store, name: string) returns (r: Option<FolderInfo>)
    modifies store
    ensures var all := FoldersNamed(old(store.folderList), name, true);
            && (|all| > 1 ==> r.None?)
            && (|all| == 1 ==> r == Some(all[0]))
            && (|all| <= 1 ==> r.Some?)
            && (|all| >= 1 ==> store.folderList == old(store.folderList) && store.folders == old(store.folders) && store.calls == old(store.calls))
            && (|all| == 0 ==>
                  && r == Some(FolderInfo(Custom(MaxCustomKey(old(store.folderList)) + 1), name, true))
                  && store.folderList == old(store.folderList) + [r.value]
                  && store.folders == old(store.folders)[r.value.id := []]
                  && store.calls == old(store.calls) + [FolderSaved(name)])
    ensures store.groups == old(store.groups) && store.unloadable == old(store.unloadable)
  {
    var found, total := store.FindFolders(name, 2, false);
    if |found| > 1 {
      r := None;
    } else if |found| == 1 {
      r := Some(found[0]);
    } else {
      var created := store.SaveFolder(name);
      r := Some(created);
    }
  }

  // ---------------------------------------------------------------------------
  // The scan

  datatype Exit = Completed | Exited(code: int)

  /** The moves the scan makes: the processed items, in scan order, unless this is a dry run. */
  function MovesFor(items: seq<Item>, outcomes: seq<NdrOutcome>, dest: FolderId, dryRun: bool): (r: seq<Call>)
    requires |items| == |outcomes|
    ensures dryRun ==> r == []
  {
    if items == [] then []
    else (if outcomes[0] == Processed && !dryRun then [ItemMoved(items[0].id, dest)] else [])
         + MovesFor(items[1..], outcomes[1..], dest, dryRun)
  }

  /** An item is moved, to the processed folder, exactly when it was processed and this is not a dry run. */
  lemma {:induction false} MovesForIff(items: seq<Item>, outcomes: seq<NdrOutcome>, dest: FolderId, dryRun: bool, c: Call)
    requires |items| == |outcomes|
    ensures c in MovesFor(items, outcomes, dest, dryRun) <==>
              c.ItemMoved? && c.destination == dest && !dryRun
              && exists k :: 0 <= k < |items| && outcomes[k] == Processed && items[k].id == c.id
    decreases |items|
  {
    if items != [] {
      MovesForIff(items[1..], outcomes[1..], dest, dryRun, c);
      assert forall k :: 1 <= k < |items| ==> items[1..][k - 1] == items[k] && outcomes[1..][k - 1] == outcomes[k];
      if c.ItemMoved? && c.destination == dest && !dryRun && outcomes[0] == Processed && items[0].id == c.id {
        assert c == ItemMoved(items[0].id, dest);
      }
    }
  }

  lemma {:induction false} MovesForAppend(a: seq<Item>, oa: seq<NdrOutcome>, b: seq<Item>, ob: seq<NdrOutcome>, dest: FolderId, dryRun: bool)
    requires |a| == |oa| && |b| == |ob|
    ensures MovesFor(a + b, oa + ob, dest, dryRun) == MovesFor(a, oa, dest, dryRun) + MovesFor(b, ob, dest, dryRun)
    decreases |a|
  {
    if a == [] {
      assert a + b == b && oa + ob == ob;
    } else {
      assert (a + b)[0] == a[0] && (oa + ob)[0] == oa[0];
      assert (a + b)[1..] == a[1..] + b && (oa + ob)[1..] == oa[1..] + ob;
      MovesForAppend(a[1..], oa[1..], b, ob, dest, dryRun);
      var head: seq<Call> := if oa[0] == Processed && !dryRun then [ItemMoved(a[0].id, dest)] else [];
      ConcatAssoc(head, MovesFor(a[1..], oa[1..], dest, dryRun), MovesFor(b, ob, dest, dryRun));
    }
  }

  lemma MovesForSingle(item: Item, outcome: NdrOutcome, dest: FolderId, dryRun: bool)
    ensures MovesFor([item], [outcome], dest, dryRun) == if outcome == Processed && !dryRun then [ItemMoved(item.id, dest)] else []
  {
    assert [item][1..] == [] && [outcome][1..] == [];
  }

  /** The outcome `processOneNdrItem` reaches for an item, by the original message
      id the item stores (which the projection of its properties reads back). */
  function ExpectedOutcome(item: Item, sent: seq<Item>, dryRun: bool, reachable: bool): NdrOutcome {
    ExpectedPlan(item, sent, dryRun, reachable).outcome
  }

  /** The plan `processOneNdrItem` follows for an item, by the original message id it stores. */
  function ExpectedPlan(item: Item, sent: seq<Item>, dryRun: bool, reachable: bool): NdrPlan {
    PlanFor(item, StoredOriginalMessageId(item.extended), sent, dryRun, reachable)
  }

  /** The outcomes of a sequence of items, in order. */
  function ExpectedOutcomes(items: seq<Item>, sent: seq<Item>, dryRun: bool, reachable: bool): (r: seq<NdrOutcome>)
    ensures |r| == |items|
  {
    if items == [] then []
    else [ExpectedOutcome(items[0], sent, dryRun, reachable)] + ExpectedOutcomes(items[1..], sent, dryRun, reachable)
  }

  /** Element `k` of the outcomes is the outcome of item `k`. */
  lemma {:induction false} ExpectedOutcomesIndex(items: seq<Item>, sent: seq<Item>, dryRun: bool, reachable: bool, k: nat)
    requires k < |items|
    ensures ExpectedOutcomes(items, sent, dryRun, reachable)[k] == ExpectedOutcome(items[k], sent, dryRun, reachable)
    decreases |items|
  {
    if k > 0 {
      ExpectedOutcomesIndex(items[1..], sent, dryRun, reachable, k - 1);
    }
  }

  lemma {:induction false} ExpectedOutcomesAppend(a: seq<Item>, b: seq<Item>, sent: seq<Item>, dryRun: bool, reachable: bool)
    ensures ExpectedOutcomes(a + b, sent, dryRun, reachable) == ExpectedOutcomes(a, sent, dryRun, reachable) + ExpectedOutcomes(b, sent, dryRun, reachable)
    decreases |a|
  {
    if a == [] {
      assert a + b == b;
    } else {
      assert (a + b)[0] == a[0];
      assert (a + b)[1..] == a[1..] + b;
      ExpectedOutcomesAppend(a[1..], b, sent, dryRun, reachable);
      ConcatAssoc([ExpectedOutcome(a[0], sent, dryRun, reachable)], ExpectedOutcomes(a[1..], sent, dryRun, reachable), ExpectedOutcomes(b, sent, dryRun, reachable));
    }
  }

  lemma ExpectedOutcomesSnoc(items: seq<Item>, j: nat, sent: seq<Item>, dryRun: bool, reachable: bool)
    requires j < |items|
    ensures ExpectedOutcomes(items[..j + 1], sent, dryRun, reachable)
            == ExpectedOutcomes(items[..j], sent, dryRun, reachable) + [ExpectedOutcome(items[j], sent, dryRun, reachable)]
  {
    assert items[..j + 1] == items[..j] + [items[j]];
    ExpectedOutcomesAppend(items[..j], [items[j]], sent, dryRun, reachable);
    assert [items[j]][1..] == [];
  }

  /** The posts a plan makes: its notice, if any, to the webhook. */
  function PlanPosts(plan: NdrPlan, url: string): seq<Post> {
    if plan.notice.Some? then [Post(url, plan.notice.value)] else []
  }

  /** The contact groups after a plan: the block effect of its recipients, if any. */
  function PlanGroups(groups: seq<ContactGroup>, plan: NdrPlan, name: string, dryRun: bool): seq<ContactGroup> {
    if plan.blocked.Some? then BlockEffect(groups, name, plan.blocked.value, dryRun).groups else groups
  }

  /** The folders after an item is handled: moved out of the Inbox to `dest` when
      processed, unless this is a dry run. */
  function ItemFolders(folders: map<FolderId, seq<Item>>, item: Item, outcome: NdrOutcome, dest: FolderId, dryRun: bool)
    : map<FolderId, seq<Item>>
  {
    if outcome == Processed && !dryRun then Relocated(folders, WellKnown(Inbox), {item.id}, Some(dest)) else folders
  }

  /** The posts of the plans of some items, in order. */
  function ScanPosts(items: seq<Item>, sent: seq<Item>, cfg: NdrConfig, reachable: bool): seq<Post> {
    if items == [] then []
    else ScanPosts(items[..|items| - 1], sent, cfg, reachable)
         + PlanPosts(ExpectedPlan(items[|items| - 1], sent, cfg.dryRun, reachable), cfg.webhookUrl)
  }

  /** The contact groups after the plans of some items, in order. */
  function ScanGroups(groups: seq<ContactGroup>, items: seq<Item>, sent: seq<Item>, cfg: NdrConfig, reachable: bool): seq<ContactGroup> {
    if items == [] then groups
    else PlanGroups(ScanGroups(groups, items[..|items| - 1], sent, cfg, reachable),
                    ExpectedPlan(items[|items| - 1], sent, cfg.dryRun, reachable), BlockListName(cfg), cfg.dryRun)
  }

  /** The folders after some items are handled with their outcomes, in order. */
  function ScanFolders(folders: map<FolderId, seq<Item>>, items: seq<Item>, outcomes: seq<NdrOutcome>, dest: FolderId, dryRun: bool)
    : map<FolderId, seq<Item>>
    requires |items| == |outcomes|
  {
    if items == [] then folders
    else ItemFolders(ScanFolders(folders, items[..|items| - 1], outcomes[..|items| - 1], dest, dryRun),
                     items[|items| - 1], outcomes[|items| - 1], dest, dryRun)
  }

  lemma {:induction false} ScanPostsAppend(a: seq<Item>, b: seq<Item>, sent: seq<Item>, cfg: NdrConfig, reachable: bool)
    ensures ScanPosts(a + b, sent, cfg, reachable) == ScanPosts(a, sent, cfg, reachable) + ScanPosts(b, sent, cfg, reachable)
    decreases |b|
  {
    if b == [] {
      assert a + b == a;
    } else {
      var init := b[..|b| - 1];
      assert (a + b)[..|a + b| - 1] == a + init;
      ScanPostsAppend(a, init, sent, cfg, reachable);
      ConcatAssoc(ScanPosts(a, sent, cfg, reachable), ScanPosts(init, sent, cfg, reachable),
                  PlanPosts(ExpectedPlan(b[|b| - 1], sent, cfg.dryRun, reachable), cfg.webhookUrl));
    }
  }

  lemma {:induction false} ScanGroupsAppend(groups: seq<ContactGroup>, a: seq<Item>, b: seq<Item>, sent: seq<Item>, cfg: NdrConfig, reachable: bool)
    ensures ScanGroups(groups, a + b, sent, cfg, reachable) == ScanGroups(ScanGroups(groups, a, sent, cfg, reachable), b, sent, cfg, reachable)
    decreases |b|
  {
    if b == [] {
      assert a + b == a;
    } else {
      assert (a + b)[..|a + b| - 1] == a + b[..|b| - 1];
      ScanGroupsAppend(groups, a, b[..|b| - 1], sent, cfg, reachable);
    }
  }

  /** Handling one more item applies its step to the folders. */
  lemma ScanFoldersSnoc(folders: map<FolderId, seq<Item>>, items: seq<Item>, outcomes: seq<NdrOutcome>,
                        item: Item, outcome: NdrOutcome, dest: FolderId, dryRun: bool)
    requires |items| == |outcomes|
    ensures ScanFolders(folders, items + [item], outcomes + [outcome], dest, dryRun)
            == ItemFolders(ScanFolders(folders, items, outcomes, dest, dryRun), item, outcome, dest, dryRun)
  {
    assert (items + [item])[..|items|] == items && (outcomes + [outcome])[..|items|] == outcomes;
  }

  lemma {:induction false} ScanFoldersAppend(folders: map<FolderId, seq<Item>>, a: seq<Item>, oa: seq<NdrOutcome>,
                                             b: seq<Item>, ob: seq<NdrOutcome>, dest: FolderId, dryRun: bool)
    requires |a| == |oa| && |b| == |ob|
    ensures ScanFolders(folders, a + b, oa + ob, dest, dryRun)
            == ScanFolders(ScanFolders(folders, a, oa, dest, dryRun), b, ob, dest, dryRun)
    decreases |b|
  {
    if b == [] {
      assert a + b == a && oa + ob == oa;
    } else {
      var n := |b| - 1;
      var b', ob' := b[..n], ob[..n];
      assert b == b' + [b[n]] && ob == ob' + [ob[n]];
      assert a + b == (a + b') + [b[n]] && oa + ob == (oa + ob') + [ob[n]];
      ScanFoldersAppend(folders, a, oa, b', ob', dest, dryRun);
      ScanFoldersSnoc(folders, a + b', oa + ob', b[n], ob[n], dest, dryRun);
      ScanFoldersSnoc(ScanFolders(folders, a, oa, dest, dryRun), b', ob', b[n], ob[n], dest, dryRun);
    }
  }

  /** What handling `scanned` with `outcomes` did besides the moves: the folders
      are those the moves leave, and (when the processed folder is not Sent
      Items, so the originals searched stay put) the notices of the plans were
      posted and their recipients blocked, in order. */
  ghost predicate ScanEffects(folders0: map<FolderId, seq<Item>>, folders: map<FolderId, seq<Item>>,
                              posts0: seq<Post>, posts: seq<Post>, groups0: seq<ContactGroup>, groups: seq<ContactGroup>,
                              scanned: seq<Item>, outcomes: seq<NdrOutcome>, dest: FolderId, cfg: NdrConfig,
                              sent: seq<Item>, reachable: bool)
  {
    && |outcomes| == |scanned|
    && folders == ScanFolders(folders0, scanned, outcomes, dest, cfg.dryRun)
    && (dest != WellKnown(SentItems) ==>
          && posts == posts0 + ScanPosts(scanned, sent, cfg, reachable)
          && groups == ScanGroups(groups0, scanned, sent, cfg, reachable))
  }

  /** The effects of two runs of items, one after the other, are those of the
      run of both. */
  lemma EffectsCompose(f0: map<FolderId, seq<Item>>, f1: map<FolderId, seq<Item>>, f2: map<FolderId, seq<Item>>,
                       p0: seq<Post>, p1: seq<Post>, p2: seq<Post>,
                       g0: seq<ContactGroup>, g1: seq<ContactGroup>, g2: seq<ContactGroup>,
                       a: seq<Item>, oa: seq<NdrOutcome>, b: seq<Item>, ob: seq<NdrOutcome>,
                       dest: FolderId, cfg: NdrConfig, sent: seq<Item>, reachable: bool)
    requires ScanEffects(f0, f1, p0, p1, g0, g1, a, oa, dest, cfg, sent, reachable)
    requires ScanEffects(f1, f2, p1, p2, g1, g2, b, ob, dest, cfg, sent, reachable)
    ensures ScanEffects(f0, f2, p0, p2, g0, g2, a + b, oa + ob, dest, cfg, sent, reachable)
  {
    ScanFoldersAppend(f0, a, oa, b, ob, dest, cfg.dryRun);
    ScanPostsAppend(a, b, sent, cfg, reachable);
    ScanGroupsAppend(g0, a, b, sent, cfg, reachable);
    ConcatAssoc(p0, ScanPosts(a, sent, cfg, reachable), ScanPosts(b, sent, cfg, reachable));
  }

  /** The scan so far: its log and its effects. */
  ghost predicate ScanState(calls0: seq<Call>, calls: seq<Call>, folders0: map<FolderId, seq<Item>>, folders: map<FolderId, seq<Item>>,
                            posts0: seq<Post>, posts: seq<Post>, groups0: seq<ContactGroup>, groups: seq<ContactGroup>,
                            scanned: seq<Item>, outcomes: seq<NdrOutcome>, dest: FolderId, cfg: NdrConfig,
                            sent: seq<Item>, reachable: bool)
  {
    && ScanLog(calls0, calls, scanned, outcomes, dest, cfg.dryRun, sent, reachable)
    && ScanEffects(folders0, folders, posts0, posts, groups0, groups, scanned, outcomes, dest, cfg, sent, reachable)
  }

  /** The scan state after one more page, whose handling is stated with the Sent
      Items of the moment, unchanged unless they are the processed folder. */
  lemma ScanStateStep(c1: seq<Call>, c2: seq<Call>, f1: map<FolderId, seq<Item>>, f2: map<FolderId, seq<Item>>,
                      p1: seq<Post>, p2: seq<Post>, g1: seq<ContactGroup>, g2: seq<ContactGroup>,
                      c0: seq<Call>, f0: map<FolderId, seq<Item>>, p0: seq<Post>, g0: seq<ContactGroup>,
                      scanned: seq<Item>, outcomes: seq<NdrOutcome>, page: seq<Item>, pageOutcomes: seq<NdrOutcome>,
                      dest: FolderId, cfg: NdrConfig, sent: seq<Item>, sent1: seq<Item>, reachable: bool)
    requires ScanState(c0, c1, f0, f1, p0, p1, g0, g1, scanned, outcomes, dest, cfg, sent, reachable)
    requires |pageOutcomes| == |page|
    requires Moves(c2) == Moves(c1) + MovesFor(page, pageOutcomes, dest, cfg.dryRun)
    requires dest != WellKnown(SentItems) ==> sent1 == sent && pageOutcomes == ExpectedOutcomes(page, sent, cfg.dryRun, reachable)
    requires ScanEffects(f1, f2, p1, p2, g1, g2, page, pageOutcomes, dest, cfg, sent1, reachable)
    ensures ScanState(c0, c2, f0, f2, p0, p2, g0, g2, scanned + page, outcomes + pageOutcomes, dest, cfg, sent, reachable)
  {
    ScanLogStep(c0, c1, c2, scanned, outcomes, page, pageOutcomes, dest, cfg.dryRun, sent, reachable);
    EffectsAfterPage(f0, f1, f2, p0, p1, p2, g0, g1, g2, scanned, outcomes, page, pageOutcomes, dest, cfg, sent, sent1, reachable);
  }

  /** `EffectsCompose` for the next page of the scan, whose effects are stated
      with the Sent Items of the moment, unchanged unless they are the processed
      folder. */
  lemma EffectsAfterPage(f0: map<FolderId, seq<Item>>, f1: map<FolderId, seq<Item>>, f2: map<FolderId, seq<Item>>,
                         p0: seq<Post>, p1: seq<Post>, p2: seq<Post>,
                         g0: seq<ContactGroup>, g1: seq<ContactGroup>, g2: seq<ContactGroup>,
                         a: seq<Item>, oa: seq<NdrOutcome>, b: seq<Item>, ob: seq<NdrOutcome>,
                         dest: FolderId, cfg: NdrConfig, sent: seq<Item>, sent1: seq<Item>, reachable: bool)
    requires ScanEffects(f0, f1, p0, p1, g0, g1, a, oa, dest, cfg, sent, reachable)
    requires ScanEffects(f1, f2, p1, p2, g1, g2, b, ob, dest, cfg, sent1, reachable)
    requires dest != WellKnown(SentItems) ==> sent1 == sent
    ensures ScanEffects(f0, f2, p0, p2, g0, g2, a + b, oa + ob, dest, cfg, sent, reachable)
  {
    EffectsCompose(f0, f1, f2, p0, p1, p2, g0, g1, g2, a, oa, b, ob, dest, cfg, sent, reachable);
  }

  /** The scan state after the next item of a page. */
  lemma ItemStateStep(c1: seq<Call>, c2: seq<Call>, f1: map<FolderId, seq<Item>>, f2: map<FolderId, seq<Item>>,
                      p1: seq<Post>, p2: seq<Post>, g1: seq<ContactGroup>, g2: seq<ContactGroup>,
                      c0: seq<Call>, f0: map<FolderId, seq<Item>>, p0: seq<Post>, g0: seq<ContactGroup>,
                      page: seq<Item>, j: nat, outcomes: seq<NdrOutcome>, result: NdrOutcome,
                      dest: FolderId, cfg: NdrConfig, sent: seq<Item>, sent1: seq<Item>, reachable: bool)
    requires j < |page|
    requires ScanState(c0, c1, f0, f1, p0, p1, g0, g1, page[..j], outcomes, dest, cfg, sent, reachable)
    requires Moves(c2) == Moves(c1) + MovesFor([page[j]], [result], dest, cfg.dryRun)
    requires result == ExpectedOutcome(page[j], sent1, cfg.dryRun, reachable)
    requires dest != WellKnown(SentItems) ==> sent1 == sent
    requires ScanEffects(f1, f2, p1, p2, g1, g2, [page[j]], [result], dest, cfg, sent1, reachable)
    ensures ScanState(c0, c2, f0, f2, p0, p2, g0, g2, page[..j + 1], outcomes + [result], dest, cfg, sent, reachable)
  {
    TakeSnoc(page, j);
    assert ExpectedOutcomes([page[j]], sent, cfg.dryRun, reachable) == [ExpectedOutcome(page[j], sent, cfg.dryRun, reachable)];
    ScanStateStep(c1, c2, f1, f2, p1, p2, g1, g2, c0, f0, p0, g0, page[..j], outcomes, [page[j]], [result],
                  dest, cfg, sent, sent1, reachable);
  }

  /** Handling nothing has no effect. */
  lemma EffectsNone(folders: map<FolderId, seq<Item>>, posts: seq<Post>, groups: seq<ContactGroup>,
                    dest: FolderId, cfg: NdrConfig, sent: seq<Item>, reachable: bool)
    ensures ScanEffects(folders, folders, posts, posts, groups, groups, [], [], dest, cfg, sent, reachable)
  {
    assert posts + [] == posts;
  }

  /** The effects of a single item are those of its plan and its move. */
  lemma EffectsSingle(item: Item, outcome: NdrOutcome, folders0: map<FolderId, seq<Item>>, posts0: seq<Post>, groups0: seq<ContactGroup>,
                      dest: FolderId, cfg: NdrConfig, sent: seq<Item>, reachable: bool)
    ensures var plan := ExpectedPlan(item, sent, cfg.dryRun, reachable);
            ScanEffects(folders0, ItemFolders(folders0, item, outcome, dest, cfg.dryRun),
                        posts0, posts0 + PlanPosts(plan, cfg.webhookUrl),
                        groups0, PlanGroups(groups0, plan, BlockListName(cfg), cfg.dryRun),
                        [item], [outcome], dest, cfg, sent, reachable)
  {
    assert [item][..0] == [] && [outcome][..0] == [];
  }

  /** A dry run moves nothing and posts nothing. */
  lemma {:induction false} DryRunEffects(folders: map<FolderId, seq<Item>>, items: seq<Item>, outcomes: seq<NdrOutcome>,
                                         dest: FolderId, sent: seq<Item>, cfg: NdrConfig, reachable: bool)
    requires |items| == |outcomes| && cfg.dryRun
    ensures ScanFolders(folders, items, outcomes, dest, cfg.dryRun) == folders
    ensures ScanPosts(items, sent, cfg, reachable) == []
  {
    if items != [] {
      DryRunEffects(folders, items[..|items| - 1], outcomes[..|items| - 1], dest, sent, cfg, reachable);
    }
  }

  /** `processOneNdrItem` as the scan sees it: the outcome it reaches, and that it
      neither moves items nor touches a folder. */
  method HandleNdr(store: Store, transport: Transport, item: Item, config: NdrConfig)
    returns (outcome: NdrOutcome)
    modifies store, transport
    ensures outcome == ExpectedOutcome(item, old(store.Contents(WellKnown(SentItems))), config.dryRun, old(transport.reachable))
    ensures var plan := ExpectedPlan(item, old(store.Contents(WellKnown(SentItems))), config.dryRun, old(transport.reachable));
            && transport.posts == old(transport.posts) + PlanPosts(plan, config.webhookUrl)
            && store.groups == PlanGroups(old(store.groups), plan, BlockListName(config), config.dryRun)
    ensures Moves(store.calls) == Moves(old(store.calls))
    ensures store.folders == old(store.folders)
    ensures transport.reachable == old(transport.reachable)
    ensures config.dryRun ==> transport.posts == old(transport.posts)
  {
    OriginalMessageIdOfItem(item);
    outcome := ProcessOneNdrItem(store, transport, item, GetItemExtendedProperties(item), config);
  }

  /** Moving a processed item out of the Inbox: one move is logged, the Inbox search
      results never grow, and a folder other than the two involved keeps its items. */
  method MoveProcessed(store: Store, id: ItemId, dest: FolderId)
    modifies store
    ensures Moves(store.calls) == Moves(old(store.calls)) + [ItemMoved(id, dest)]
    ensures store.folders == Relocated(old(store.folders), WellKnown(Inbox), {id}, Some(dest))
    ensures store.groups == old(store.groups)
    ensures |store.Results(WellKnown(Inbox), NdrFilter())| <= |old(store.Results(WellKnown(Inbox), NdrFilter()))|
    ensures dest != WellKnown(SentItems) ==> store.Contents(WellKnown(SentItems)) == old(store.Contents(WellKnown(SentItems)))
  {
    var inbox := WellKnown(Inbox);
    RelocatedShrinks(store.folders, inbox, {id}, Some(dest), NdrFilter());
    if dest != WellKnown(SentItems) {
      RelocatedKeepsOthers(store.folders, inbox, {id}, Some(dest), WellKnown(SentItems));
    }
    MovesAppend(store.calls, [ItemMoved(id, dest)]);
    assert Moves([ItemMoved(id, dest)]) == [ItemMoved(id, dest)] by {
      assert [ItemMoved(id, dest)][1..] == [];
    }
    store.Move(inbox, id, dest);
  }

  /** One item of a page: handle it, then move it to `dest` when processed,
      unless this is a dry run. */
  method HandleItem(store: Store, transport: Transport, item: Item, config: NdrConfig, dest: FolderId)
    returns (outcome: NdrOutcome)
    modifies store, transport
    ensures outcome == ExpectedOutcome(item, old(store.Contents(WellKnown(SentItems))), config.dryRun, old(transport.reachable))
    ensures Moves(store.calls) == Moves(old(store.calls)) + MovesFor([item], [outcome], dest, config.dryRun)
    ensures ScanEffects(old(store.folders), store.folders, old(transport.posts), transport.posts, old(store.groups), store.groups,
                        [item], [outcome], dest, config, old(store.Contents(WellKnown(SentItems))), old(transport.reachable))
    ensures |store.Results(WellKnown(Inbox), NdrFilter())| <= |old(store.Results(WellKnown(Inbox), NdrFilter()))|
    ensures transport.reachable == old(transport.reachable)
    ensures config.dryRun ==> transport.posts == old(transport.posts)
    ensures dest != WellKnown(SentItems) ==> store.Contents(WellKnown(SentItems)) == old(store.Contents(WellKnown(SentItems)))
  {
    outcome := HandleNdr(store, transport, item, config);
    EffectsSingle(item, outcome, old(store.folders), old(transport.posts), old(store.groups), dest, config,
                  old(store.Contents(WellKnown(SentItems))), old(transport.reachable));
    MovesForSingle(item, outcome, dest, config.dryRun);
    if outcome == Processed && !config.dryRun {
      MoveProcessed(store, item.id, dest);
    } else {
      assert Moves(store.calls) + [] == Moves(store.calls);
    }
  }

  /** The body of the scan for one page: every item is handled in page order. */
  method HandlePage(store: Store, transport: Transport, page: seq<Item>, config: NdrConfig, dest: FolderId)
    returns (outcomes: seq<NdrOutcome>)
    modifies store, transport
    ensures |outcomes| == |page|
    ensures Moves(store.calls) == Moves(old(store.calls)) + MovesFor(page, outcomes, dest, config.dryRun)
    ensures ScanEffects(old(store.folders), store.folders, old(transport.posts), transport.posts, old(store.groups), store.groups,
                        page, outcomes, dest, config, old(store.Contents(WellKnown(SentItems))), old(transport.reachable))
    ensures |store.Results(WellKnown(Inbox), NdrFilter())| <= |old(store.Results(WellKnown(Inbox), NdrFilter()))|
    ensures transport.reachable == old(transport.reachable)
    ensures config.dryRun ==> transport.posts == old(transport.posts)
    ensures dest != WellKnown(SentItems) ==>
              && store.Contents(WellKnown(SentItems)) == old(store.Contents(WellKnown(SentItems)))
              && outcomes == ExpectedOutcomes(page, old(store.Contents(WellKnown(SentItems))), config.dryRun, old(transport.reachable))
  {
    ghost var sent0 := store.Contents(WellKnown(SentItems));
    ghost var reachable0 := transport.reachable;
    ghost var calls0 := store.calls;
    ghost var inbox0 := |store.Results(WellKnown(Inbox), NdrFilter())|;
    ghost var posts0, folders0, groups0 := transport.posts, store.folders, store.groups;
    outcomes := [];
    var j := 0;
    EffectsNone(folders0, posts0, groups0, dest, config, sent0, reachable0);
    while j < |page|
      invariant 0 <= j <= |page|
      invariant ScanState(calls0, store.calls, folders0, store.folders, posts0, transport.posts, groups0, store.groups,
                          page[..j], outcomes, dest, config, sent0, reachable0)
      invariant |store.Results(WellKnown(Inbox), NdrFilter())| <= inbox0
      invariant transport.reachable == reachable0
      invariant config.dryRun ==> transport.posts == posts0
      invariant dest != WellKnown(SentItems) ==> store.Contents(WellKnown(SentItems)) == sent0
    {
      var item := page[j];
      ghost var callsBefore := store.calls;
      ghost var f1, p1, g1, sent1 := store.folders, transport.posts, store.groups, store.Contents(WellKnown(SentItems));
      var result := HandleItem(store, transport, item, config, dest);
      ItemStateStep(callsBefore, store.calls, f1, store.folders, p1, transport.posts, g1, store.groups,
                    calls0, folders0, posts0, groups0, page, j, outcomes, result, dest, config, sent0, sent1, reachable0);
      outcomes := outcomes + [result];
      j := j + 1;
    }
    assert page[..|page|] == page;
  }

  /** What the scan has done so far, given the pages received: one outcome per
      item, the processed items moved in order, and each outcome the expected one. */
  ghost predicate ScanLog(calls0: seq<Call>, calls: seq<Call>, scanned: seq<Item>, outcomes: seq<NdrOutcome>,
                          dest: FolderId, dryRun: bool, sent: seq<Item>, reachable: bool)
  {
    && |outcomes| == |scanned|
    && Moves(calls) == Moves(calls0) + MovesFor(scanned, outcomes, dest, dryRun)
    && (dest != WellKnown(SentItems) ==> outcomes == ExpectedOutcomes(scanned, sent, dryRun, reachable))
  }

  lemma ScanLogStep(calls0: seq<Call>, calls1: seq<Call>, calls2: seq<Call>, scanned: seq<Item>, outcomes: seq<NdrOutcome>,
                    page: seq<Item>, pageOutcomes: seq<NdrOutcome>, dest: FolderId, dryRun: bool, sent: seq<Item>, reachable: bool)
    requires ScanLog(calls0, calls1, scanned, outcomes, dest, dryRun, sent, reachable)
    requires |pageOutcomes| == |page|
    requires Moves(calls2) == Moves(calls1) + MovesFor(page, pageOutcomes, dest, dryRun)
    requires dest != WellKnown(SentItems) ==> pageOutcomes == ExpectedOutcomes(page, sent, dryRun, reachable)
    ensures ScanLog(calls0, calls2, scanned + page, outcomes + pageOutcomes, dest, dryRun, sent, reachable)
  {
    MovesForAppend(scanned, outcomes, page, pageOutcomes, dest, dryRun);
    ConcatAssoc(Moves(calls0), MovesFor(scanned, outcomes, dest, dryRun), MovesFor(page, pageOutcomes, dest, dryRun));
    ExpectedOutcomesAppend(scanned, page, sent, dryRun, reachable);
  }

  /** The scan of `processNdrMessages`: the Inbox is searched in views of ten,
      starting at 0 and continuing at `NextPageOffset` while `MoreAvailable`; every
      item received is handled and the processed ones are moved to `dest`. The
      pages are those the store returned as the scan went on; nothing is claimed
      about items the moves made the offsets skip. */
  method ScanInbox(store: Store, transport: Transport, cfg: NdrConfig, dest: FolderId)
    returns (ghost offsets: seq<nat>, ghost pages: seq<FindResult<Item>>, ghost outcomes: seq<NdrOutcome>)
    modifies store, transport
    ensures Trace(offsets, pages, false)
    ensures pages[0] == FindPage(Matching(old(store.Contents(WellKnown(Inbox))), NdrFilter()), PageSize, 0)
    ensures ScanLog(old(store.calls), store.calls, Yielded(pages), outcomes, dest, cfg.dryRun, old(store.Contents(WellKnown(SentItems))), old(transport.reachable))
    ensures ScanEffects(old(store.folders), store.folders, old(transport.posts), transport.posts, old(store.groups), store.groups,
                        Yielded(pages), outcomes, dest, cfg, old(store.Contents(WellKnown(SentItems))), old(transport.reachable))
    ensures transport.reachable == old(transport.reachable)
    ensures cfg.dryRun ==> transport.posts == old(transport.posts)
  {
    offsets, pages, outcomes := [], [], [];
    ghost var inbox0 := store.Contents(WellKnown(Inbox));
    ghost var sent0 := store.Contents(WellKnown(SentItems));
    ghost var reachable0 := transport.reachable;
    ghost var calls0 := store.calls;
    ghost var scanned: seq<Item> := [];
    ghost var folders0, posts0, groups0 := store.folders, transport.posts, store.groups;
    EffectsNone(folders0, posts0, groups0, dest, cfg, sent0, reachable0);
    var offset := 0;
    while true
      invariant OpenTrace(offsets, pages, false, offset)
      invariant pages == [] ==> store.Contents(WellKnown(Inbox)) == inbox0
      invariant |pages| > 0 ==> pages[0] == FindPage(Matching(inbox0, NdrFilter()), PageSize, 0)
      invariant scanned == Yielded(pages)
      invariant ScanState(calls0, store.calls, folders0, store.folders, posts0, transport.posts, groups0, store.groups,
                          scanned, outcomes, dest, cfg, sent0, reachable0)
      invariant transport.reachable == reachable0
      invariant cfg.dryRun ==> transport.posts == posts0
      invariant dest != WellKnown(SentItems) ==> store.Contents(WellKnown(SentItems)) == sent0
      decreases Slack(|store.Results(WellKnown(Inbox), NdrFilter())|, offset)
    {
      var found;
      found, offsets, pages, scanned, outcomes := ScanPage(store, transport, cfg, dest, offset, offsets, pages, inbox0, calls0, scanned, outcomes, sent0,
                                                             folders0, posts0, groups0);
      if !found.moreAvailable {
        break;
      }
      offset := found.nextPageOffset;
    }
  }

  /** One request of the scan: the view of ten at `offset` over the current Inbox
      search results, then every item received handled and moved as processed.
      The ghost parameters are the scan so far, returned extended by this page. */
  method ScanPage(store: Store, transport: Transport, cfg: NdrConfig, dest: FolderId, offset: nat,
                  ghost offsets: seq<nat>, ghost pages: seq<FindResult<Item>>, ghost inbox0: seq<Item>,
                  ghost calls0: seq<Call>, ghost scanned: seq<Item>, ghost outcomes: seq<NdrOutcome>, ghost sent: seq<Item>,
                  ghost folders0: map<FolderId, seq<Item>>, ghost posts0: seq<Post>, ghost groups0: seq<ContactGroup>)
    returns (found: FindResult<Item>, ghost offsets': seq<nat>, ghost pages': seq<FindResult<Item>>,
             ghost scanned': seq<Item>, ghost outcomes': seq<NdrOutcome>)
    modifies store, transport
    requires OpenTrace(offsets, pages, false, offset)
    requires pages == [] ==> store.Contents(WellKnown(Inbox)) == inbox0
    requires |pages| > 0 ==> pages[0] == FindPage(Matching(inbox0, NdrFilter()), PageSize, 0)
    requires scanned == Yielded(pages)
    requires ScanState(calls0, store.calls, folders0, store.folders, posts0, transport.posts, groups0, store.groups,
                       scanned, outcomes, dest, cfg, sent, transport.reachable)
    requires dest != WellKnown(SentItems) ==> store.Contents(WellKnown(SentItems)) == sent
    ensures found == FindPage(old(store.Results(WellKnown(Inbox), NdrFilter())), PageSize, offset)
    ensures offsets' == offsets + [offset] && pages' == pages + [found]
    ensures found.moreAvailable ==> OpenTrace(offsets', pages', false, found.nextPageOffset)
    ensures !found.moreAvailable ==> Trace(offsets', pages', false)
    ensures found.moreAvailable ==>
              Slack(|store.Results(WellKnown(Inbox), NdrFilter())|, found.nextPageOffset)
              < Slack(|old(store.Results(WellKnown(Inbox), NdrFilter()))|, offset)
    ensures pages'[0] == FindPage(Matching(inbox0, NdrFilter()), PageSize, 0)
    ensures scanned' == Yielded(pages')
    ensures ScanState(calls0, store.calls, folders0, store.folders, posts0, transport.posts, groups0, store.groups,
                      scanned', outcomes', dest, cfg, sent, transport.reachable)
    ensures transport.reachable == old(transport.reachable)
    ensures cfg.dryRun ==> transport.posts == old(transport.posts)
    ensures dest != WellKnown(SentItems) ==> store.Contents(WellKnown(SentItems)) == sent
  {
    ghost var callsBefore := store.calls;
    ghost var f1, p1, g1, sent1 := store.folders, transport.posts, store.groups, store.Contents(WellKnown(SentItems));
    ghost var before := |store.Results(WellKnown(Inbox), NdrFilter())|;
    var pageOutcomes;
    found, pageOutcomes := FetchAndHandle(store, transport, cfg, dest, offset);
    ScanStateStep(callsBefore, store.calls, f1, store.folders, p1, transport.posts, g1, store.groups,
                  calls0, folders0, posts0, groups0, scanned, outcomes, found.items, pageOutcomes, dest, cfg, sent, sent1, transport.reachable);
    TraceStep(offsets, pages, false, offset, PageSize, FindPage(Matching(inbox0, NdrFilter()), PageSize, 0), found,
              before, |store.Results(WellKnown(Inbox), NdrFilter())|);
    YieldedAppend(pages, found);
    offsets', pages' := offsets + [offset], pages + [found];
    scanned', outcomes' := scanned + found.items, outcomes + pageOutcomes;
  }

  /** The request itself: the view of ten at `offset` over the current Inbox search
      results; when it holds items, their extra properties are loaded and each is
      handled and moved as processed. */
  method FetchAndHandle(store: Store, transport: Transport, cfg: NdrConfig, dest: FolderId, offset: nat)
    returns (found: FindResult<Item>, pageOutcomes: seq<NdrOutcome>)
    modifies store, transport
    ensures found == FindPage(old(store.Results(WellKnown(Inbox), NdrFilter())), PageSize, offset)
    ensures |pageOutcomes| == |found.items|
    ensures Moves(store.calls) == Moves(old(store.calls)) + MovesFor(found.items, pageOutcomes, dest, cfg.dryRun)
    ensures ScanEffects(old(store.folders), store.folders, old(transport.posts), transport.posts, old(store.groups), store.groups,
                        found.items, pageOutcomes, dest, cfg, old(store.Contents(WellKnown(SentItems))), old(transport.reachable))
    ensures |store.Results(WellKnown(Inbox), NdrFilter())| <= |old(store.Results(WellKnown(Inbox), NdrFilter()))|
    ensures transport.reachable == old(transport.reachable)
    ensures cfg.dryRun ==> transport.posts == old(transport.posts)
    ensures dest != WellKnown(SentItems) ==>
              && store.Contents(WellKnown(SentItems)) == old(store.Contents(WellKnown(SentItems)))
              && pageOutcomes == ExpectedOutcomes(found.items, old(store.Contents(WellKnown(SentItems))), cfg.dryRun, old(transport.reachable))
  {
    found := store.FindItems(WellKnown(Inbox), NdrFilter(), PageSize, offset);
    if |found.items| > 0 {
      LoadNdrProperties(store, found.items);
      pageOutcomes := HandlePage(store, transport, found.items, cfg, dest);
    } else {
      pageOutcomes := [];
      assert MovesFor([], [], dest, cfg.dryRun) == [];
      EffectsNone(store.folders, transport.posts, store.groups, dest, cfg, store.Contents(WellKnown(SentItems)), transport.reachable);
    }
  }

  lemma ScanLogFrom(c0: seq<Call>, c1: seq<Call>, c2: seq<Call>, scanned: seq<Item>, outcomes: seq<NdrOutcome>,
                    dest: FolderId, dryRun: bool, sent: seq<Item>, reachable: bool)
    requires Moves(c1) == Moves(c0)
    requires ScanLog(c1, c2, scanned, outcomes, dest, dryRun, sent, reachable)
    ensures ScanLog(c0, c2, scanned, outcomes, dest, dryRun, sent, reachable)
  {
  }

  /** The scan loads the extra properties of a page before handling it and does
      not look at whether the load succeeded. */
  method LoadNdrProperties(store: Store, items: seq<Item>) {
    var loaded := store.LoadPropertiesForItems(items);
  }

  /** `processNdrMessages`. Without a valid configuration it exits with 4 and
      touches nothing; when the processed folder is ambiguous it exits with 2;
      otherwise it finds or creates that folder and scans the Inbox into it. */
  method ProcessNdrMessages(store: Store, transport: Transport, config: Option<NdrConfig>)
    returns (exit: Exit, ghost processedFolder: FolderId, ghost offsets: seq<nat>, ghost pages: seq<FindResult<Item>>, ghost outcomes: seq<NdrOutcome>)
    modifies store, transport
    ensures config.None? <==> exit == Exited(4)
    ensures config.None? ==> store.folders == old(store.folders) && store.calls == old(store.calls) && transport.posts == old(transport.posts)
                             && store.groups == old(store.groups)
    ensures config.Some? ==>
              var all := FoldersNamed(old(store.folderList), ProcessedFolderName(config.value), true);
              && (exit == Exited(2) <==> |all| > 1)
              && (|all| == 1 ==> processedFolder == all[0].id)
              && (|all| == 0 ==> processedFolder == Custom(MaxCustomKey(old(store.folderList)) + 1))
    ensures exit == Exited(2) ==> store.folders == old(store.folders) && store.calls == old(store.calls) && transport.posts == old(transport.posts)
                                  && store.groups == old(store.groups)
    ensures exit == Completed ==>
              var created := |FoldersNamed(old(store.folderList), ProcessedFolderName(config.value), true)| == 0;
              ScanEffects(if created then old(store.folders)[processedFolder := []] else old(store.folders), store.folders,
                          old(transport.posts), transport.posts, old(store.groups), store.groups,
                          Yielded(pages), outcomes, processedFolder, config.value,
                          old(store.Contents(WellKnown(SentItems))), old(transport.reachable))
    ensures exit == Completed ==>
              && Trace(offsets, pages, false)
              && pages[0] == FindPage(Matching(old(store.Contents(WellKnown(Inbox))), NdrFilter()), PageSize, 0)
              && ScanLog(old(store.calls), store.calls, Yielded(pages), outcomes, processedFolder, config.value.dryRun,
                         old(store.Contents(WellKnown(SentItems))), old(transport.reachable))
              && (config.value.dryRun ==> transport.posts == old(transport.posts))
  {
    offsets, pages, outcomes := [], [], [];
    processedFolder := WellKnown(Inbox);
    if config.None? {
      return Exited(4), processedFolder, offsets, pages, outcomes;
    }
    var cfg := config.value;
    var folder := FindOrCreateFolder(store, ProcessedFolderName(cfg));
    if folder.None? {
      return Exited(2), processedFolder, offsets, pages, outcomes;
    }
    var dest := folder.value.id;
    processedFolder := dest;
    assert store.Contents(WellKnown(Inbox)) == old(store.Contents(WellKnown(Inbox)));
    assert store.Contents(WellKnown(SentItems)) == old(store.Contents(WellKnown(SentItems)));
    ghost var calls1 := store.calls;
    assert Moves(calls1) == Moves(old(store.calls)) by {
      if calls1 != old(store.calls) {
        MovesAppend(old(store.calls), [FolderSaved(ProcessedFolderName(cfg))]);
      }
    }
    offsets, pages, outcomes := ScanInbox(store, transport, cfg, dest);
    ScanLogFrom(old(store.calls), calls1, store.calls, Yielded(pages), outcomes, dest, cfg.dryRun,
                old(store.Contents(WellKnown(SentItems))), old(transport.reachable));
    exit := Completed;
  }
}
