/** `find-duplicates`: group the e-mails sent on one day by their content and
    report the groups that were sent more than once. */
module FindDuplicates {
  import opened Wrappers
  import opened Paging
  import opened Mailbox
  import opened EmailScan

  /** The most e-mails the consumer takes. */
  const MaxItemsToLoop: nat := 10000
  /** The item view: the smaller of the maximum and 250. */
  const ViewSize: nat := if MaxItemsToLoop < 250 then MaxItemsToLoop else 250
  /** 2022-04-06T00:00:00Z and 2022-04-07T00:00:00Z, in milliseconds since the epoch. */
  const After := 1649203200000
  const Before := 1649289600000

  /** The error `emailsInFolder` throws when a page's properties do not load. */
  const LoadError := "Could not load properties for all items."

  /** What the script logs: the e-mails scanned, the number of distinct
      identifiers, and the arrays of more than one record. */
  datatype Report = Report(count: nat, collectionCount: nat, list: seq<seq<EmailRecord>>)

  /** The report over a collection and a count. */
  function ReportOf(g: Grouping, count: nat): (r: Report)
    ensures r.count == count && r.collectionCount == |g.keys|
    ensures |r.list| <= |g.keys|
    ensures forall d :: d in r.list <==> IsDuplicateGroup(g.keys, g.groups, d)
  {
    DuplicateGroupsExact(g.keys, g.groups);
    Report(count, |g.keys|, DuplicateGroups(g.keys, g.groups))
  }

  /** The report over some records names each identifier once and lists exactly
      the records of every identifier seen more than once, in push order. */
  lemma ReportExact(records: seq<EmailRecord>)
    ensures var r := ReportOf(Group(records), |records|);
            && r.collectionCount <= |records|
            && (r.collectionCount == 0 <==> records == [])
            && (forall d :: d in r.list <==> SentMoreThanOnce(records, d))
  {
    var g := Group(records);
    GroupCollects(records);
    CollectedList(g, records);
    CollectedCount(g, records);
  }

  /** The records of some identifier, when there are more than one of them. */
  ghost predicate SentMoreThanOnce(records: seq<EmailRecord>, d: seq<EmailRecord>) {
    exists k :: d == WithKey(records, k) && |d| > 1
  }

  lemma CollectedList(g: Grouping, records: seq<EmailRecord>)
    requires Collects(g, records)
    ensures forall d :: d in ReportOf(g, |records|).list <==> SentMoreThanOnce(records, d)
  {
    var list := ReportOf(g, |records|).list;
    forall d | SentMoreThanOnce(records, d) ensures d in list {
      var k :| d == WithKey(records, k) && |d| > 1;
      assert k in g.groups;
      var i :| 0 <= i < |g.keys| && g.keys[i] == k;
    }
    forall d | d in list ensures SentMoreThanOnce(records, d) {
      var i :| 0 <= i < |g.keys| && g.keys[i] in g.groups && g.groups[g.keys[i]] == d && |d| > 1;
      assert d == WithKey(records, g.keys[i]);
    }
  }

  lemma CollectedCount(g: Grouping, records: seq<EmailRecord>)
    requires Collects(g, records)
    ensures |g.keys| <= |records|
    ensures |g.keys| == 0 <==> records == []
  {
    TotalBound(g.keys, g.groups);
    if records != [] {
      var k := records[|records| - 1].key;
      assert WithKey(records, k) != [];
      assert k in g.keys;
    }
  }

  /** Each key contributes at least one record to the total when its array is non-empty. */
  lemma {:induction false} TotalBound(keys: seq<EmailKey>, groups: map<EmailKey, seq<EmailRecord>>)
    requires forall k :: k in keys ==> k in groups && groups[k] != []
    ensures |keys| <= Total(keys, groups)
  {
    if keys != [] {
      var init := keys[..|keys| - 1];
      assert forall k :: k in init ==> k in keys;
      TotalBound(init, groups);
    }
  }

  /** The script: `emailsInFolder` on Sent Items between 6 and 7 April 2022 in
      views of 250, each e-mail counted and pushed under its identifier, stopping
      at the 10000th. A failed property load throws out of the loop. */
  method FindDuplicatesMain(store: Store, hash: string -> string) returns (r: Result<Report>, ghost last: nat)
    ensures var all := store.Results(WellKnown(SentItems), EmailFilter(After, Before));
            && LoadedBefore(all, ViewSize, last, store.unloadable)
            && (r.Err? <==> LoadFails(FindPage(all, ViewSize, last).items, store.unloadable))
            && (r.Err? ==> r.message == LoadError && last < Cap(Some(MaxItemsToLoop), |all|))
            && (r.Ok? ==> last <= r.value.count <= last + ViewSize && (r.value.count > 0 ==> last < r.value.count))
            && (r.Ok? ==> r.value.count == Cap(Some(MaxItemsToLoop), |all|)
                          && r.value == ReportOf(Group(Records(all[..r.value.count], hash)), r.value.count))
  {
    var outcome, count;
    outcome, count, last := CollectEmails(store, WellKnown(SentItems), EmailFilter(After, Before), ViewSize, Some(MaxItemsToLoop), hash);
    match outcome
    case LoadFailed =>
      r := Err(LoadError);
    case Collected(g) =>
      r := Ok(ReportOf(g, count));
  }

  /** The report lists the e-mails of one content sent more than once, amongst
      the first 10000 of the day, and no other. */
  lemma ReportedDuplicates(all: seq<Item>, count: nat, hash: string -> string)
    requires count == Cap(Some(MaxItemsToLoop), |all|)
    ensures var r := ReportOf(Group(Records(all[..count], hash)), count);
            && r.count <= MaxItemsToLoop
            && r.collectionCount <= r.count
            && (forall d :: d in r.list <==> SentMoreThanOnce(Records(all[..count], hash), d))
  {
    ReportExact(Records(all[..count], hash));
  }
}
