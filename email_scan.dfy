/** `emailsInFolder` and the grouping of e-mails by content that both duplicate
    finders build over what it yields. */
module EmailScan {
  import opened Wrappers
  import opened Paging
  import opened Mailbox

  /** The restriction of `emailsInFolder`: created strictly between `after` and
      `before`, of item class "IPM.Note". */
  function EmailFilter(after: int, before: int): Filter {
    [CreatedAfter(after), CreatedBefore(before), ClassIs("IPM.Note")]
  }

  /** Whether LoadPropertiesForItems on `items` fails for some item. */
  predicate LoadFails(items: seq<Item>, unloadable: set<ItemId>) {
    exists k :: 0 <= k < |items| && items[k].id in unloadable
  }

  /** The load of a page's properties; the overall result is not Success exactly when some item fails. */
  method LoadPage(store: Store, items: seq<Item>) returns (failed: bool)
    ensures failed == LoadFails(items, store.unloadable)
  {
    var overall := store.LoadPropertiesForItems(items);
    failed := overall != Success;
  }

  // ---------------------------------------------------------------------------
  // Grouping

  /** The identifier of an e-mail: the hash of its body text, its subject and its
      To line. The identifier string is the JSON array of these three strings,
      which tells triples apart, so the triple stands for it. */
  datatype EmailKey = EmailKey(bodyHash: string, subject: string, to: string)

  /** What is pushed for an e-mail: the send time, the message id and the identifier fields. */
  datatype EmailRecord = EmailRecord(sent: int, imid: string, key: EmailKey)

  /** The record of an e-mail; `hash` is the MD5 hex digest of a text. */
  function RecordOf(item: Item, hash: string -> string): (r: EmailRecord)
    ensures r.key.subject == item.subject && r.key.to == item.displayTo && r.key.bodyHash == hash(item.body)
    ensures r.sent == item.sent && r.imid == item.internetMessageId
  {
    EmailRecord(item.sent, item.internetMessageId, EmailKey(hash(item.body), item.subject, item.displayTo))
  }

  /** The records of some e-mails, in order. */
  function Records(items: seq<Item>, hash: string -> string): (r: seq<EmailRecord>)
    ensures |r| == |items|
  {
    seq(|items|, k requires 0 <= k < |items| => RecordOf(items[k], hash))
  }

  lemma RecordsSplit(items: seq<Item>, more: seq<Item>, n: nat, hash: string -> string)
    requires n <= |more|
    ensures Records(items + more[..n], hash) == Records(items, hash) + Records(more, hash)[..n]
  {
  }

  /** The `collection` object: its keys in insertion order and the array under each. */
  datatype Grouping = Grouping(keys: seq<EmailKey>, groups: map<EmailKey, seq<EmailRecord>>)

  /** One step of the loop: create the array for a new identifier, then push. */
  function AddRecord(g: Grouping, r: EmailRecord): Grouping {
    if r.key in g.groups then Grouping(g.keys, g.groups[r.key := g.groups[r.key] + [r]])
    else Grouping(g.keys + [r.key], g.groups[r.key := [r]])
  }

  /** The collection after pushing `records` in order into `g`. */
  function Push(g: Grouping, records: seq<EmailRecord>): Grouping {
    if records == [] then g
    else AddRecord(Push(g, records[..|records| - 1]), records[|records| - 1])
  }

  /** The collection after pushing `records` in order into an empty one. */
  function Group(records: seq<EmailRecord>): Grouping {
    Push(Grouping([], map[]), records)
  }

  lemma PushStep(g: Grouping, records: seq<EmailRecord>, j: nat)
    requires j < |records|
    ensures Push(g, records[..j + 1]) == AddRecord(Push(g, records[..j]), records[j])
  {
    assert records[..j + 1][..j] == records[..j];
  }

  /** Pushing two runs of records is pushing their concatenation. */
  lemma {:induction false} PushAppend(g: Grouping, a: seq<EmailRecord>, b: seq<EmailRecord>)
    ensures Push(Push(g, a), b) == Push(g, a + b)
  {
    if b != [] {
      var init := b[..|b| - 1];
      PushAppend(g, a, init);
      assert (a + b)[..|a + b| - 1] == a + init;
      assert (a + b)[|a + b| - 1] == b[|b| - 1];
      assert Push(g, a + b) == AddRecord(Push(g, a + init), b[|b| - 1]);
      assert Push(Push(g, a), b) == AddRecord(Push(Push(g, a), init), b[|b| - 1]);
    } else {
      assert a + b == a;
    }
  }

  /** The records with identifier `k`, in order. */
  function WithKey(records: seq<EmailRecord>, k: EmailKey): seq<EmailRecord> {
    if records == [] then []
    else WithKey(records[..|records| - 1], k) + (if records[|records| - 1].key == k then [records[|records| - 1]] else [])
  }

  /** The sum of the array lengths over the keys. */
  function Total(keys: seq<EmailKey>, groups: map<EmailKey, seq<EmailRecord>>): nat {
    if keys == [] then 0
    else Total(keys[..|keys| - 1], groups) + (if keys[|keys| - 1] in groups then |groups[keys[|keys| - 1]]| else 0)
  }

  predicate Distinct(keys: seq<EmailKey>) {
    forall i, j :: 0 <= i < j < |keys| ==> keys[i] != keys[j]
  }

  /** Changing the array of a key listed once changes the total by the difference. */
  lemma {:induction false} TotalUpdate(keys: seq<EmailKey>, groups: map<EmailKey, seq<EmailRecord>>, k: EmailKey, v: seq<EmailRecord>)
    requires Distinct(keys)
    ensures k in keys && k in groups ==> Total(keys, groups[k := v]) + |groups[k]| == Total(keys, groups) + |v|
    ensures k !in keys ==> Total(keys, groups[k := v]) == Total(keys, groups)
  {
    if keys != [] {
      var init := keys[..|keys| - 1];
      assert Distinct(init);
      TotalUpdate(init, groups, k, v);
      if keys[|keys| - 1] == k {
        assert k !in init;
      } else {
        assert k in keys ==> k in init;
      }
    }
  }

  /** The collection is well formed and holds exactly the records pushed, each
      once, under its own identifier and in push order; a key exists exactly
      for the identifiers seen; the array lengths add up to the records pushed. */
  ghost predicate Collects(g: Grouping, records: seq<EmailRecord>) {
    && Distinct(g.keys)
    && (forall k :: k in g.groups <==> k in g.keys)
    && (forall k :: k in g.groups <==> WithKey(records, k) != [])
    && (forall k :: k in g.groups ==> g.groups[k] == WithKey(records, k))
    && Total(g.keys, g.groups) == |records|
  }

  lemma WithKeySnoc(records: seq<EmailRecord>, r: EmailRecord, k: EmailKey)
    ensures WithKey(records + [r], k) == WithKey(records, k) + (if r.key == k then [r] else [])
  {
    assert (records + [r])[..|records|] == records;
  }

  /** The records under an identifier are the records pushed with it. */
  lemma {:induction false} WithKeyMembers(records: seq<EmailRecord>, k: EmailKey)
    ensures forall x :: x in WithKey(records, k) <==> x in records && x.key == k
  {
    if records != [] {
      var init := records[..|records| - 1];
      WithKeyMembers(init, k);
      assert records == init + [records[|records| - 1]];
    }
  }

  lemma {:induction false} GroupCollects(records: seq<EmailRecord>)
    ensures Collects(Group(records), records)
  {
    if records != [] {
      var init := records[..|records| - 1];
      var r := records[|records| - 1];
      GroupCollects(init);
      assert records == init + [r];
      CollectsStep(Group(init), init, r);
      assert Group(records) == AddRecord(Group(init), r);
    }
  }

  lemma CollectsStep(g: Grouping, records: seq<EmailRecord>, r: EmailRecord)
    requires Collects(g, records)
    ensures Collects(AddRecord(g, r), records + [r])
  {
    DistinctStep(g, r);
    ContentsStep(g, records, r);
    TotalStep(g, records, r);
  }

  /** A push keeps every array equal to the records with its identifier. */
  lemma ContentsStep(g: Grouping, records: seq<EmailRecord>, r: EmailRecord)
    requires forall k :: k in g.groups <==> WithKey(records, k) != []
    requires forall k :: k in g.groups ==> g.groups[k] == WithKey(records, k)
    ensures forall k :: k in AddRecord(g, r).groups <==> WithKey(records + [r], k) != []
    ensures forall k :: k in AddRecord(g, r).groups ==> AddRecord(g, r).groups[k] == WithKey(records + [r], k)
  {
    forall k ensures WithKey(records + [r], k) == WithKey(records, k) + (if r.key == k then [r] else []) {
      WithKeySnoc(records, r, k);
    }
  }

  /** A push adds one to the total. */
  lemma TotalStep(g: Grouping, records: seq<EmailRecord>, r: EmailRecord)
    requires Distinct(g.keys)
    requires forall k :: k in g.groups <==> k in g.keys
    requires Total(g.keys, g.groups) == |records|
    ensures Total(AddRecord(g, r).keys, AddRecord(g, r).groups) == |records| + 1
  {
    TotalUpdate(g.keys, g.groups, r.key, if r.key in g.groups then g.groups[r.key] + [r] else [r]);
    if r.key !in g.groups {
      var keys' := g.keys + [r.key];
      assert keys'[..|g.keys|] == g.keys;
      assert keys'[|g.keys|] == r.key;
    }
  }

  lemma DistinctStep(g: Grouping, r: EmailRecord)
    requires Distinct(g.keys)
    requires forall k :: k in g.groups <==> k in g.keys
    ensures Distinct(AddRecord(g, r).keys)
    ensures forall k :: k in AddRecord(g, r).groups <==> k in AddRecord(g, r).keys
  {
  }

  /** `filter(collection, item => item.length > 1)`: the arrays of more than one record, in key order. */
  function DuplicateGroups(keys: seq<EmailKey>, groups: map<EmailKey, seq<EmailRecord>>): seq<seq<EmailRecord>> {
    if keys == [] then []
    else
      var k := keys[|keys| - 1];
      DuplicateGroups(keys[..|keys| - 1], groups) + (if k in groups && |groups[k]| > 1 then [groups[k]] else [])
  }

  /** `d` is the array of some key of `keys`, and it holds more than one record. */
  ghost predicate IsDuplicateGroup(keys: seq<EmailKey>, groups: map<EmailKey, seq<EmailRecord>>, d: seq<EmailRecord>) {
    exists i :: 0 <= i < |keys| && keys[i] in groups && groups[keys[i]] == d && |d| > 1
  }

  /** The duplicate list holds exactly the arrays of more than one record. */
  lemma {:induction false} DuplicateGroupsExact(keys: seq<EmailKey>, groups: map<EmailKey, seq<EmailRecord>>)
    ensures forall d :: d in DuplicateGroups(keys, groups) <==> IsDuplicateGroup(keys, groups, d)
    ensures |DuplicateGroups(keys, groups)| <= |keys|
  {
    if keys != [] {
      var n := |keys| - 1;
      var init := keys[..n];
      DuplicateGroupsExact(init, groups);
      assert DuplicateGroups(keys, groups) ==
             DuplicateGroups(init, groups) + (if keys[n] in groups && |groups[keys[n]]| > 1 then [groups[keys[n]]] else []);
      forall d | d in DuplicateGroups(keys, groups) ensures IsDuplicateGroup(keys, groups, d) {
        if d in DuplicateGroups(init, groups) {
          var i :| 0 <= i < |init| && init[i] in groups && groups[init[i]] == d && |d| > 1;
          assert keys[i] == init[i];
        } else {
          assert keys[n] in groups && groups[keys[n]] == d && |d| > 1;
        }
      }
      forall d | IsDuplicateGroup(keys, groups, d) ensures d in DuplicateGroups(keys, groups) {
        var i :| 0 <= i < |keys| && keys[i] in groups && groups[keys[i]] == d && |d| > 1;
        if i < n {
          assert init[i] == keys[i];
          assert IsDuplicateGroup(init, groups, d);
        }
      }
    }
  }

  // ---------------------------------------------------------------------------
  // The scan

  /** What the consumer loop did with a scan: the records grouped so far, or the
      error the generator threw. */
  datatype ScanOutcome = Collected(grouping: Grouping) | LoadFailed

  /** How many e-mails a consumer with `limit` takes from `n` results. */
  function Cap(limit: Option<nat>, n: nat): (c: nat)
    ensures c <= n && (limit.Some? ==> c <= limit.value)
    ensures c == n || (limit.Some? && c == limit.value)
  {
    if limit.Some? && limit.value < n then limit.value else n
  }

  /** The pages of `size` before `offset` all load: `offset` is a multiple of
      `size` and every view at a smaller multiple has its properties loaded. */
  ghost predicate LoadedBefore(all: seq<Item>, size: nat, offset: nat, unloadable: set<ItemId>)
    decreases offset
  {
    if offset == 0 then true
    else
      && 0 < size <= offset
      && LoadedBefore(all, size, offset - size, unloadable)
      && !LoadFails(FindPage(all, size, offset - size).items, unloadable)
  }

  lemma LoadedBeforeStep(all: seq<Item>, size: nat, offset: nat, next: nat, unloadable: set<ItemId>)
    requires size > 0 && next == offset + size && LoadedBefore(all, size, offset, unloadable)
    requires !LoadFails(FindPage(all, size, offset).items, unloadable)
    ensures LoadedBefore(all, size, next, unloadable)
  {
    assert next - size == offset;
  }

  /** Two offsets both reached by loaded views lie at least a view apart. */
  lemma {:induction false} LoadedBeforeGap(all: seq<Item>, size: nat, u: set<ItemId>, a: nat, b: nat)
    requires LoadedBefore(all, size, a, u) && LoadedBefore(all, size, b, u) && a < b
    ensures 0 < size && a + size <= b
    decreases a
  {
    if a > 0 {
      LoadedBeforeGap(all, size, u, a - size, b - size);
    }
  }

  /** Every view before an offset reached by loaded views has loaded. */
  lemma {:induction false} LoadedBeforeEarlier(all: seq<Item>, size: nat, u: set<ItemId>, a: nat, b: nat)
    requires LoadedBefore(all, size, a, u) && LoadedBefore(all, size, b, u) && a < b
    ensures !LoadFails(FindPage(all, size, a).items, u)
    decreases b
  {
    if a != b - size {
      LoadedBeforeGap(all, size, u, a, b);
      LoadedBeforeEarlier(all, size, u, a, b - size);
    }
  }

  /** A scan can fail at one view only: the first whose load fails. */
  lemma FailureUnique(all: seq<Item>, size: nat, u: set<ItemId>, a: nat, b: nat)
    requires LoadedBefore(all, size, a, u) && LoadFails(FindPage(all, size, a).items, u)
    requires LoadedBefore(all, size, b, u) && LoadFails(FindPage(all, size, b).items, u)
    ensures a == b
  {
    if a < b {
      LoadedBeforeEarlier(all, size, u, a, b);
    } else if b < a {
      LoadedBeforeEarlier(all, size, u, b, a);
    }
  }

  /** When the view at `last` loads and reaches the end of the results, no view
      of the scan, at `last` or before it, fails to load. */
  lemma CompleteScanLoads(all: seq<Item>, size: nat, u: set<ItemId>, last: nat, l: nat)
    requires LoadedBefore(all, size, last, u) && !LoadFails(FindPage(all, size, last).items, u)
    requires |all| <= last + size
    requires LoadedBefore(all, size, l, u) && l < |all|
    ensures !LoadFails(FindPage(all, size, l).items, u)
  {
    if l < last {
      LoadedBeforeEarlier(all, size, u, l, last);
    } else if last < l {
      LoadedBeforeGap(all, size, u, last, l);
    }
  }

  /** How a scan of the results `all` in views of `size` ended, `last` being the
      offset of the last view requested: every earlier page loaded; the scan
      failed exactly when the last page did not load, after consuming the results
      before that page, fewer than it would have taken; otherwise it consumed the
      first results, all of them or `limit` of them, and grouped exactly those. */
  ghost predicate ScanEnded(all: seq<Item>, size: nat, limit: Option<nat>, unloadable: set<ItemId>, hash: string -> string,
                            outcome: ScanOutcome, count: nat, last: nat)
  {
    && last <= count <= |all| && count <= last + size
    && LoadedBefore(all, size, last, unloadable)
    && (outcome.LoadFailed? <==> LoadFails(FindPage(all, size, last).items, unloadable))
    && (outcome.LoadFailed? ==> count == last && count < Cap(limit, |all|))
    && (outcome.Collected? ==> count == Cap(limit, |all|) && (count > 0 ==> last < count))
    && (outcome.Collected? ==> outcome.grouping == Group(Records(all[..count], hash)))
  }

  /** The consumer over one page's e-mails: each is counted and pushed; with a
      `limit`, it stops right after the e-mail that brings the count to it. */
  method ConsumePage(items: seq<Item>, hash: string -> string, g: Grouping, count: nat, limit: Option<nat>)
    returns (g': Grouping, count': nat, stopped: bool)
    requires limit.Some? ==> count < limit.value
    ensures count <= count' <= count + |items|
    ensures g' == Push(g, Records(items, hash)[..count' - count])
    ensures stopped <==> limit.Some? && count' == limit.value
    ensures !stopped ==> count' == count + |items|
    ensures limit.Some? ==> count' <= limit.value
  {
    g', count' := g, count;
    ghost var records := Records(items, hash);
    var j := 0;
    while j < |items| && limit != Some(count')
      invariant 0 <= j <= |items| && count' == count + j
      invariant g' == Push(g, records[..j])
      invariant limit.Some? ==> count' <= limit.value
    {
      count' := count' + 1;
      g' := AddRecord(g', RecordOf(items[j], hash));
      PushStep(g, records, j);
      j := j + 1;
    }
    stopped := limit == Some(count');
  }

  /** The collection after a page is the collection of every result consumed so far. */
  lemma PushPage(all: seq<Item>, offset: nat, items: seq<Item>, count: nat, hash: string -> string)
    requires offset + |items| <= |all| && items == all[offset..offset + |items|]
    requires offset <= count <= offset + |items|
    ensures Push(Group(Records(all[..offset], hash)), Records(items, hash)[..count - offset]) == Group(Records(all[..count], hash))
  {
    var taken := count - offset;
    PushAppend(Grouping([], map[]), Records(all[..offset], hash), Records(items, hash)[..taken]);
    RecordsSplit(all[..offset], items, taken, hash);
    assert all[..offset] + items[..taken] == all[..count] by {
      assert items[..taken] == all[offset..count];
      assert all[..count] == all[..offset] + all[offset..count];
    }
  }

  /** What one turn of the generator and its consumer did: the view at `offset`
      held `received` items and said `more`; the load of its properties failed,
      or its first e-mails up to `count` were consumed into `g`, `stopped`
      saying the consumer reached its limit. */
  ghost predicate PageRead(all: seq<Item>, size: nat, limit: Option<nat>, unloadable: set<ItemId>, hash: string -> string,
                           offset: nat, failed: bool, g: Grouping, count: nat, stopped: bool, more: bool, received: nat)
  {
    && (failed <==> LoadFails(FindPage(all, size, offset).items, unloadable))
    && (failed ==> offset < |all|)
    && received <= size
    && more == FindPage(all, size, offset).moreAvailable
    && (more ==> received == size && offset + size < |all|)
    && (!more ==> offset + received == |all|)
    && (!failed ==> offset <= count <= offset + received && g == Group(Records(all[..count], hash)))
    && (!failed ==> (stopped <==> limit.Some? && count == limit.value))
    && (!failed && !stopped ==> count == offset + received)
    && (!failed && limit.Some? ==> count <= limit.value)
    && (!failed && count > 0 ==> offset < count)
  }

  /** One turn of `emailsInFolder` and its consumer: the view at `offset`, the
      load of its properties when it has items, and the consumption of its
      e-mails unless the load failed. */
  method ReadPage(store: Store, folder: FolderId, filter: Filter, size: nat, limit: Option<nat>, hash: string -> string,
                  g: Grouping, offset: nat, ghost all: seq<Item>)
    returns (failed: bool, g': Grouping, count': nat, stopped: bool, more: bool, received: nat)
    requires size > 0 && all == store.Results(folder, filter)
    requires offset <= |all| && (offset == 0 || offset < |all|)
    requires limit.Some? ==> offset < limit.value
    requires g == Group(Records(all[..offset], hash))
    ensures PageRead(all, size, limit, store.unloadable, hash, offset, failed, g', count', stopped, more, received)
  {
    var search := store.FindItems(folder, filter, size, offset);
    received, more := |search.items|, search.moreAvailable;
    failed := false;
    if |search.items| > 0 {
      failed := LoadPage(store, search.items);
    }
    if failed {
      g', count', stopped := g, offset, false;
    } else {
      g', count', stopped := ConsumePage(search.items, hash, g, offset, limit);
      PushPage(all, offset, search.items, count', hash);
    }
  }

  lemma EndedByFailure(all: seq<Item>, size: nat, limit: Option<nat>, u: set<ItemId>, hash: string -> string,
                       offset: nat, g: Grouping, count: nat, stopped: bool, more: bool, received: nat)
    requires LoadedBefore(all, size, offset, u) && (limit.Some? ==> offset < limit.value)
    requires PageRead(all, size, limit, u, hash, offset, true, g, count, stopped, more, received)
    ensures ScanEnded(all, size, limit, u, hash, LoadFailed, offset, offset)
  {
  }

  lemma EndedByCollection(all: seq<Item>, size: nat, limit: Option<nat>, u: set<ItemId>, hash: string -> string,
                          offset: nat, g: Grouping, count: nat, stopped: bool, more: bool, received: nat)
    requires LoadedBefore(all, size, offset, u) && offset <= |all|
    requires PageRead(all, size, limit, u, hash, offset, false, g, count, stopped, more, received)
    requires stopped || !more
    ensures ScanEnded(all, size, limit, u, hash, Collected(g), count, offset)
  {
  }

  lemma NextPage(all: seq<Item>, size: nat, limit: Option<nat>, u: set<ItemId>, hash: string -> string,
                 offset: nat, g: Grouping, count: nat, stopped: bool, more: bool, received: nat)
    requires size > 0 && LoadedBefore(all, size, offset, u)
    requires PageRead(all, size, limit, u, hash, offset, false, g, count, stopped, more, received)
    requires !stopped && more
    ensures count == offset + received && count < |all|
    ensures LoadedBefore(all, size, count, u)
    ensures limit.Some? ==> count < limit.value
    ensures g == Group(Records(all[..count], hash))
  {
    LoadedBeforeStep(all, size, offset, offset + received, u);
  }

  /** `emailsInFolder` with its consumer: views of `size` from offset 0, the
      offset advanced by the number of items received, while `MoreAvailable`.
      A page with items has its properties loaded first, and a failed load
      throws before any of its e-mails is yielded. Every e-mail yielded is
      counted and pushed into the collection; with a `limit`, the consumer stops
      as soon as the count reaches it, so no further page is requested. The
      store is only read, so the views see fixed results. */
  method CollectEmails(store: Store, folder: FolderId, filter: Filter, size: nat, limit: Option<nat>, hash: string -> string)
    returns (outcome: ScanOutcome, count: nat, ghost last: nat)
    requires size > 0
    requires limit.Some? ==> limit.value > 0
    ensures ScanEnded(store.Results(folder, filter), size, limit, store.unloadable, hash, outcome, count, last)
  {
    ghost var all := store.Results(folder, filter);
    var g := Grouping([], map[]);
    count := 0;
    var offset: nat := 0;
    assert all[..0] == [];
    while true
      invariant count == offset && offset <= |all| && (offset == 0 || offset < |all|)
      invariant LoadedBefore(all, size, offset, store.unloadable)
      invariant limit.Some? ==> count < limit.value
      invariant g == Group(Records(all[..count], hash))
      decreases |all| - offset
    {
      var failed, g', count', stopped, more, received := ReadPage(store, folder, filter, size, limit, hash, g, offset, all);
      last := offset;
      if failed {
        EndedByFailure(all, size, limit, store.unloadable, hash, offset, g', count', stopped, more, received);
        outcome, count := LoadFailed, offset;
        return;
      }
      if stopped || !more {
        EndedByCollection(all, size, limit, store.unloadable, hash, offset, g', count', stopped, more, received);
        outcome, count := Collected(g'), count';
        return;
      }
      NextPage(all, size, limit, store.unloadable, hash, offset, g', count', stopped, more, received);
      g, count, offset := g', count', count';
    }
  }

  /** A scan that collected with no limit reached groups every result. */
  lemma CollectedAll(all: seq<Item>, grouping: Grouping, limit: Option<nat>, count: nat, hash: string -> string)
    requires count == Cap(limit, |all|) && (limit.None? || |all| <= limit.value)
    requires grouping == Group(Records(all[..count], hash))
    ensures Collects(grouping, Records(all, hash))
  {
    assert all[..count] == all;
    GroupCollects(Records(all, hash));
  }
}
