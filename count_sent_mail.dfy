/** `count-sent-mail`: how many messages were sent per day since a cutoff, listed
    in ascending order of the day. */
module CountSentMail {
  import opened Text
  import opened Paging
  import opened Mailbox

  /** The item view of the scan. */
  const PageSize := 1000

  /** The restriction of the scan: created after the cutoff (a hundred days back). */
  function SentFilter(cutoff: int): Filter {
    [CreatedAfter(cutoff)]
  }

  /** The day key of each item; `format` stands for `DateTimeSent.Format("yy-MM-DD")`. */
  function DayKeys(items: seq<Item>, format: int -> string): (r: seq<string>)
    ensures |r| == |items|
    ensures forall k :: 0 <= k < |items| ==> r[k] == format(items[k].sent)
  {
    seq(|items|, k requires 0 <= k < |items| => format(items[k].sent))
  }

  lemma DayKeysAppend(a: seq<Item>, b: seq<Item>, format: int -> string)
    ensures DayKeys(a + b, format) == DayKeys(a, format) + DayKeys(b, format)
  {
    var l, r := DayKeys(a + b, format), DayKeys(a, format) + DayKeys(b, format);
    forall k | 0 <= k < |l| ensures l[k] == r[k] {
      if k < |a| {
        assert (a + b)[k] == a[k];
      } else {
        assert (a + b)[k] == b[k - |a|];
      }
    }
  }

  /** One view of a scan over results that do not change: the keys so far and
      those of the page are the keys of every result before the next offset. */
  lemma DayKeysStep(all: seq<Item>, offset: nat, format: int -> string)
    requires offset <= |all|
    ensures var page := FindPage(all, PageSize, offset);
            && DayKeys(all[..offset], format) + DayKeys(page.items, format) == DayKeys(all[..page.nextPageOffset], format)
            && (page.moreAvailable ==> offset < page.nextPageOffset <= |all|)
            && (!page.moreAvailable ==> all[..page.nextPageOffset] == all)
  {
    var page := FindPage(all, PageSize, offset);
    FixedPageStep(all, PageSize, offset);
    DayKeysAppend(all[..offset], page.items, format);
  }

  /** The paging loop of `countSentMail`: views of a thousand over Sent Items,
      starting at 0 and continuing at `NextPageOffset` while `MoreAvailable`, one
      day key pushed per item received. The scan only reads, so it sees every
      result once and in order; the day counts follow, sorted by day. */
  method CountSentMail(store: Store, cutoff: int, format: int -> string)
    returns (dates: seq<string>, sortedPairs: seq<DayCount>)
    ensures dates == DayKeys(store.Results(WellKnown(SentItems), SentFilter(cutoff)), format)
    ensures sortedPairs == SortPairs(ToPairs(dates))
  {
    ghost var all := store.Results(WellKnown(SentItems), SentFilter(cutoff));
    dates := [];
    var offset := 0;
    while true
      invariant offset <= |all|
      invariant dates == DayKeys(all[..offset], format)
      decreases |all| - offset
    {
      var found := store.FindItems(WellKnown(SentItems), SentFilter(cutoff), PageSize, offset);
      DayKeysStep(all, offset, format);
      dates := dates + DayKeys(found.items, format);
      if !found.moreAvailable {
        break;
      }
      offset := found.nextPageOffset;
    }
    sortedPairs := SortPairs(ToPairs(dates));
  }

  /** Every key collected is the day of a sent item created after the cutoff. */
  lemma DatesAfterCutoff(sent: seq<Item>, cutoff: int, format: int -> string)
    ensures var dates := DayKeys(Matching(sent, SentFilter(cutoff)), format);
            forall k :: 0 <= k < |dates| ==> exists x :: x in sent && x.created > cutoff && dates[k] == format(x.sent)
  {
    var results := Matching(sent, SentFilter(cutoff));
    forall k | 0 <= k < |results| ensures results[k] in sent && results[k].created > cutoff {
      assert results[k] in results;
      assert Holds(SentFilter(cutoff)[0], results[k]);
    }
  }

  // ---------------------------------------------------------------------------
  // countBy and the sorted pairs

  /** A day and the number of messages sent on it. */
  datatype DayCount = DayCount(day: string, count: nat)

  /** How often `key` occurs in `dates`. */
  function Occurrences(dates: seq<string>, key: string): nat {
    if dates == [] then 0
    else Occurrences(dates[..|dates| - 1], key) + (if dates[|dates| - 1] == key then 1 else 0)
  }

  /** The keys of `countBy(dates)` in the order an object enumerates them: first appearance. */
  function FirstSeen(dates: seq<string>): seq<string> {
    if dates == [] then []
    else
      var init := dates[..|dates| - 1];
      FirstSeen(init) + (if dates[|dates| - 1] in init then [] else [dates[|dates| - 1]])
  }

  /** `countBy(dates)`: each day mapped to how often it occurs. */
  function CountBy(dates: seq<string>): map<string, nat> {
    map d | d in dates :: Occurrences(dates, d)
  }

  /** `toPairs(countBy(dates))`. */
  function ToPairs(dates: seq<string>): (r: seq<DayCount>)
    ensures |r| == |FirstSeen(dates)|
  {
    var keys := FirstSeen(dates);
    var perDay := CountBy(dates);
    FirstSeenMembers(dates);
    seq(|keys|, i requires 0 <= i < |keys| => DayCount(keys[i], perDay[keys[i]]))
  }

  predicate DistinctKeys(keys: seq<string>) {
    forall i, j :: 0 <= i < j < |keys| ==> keys[i] != keys[j]
  }

  /** The keys listed are exactly the days that occur, each once. */
  lemma {:induction false} FirstSeenMembers(dates: seq<string>)
    ensures forall d :: d in FirstSeen(dates) <==> d in dates
    ensures DistinctKeys(FirstSeen(dates))
  {
    if dates != [] {
      var init := dates[..|dates| - 1];
      FirstSeenMembers(init);
      assert dates == init + [dates[|dates| - 1]];
    }
  }

  /** The insertion of one pair into pairs sorted by day, the comparison being the
      order of the day keys. */
  function Insert(p: DayCount, sorted: seq<DayCount>): (r: seq<DayCount>)
    ensures |r| == |sorted| + 1
    ensures r[0] == p || (sorted != [] && r[0] == sorted[0])
  {
    if sorted == [] || !StrLess(sorted[0].day, p.day) then [p] + sorted
    else [sorted[0]] + Insert(p, sorted[1..])
  }

  /** `pairs.sort(([k1], [k2]) => k1.localeCompare(k2))`. */
  function SortPairs(pairs: seq<DayCount>): (r: seq<DayCount>)
    ensures |r| == |pairs|
  {
    if pairs == [] then [] else Insert(pairs[0], SortPairs(pairs[1..]))
  }

  predicate Increasing(s: seq<DayCount>) {
    forall i :: 0 <= i < |s| - 1 ==> StrLess(s[i].day, s[i + 1].day)
  }

  /** The days of some pairs, in order. */
  function Days(s: seq<DayCount>): (r: seq<string>)
    ensures |r| == |s|
  {
    if s == [] then [] else [s[0].day] + Days(s[1..])
  }

  lemma {:induction false} DaysIndex(s: seq<DayCount>, i: nat)
    requires i < |s|
    ensures Days(s)[i] == s[i].day
  {
    if i > 0 {
      DaysIndex(s[1..], i - 1);
    }
  }

  /** The first of distinct keys is not among the others, which are distinct. */
  lemma DistinctTail(keys: seq<string>)
    requires keys != [] && DistinctKeys(keys)
    ensures keys[0] !in keys[1..] && DistinctKeys(keys[1..])
  {
  }

  function Sum(s: seq<DayCount>): nat {
    if s == [] then 0 else s[0].count + Sum(s[1..])
  }

  /** Inserting a new day into increasing pairs keeps them increasing, adds the
      pair to the multiset and its count to the sum. */
  lemma InsertSorted(p: DayCount, sorted: seq<DayCount>)
    requires Increasing(sorted) && p.day !in Days(sorted)
    ensures Increasing(Insert(p, sorted))
    ensures multiset(Insert(p, sorted)) == multiset(sorted) + multiset{p}
    ensures forall d :: d in Days(Insert(p, sorted)) <==> d == p.day || d in Days(sorted)
    ensures Sum(Insert(p, sorted)) == Sum(sorted) + p.count
  {
    InsertIncreasing(p, sorted);
    InsertContents(p, sorted);
  }

  lemma {:induction false} InsertIncreasing(p: DayCount, sorted: seq<DayCount>)
    requires Increasing(sorted) && p.day !in Days(sorted)
    ensures Increasing(Insert(p, sorted))
  {
    if sorted == [] {
      assert Insert(p, sorted) == [p];
    } else if !StrLess(sorted[0].day, p.day) {
      assert Days(sorted)[0] == sorted[0].day;
      StrLessTotal(sorted[0].day, p.day);
      var r := [p] + sorted;
      assert Insert(p, sorted) == r;
      forall i | 1 <= i < |r| - 1 ensures StrLess(r[i].day, r[i + 1].day) {
        assert r[i] == sorted[i - 1] && r[i + 1] == sorted[i];
      }
    } else {
      var tail := sorted[1..];
      assert Days(sorted) == [sorted[0].day] + Days(tail);
      assert Increasing(tail) by {
        forall i | 0 <= i < |tail| - 1 ensures StrLess(tail[i].day, tail[i + 1].day) {
          assert tail[i] == sorted[i + 1] && tail[i + 1] == sorted[i + 2];
        }
      }
      InsertIncreasing(p, tail);
      var rest := Insert(p, tail);
      var r := [sorted[0]] + rest;
      assert Insert(p, sorted) == r;
      assert StrLess(r[0].day, r[1].day);
      forall i | 1 <= i < |r| - 1 ensures StrLess(r[i].day, r[i + 1].day) {
        assert r[i] == rest[i - 1] && r[i + 1] == rest[i];
      }
    }
  }

  lemma {:induction false} InsertContents(p: DayCount, sorted: seq<DayCount>)
    ensures multiset(Insert(p, sorted)) == multiset(sorted) + multiset{p}
    ensures forall d :: d in Days(Insert(p, sorted)) <==> d == p.day || d in Days(sorted)
    ensures Sum(Insert(p, sorted)) == Sum(sorted) + p.count
  {
    if sorted == [] {
      assert Insert(p, sorted) == [p];
    } else if !StrLess(sorted[0].day, p.day) {
      assert Insert(p, sorted) == [p] + sorted;
      assert ([p] + sorted)[1..] == sorted;
    } else {
      var tail := sorted[1..];
      InsertContents(p, tail);
      var rest := Insert(p, tail);
      var r := [sorted[0]] + rest;
      assert Insert(p, sorted) == r;
      assert r[1..] == rest;
      assert sorted == [sorted[0]] + tail;
    }
  }

  /** The sort yields the same pairs, by strictly increasing day. */
  lemma {:induction false} SortPairsSorted(pairs: seq<DayCount>)
    requires DistinctKeys(Days(pairs))
    ensures Increasing(SortPairs(pairs))
    ensures multiset(SortPairs(pairs)) == multiset(pairs)
    ensures forall d :: d in Days(SortPairs(pairs)) <==> d in Days(pairs)
    ensures Sum(SortPairs(pairs)) == Sum(pairs)
  {
    if pairs != [] {
      var tail := pairs[1..];
      DistinctTail(Days(pairs));
      SortPairsSorted(tail);
      assert pairs == [pairs[0]] + tail;
      InsertSorted(pairs[0], SortPairs(tail));
    }
  }

  /** Increasing pairs are increasing between any two positions, so no day appears twice. */
  lemma {:induction false} IncreasingAll(s: seq<DayCount>, i: nat, j: nat)
    requires Increasing(s) && i < j < |s|
    ensures StrLess(s[i].day, s[j].day)
    decreases j - i
  {
    if i + 1 < j {
      IncreasingAll(s, i + 1, j);
      StrLessTransitive(s[i].day, s[i + 1].day, s[j].day);
    }
  }

  lemma OccurrencesSnoc(dates: seq<string>, x: string, key: string)
    ensures Occurrences(dates + [x], key) == Occurrences(dates, key) + (if x == key then 1 else 0)
  {
    assert (dates + [x])[..|dates|] == dates;
  }

  /** The counts over some distinct days, before and after one more `x`. */
  function CountsOver(keys: seq<string>, dates: seq<string>): nat {
    if keys == [] then 0 else Occurrences(dates, keys[0]) + CountsOver(keys[1..], dates)
  }

  lemma {:induction false} CountsOverSnoc(keys: seq<string>, dates: seq<string>, x: string)
    requires DistinctKeys(keys)
    ensures CountsOver(keys, dates + [x]) == CountsOver(keys, dates) + (if x in keys then 1 else 0)
  {
    if keys != [] {
      CountsOverSnoc(keys[1..], dates, x);
      OccurrencesSnoc(dates, x, keys[0]);
    }
  }

  lemma {:induction false} CountsOverAppend(a: seq<string>, b: seq<string>, dates: seq<string>)
    ensures CountsOver(a + b, dates) == CountsOver(a, dates) + CountsOver(b, dates)
  {
    if a != [] {
      assert (a + b)[1..] == a[1..] + b;
      CountsOverAppend(a[1..], b, dates);
    } else {
      assert a + b == b;
    }
  }

  /** The counts of the days seen add up to the number of keys collected. */
  lemma {:induction false} CountsAddUp(dates: seq<string>)
    ensures CountsOver(FirstSeen(dates), dates) == |dates|
  {
    if dates != [] {
      var init := dates[..|dates| - 1];
      var x := dates[|dates| - 1];
      CountsAddUp(init);
      FirstSeenMembers(init);
      assert dates == init + [x];
      CountsOverSnoc(FirstSeen(init), init, x);
      var extra := if x in init then [] else [x];
      CountsOverAppend(FirstSeen(init), extra, dates);
      if x !in init {
        OccurrencesSnoc(init, x, x);
        assert Occurrences(init, x) == 0 by { OccurrencesAbsent(init, x); }
      }
    }
  }

  lemma {:induction false} OccurrencesAbsent(dates: seq<string>, x: string)
    requires x !in dates
    ensures Occurrences(dates, x) == 0
  {
    if dates != [] {
      OccurrencesAbsent(dates[..|dates| - 1], x);
    }
  }

  lemma {:induction false} SumPairs(keys: seq<string>, dates: seq<string>, pairs: seq<DayCount>)
    requires |pairs| == |keys|
    requires forall i :: 0 <= i < |keys| ==> pairs[i] == DayCount(keys[i], Occurrences(dates, keys[i]))
    ensures Sum(pairs) == CountsOver(keys, dates)
  {
    if keys != [] {
      SumPairs(keys[1..], dates, pairs[1..]);
    }
  }

  lemma PairDays(dates: seq<string>)
    ensures Days(ToPairs(dates)) == FirstSeen(dates)
  {
    var pairs := ToPairs(dates);
    forall i | 0 <= i < |pairs| ensures Days(pairs)[i] == FirstSeen(dates)[i] {
      DaysIndex(pairs, i);
    }
  }

  /** The sorted pairs are the pairs of `countBy`: a day is listed exactly when
      it was collected, with how often it was. */
  lemma SortedCountsMembers(dates: seq<string>)
    ensures var r := SortPairs(ToPairs(dates));
            && (forall d :: d in dates <==> d in Days(r))
            && (forall i :: 0 <= i < |r| ==> r[i].count == Occurrences(dates, r[i].day))
  {
    var pairs := ToPairs(dates);
    FirstSeenMembers(dates);
    PairDays(dates);
    SortPairsSorted(pairs);
    var r := SortPairs(pairs);
    forall i | 0 <= i < |r| ensures r[i].count == Occurrences(dates, r[i].day) {
      assert r[i] in multiset(pairs);
    }
  }

  /** The sorted pairs are strictly increasing by day, so no day is listed twice. */
  lemma SortedCountsOrder(dates: seq<string>)
    ensures var r := SortPairs(ToPairs(dates));
            forall i, j :: 0 <= i < j < |r| ==> StrLess(r[i].day, r[j].day)
  {
    FirstSeenMembers(dates);
    PairDays(dates);
    SortPairsSorted(ToPairs(dates));
    var r := SortPairs(ToPairs(dates));
    forall i, j | 0 <= i < j < |r| ensures StrLess(r[i].day, r[j].day) {
      IncreasingAll(r, i, j);
    }
  }

  /** The counts printed add up to the number of keys collected. */
  lemma SortedCountsSum(dates: seq<string>)
    ensures Sum(SortPairs(ToPairs(dates))) == |dates|
  {
    FirstSeenMembers(dates);
    PairDays(dates);
    SortPairsSorted(ToPairs(dates));
    SumPairs(FirstSeen(dates), dates, ToPairs(dates));
    CountsAddUp(dates);
  }

  /** What is printed: the days sorted in strictly increasing order, so each once;
      a day is listed exactly when it was collected, with how often it was; and
      the counts add up to the number of keys collected. */
  lemma SortedCountsCorrect(dates: seq<string>)
    ensures var r := SortPairs(ToPairs(dates));
            && (forall i, j :: 0 <= i < j < |r| ==> StrLess(r[i].day, r[j].day))
            && (forall d :: d in dates <==> exists i :: 0 <= i < |r| && r[i].day == d)
            && (forall i :: 0 <= i < |r| ==> r[i].count == Occurrences(dates, r[i].day))
            && Sum(r) == |dates|
  {
    var r := SortPairs(ToPairs(dates));
    SortedCountsOrder(dates);
    SortedCountsMembers(dates);
    SortedCountsSum(dates);
    forall d | d in dates ensures exists i :: 0 <= i < |r| && r[i].day == d {
      var i :| 0 <= i < |r| && Days(r)[i] == d;
      DaysIndex(r, i);
    }
    forall d | (exists i :: 0 <= i < |r| && r[i].day == d) ensures d in dates {
      var i :| 0 <= i < |r| && r[i].day == d;
      DaysIndex(r, i);
    }
  }
}
