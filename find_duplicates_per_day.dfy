/** `find-duplicates-per-day`: for every day of 2022 from day 100 up to the
    current day of the year, group the e-mails sent that day by content and log
    the number of identifiers sent more than once and the number of identifiers. */
module FindDuplicatesPerDay {
  import opened Wrappers
  import opened Paging
  import opened Mailbox
  import opened EmailScan
  import opened FindDuplicates

  /** The item view of `emailsInFolder`. */
  const DayViewSize: nat := 250
  /** The first day scanned, counting 1 January 2022 as day 1. */
  const FirstDay := 100
  const DayMs := 86400000

  /** Midnight UTC at the start of `day` of 2022, 1 January being day 1 and
      day 0 being 31 December 2021; 1 January 2022 is 18993 days after the epoch. */
  function DayStart(day: int): int {
    (18992 + day) * DayMs
  }

  /** The e-mails of a day: created strictly between its midnight and the next. */
  function DayFilter(day: int): Filter {
    EmailFilter(DayStart(day), DayStart(day + 1))
  }

  /** Two days' windows never share an e-mail. */
  lemma {:induction false} WindowsDisjoint(item: Item, d1: int, d2: int)
    requires Matches(DayFilter(d1), item) && Matches(DayFilter(d2), item)
    ensures d1 == d2
  {
    assert Holds(DayFilter(d1)[0], item) && Holds(DayFilter(d1)[1], item);
    assert Holds(DayFilter(d2)[0], item) && Holds(DayFilter(d2)[1], item);
    if d1 < d2 {
      DayStartMonotone(d1 + 1, d2);
    } else if d2 < d1 {
      DayStartMonotone(d2 + 1, d1);
    }
  }

  /** Both bounds are strict, so an e-mail created exactly at a midnight is in no day's window. */
  lemma {:induction false} MidnightInNoWindow(item: Item, d: int, e: int)
    requires item.created == DayStart(d)
    ensures !Matches(DayFilter(e), item)
  {
    if d <= e {
      DayStartMonotone(d, e);
      assert !Holds(DayFilter(e)[0], item);
    } else {
      DayStartMonotone(e + 1, d);
      assert !Holds(DayFilter(e)[1], item);
    }
  }

  lemma DayStartMonotone(a: int, b: int)
    requires a <= b
    ensures DayStart(a) <= DayStart(b)
  {
  }

  /** How many days the do-while loop scans: days 100 to the current day, and
      day 100 alone when the current day is not past it. */
  function DaysScanned(currentDay: int): (n: nat)
    ensures n >= 1
    ensures FirstDay + n - 1 == (if currentDay > FirstDay then currentDay else FirstDay)
  {
    if currentDay > FirstDay then currentDay - FirstDay + 1 else 1
  }

  /** A logged line: the day's midnight, then the arrays of more than one record,
      then all identifiers. The ratio of the two is not modelled. */
  datatype DayLine = DayLine(start: int, filteredLength: nat, unfilteredLength: nat)

  function LineOf(start: int, r: Report): DayLine {
    DayLine(start, |r.list|, r.collectionCount)
  }

  /** The sent e-mails of `day`. */
  ghost function DayResults(store: Store, day: int): seq<Item>
    reads store
  {
    store.Results(WellKnown(SentItems), DayFilter(day))
  }

  /** The line of `day` when every e-mail of that day is grouped. */
  ghost function ExpectedLine(store: Store, day: int, hash: string -> string): DayLine
    reads store
  {
    GroupedLine(DayStart(day), DayResults(store, day), hash)
  }

  /** The line of a day starting at `start` whose e-mails are `all`, all of them grouped. */
  function GroupedLine(start: int, all: seq<Item>, hash: string -> string): DayLine {
    var records := Records(all, hash);
    LineOf(start, ReportOf(Group(records), |records|))
  }

  /** The scan of `day` fails at the view at `last`. */
  ghost predicate DayLoadFails(store: Store, day: int, last: nat)
    reads store
  {
    ScanFailsAt(DayResults(store, day), store.unloadable, last)
  }

  /** A scan of `all` fails at the view at `last`: every earlier view loaded,
      and this one, which holds e-mails, did not. */
  ghost predicate ScanFailsAt(all: seq<Item>, unloadable: set<ItemId>, last: nat) {
    && last < |all|
    && LoadedBefore(all, DayViewSize, last, unloadable)
    && LoadFails(FindPage(all, DayViewSize, last).items, unloadable)
  }

  /** Some view of the scan of `day` fails to load. */
  ghost predicate DayFails(store: Store, day: int)
    reads store
  {
    exists last :: DayLoadFails(store, day, last)
  }

  /** The scans of the first `n` days, from day 100 on, all load. */
  ghost predicate NoneFails(store: Store, n: nat)
    reads store
  {
    forall day :: FirstDay <= day < FirstDay + n ==> !DayFails(store, day)
  }

  lemma NoneFailsSnoc(store: Store, n: nat)
    requires NoneFails(store, n) && !DayFails(store, FirstDay + n)
    ensures NoneFails(store, n + 1)
  {
  }

  /** The scan of a day fails at one view only. */
  lemma DayFailsOnce(store: Store, day: int, a: nat, b: nat)
    requires DayLoadFails(store, day, a) && DayLoadFails(store, day, b)
    ensures a == b
  {
    FailureUnique(DayResults(store, day), DayViewSize, store.unloadable, a, b);
  }

  /** `lines` are the lines of the days from day 100 on, one per day. */
  ghost predicate Logged(store: Store, hash: string -> string, lines: seq<DayLine>)
    reads store
  {
    forall i :: 0 <= i < |lines| ==> lines[i] == ExpectedLine(store, FirstDay + i, hash)
  }

  lemma LoggedSnoc(store: Store, hash: string -> string, lines: seq<DayLine>, line: DayLine)
    requires Logged(store, hash, lines) && line == ExpectedLine(store, FirstDay + |lines|, hash)
    ensures Logged(store, hash, lines + [line])
  {
  }

  /** A logged line counts at most as many duplicated identifiers as identifiers,
      and at most as many identifiers as e-mails; there is no identifier exactly
      on a day without e-mail, and the duplicated ones are exactly those sent
      more than once. */
  lemma LineMeaning(store: Store, day: int, hash: string -> string)
    ensures var line := ExpectedLine(store, day, hash);
            && line == GroupedLine(DayStart(day), DayResults(store, day), hash)
            && line.start == DayStart(day)
            && line.filteredLength <= line.unfilteredLength <= |DayResults(store, day)|
            && (line.unfilteredLength == 0 <==> DayResults(store, day) == [])
            && line.filteredLength == |ReportOf(Group(Records(DayResults(store, day), hash)), |DayResults(store, day)|).list|
  {
    ReportExact(Records(DayResults(store, day), hash));
  }

  /** The script. `currentDay` is today's day of the year. Each day gets a fresh
      collection and is scanned to its end in views of 250; its line is logged
      once its scan completes. A failed property load throws out of the script,
      after the lines of the earlier days. */
  method FindDuplicatesPerDayMain(store: Store, hash: string -> string, currentDay: int)
    returns (lines: seq<DayLine>, failed: bool, ghost last: nat)
    ensures |lines| <= DaysScanned(currentDay)
    ensures !failed ==> |lines| == DaysScanned(currentDay)
    ensures failed ==> |lines| < DaysScanned(currentDay)
    ensures failed ==> DayLoadFails(store, FirstDay + |lines|, last)
    ensures NoneFails(store, |lines|)
    ensures Logged(store, hash, lines)
  {
    lines, failed, last := [], false, 0;
    var day := FirstDay;
    while true
      invariant FirstDay <= day && |lines| == day - FirstDay < DaysScanned(currentDay)
      invariant Logged(store, hash, lines)
      invariant NoneFails(store, |lines|)
      decreases DaysScanned(currentDay) - |lines|
    {
      lines, failed, last := LogDay(store, hash, lines, day);
      day := day + 1;
      if failed {
        return;
      }
      if !(day <= currentDay) {
        break;
      }
    }
  }

  /** One turn of the do-while loop: the scan of the next day, whose line is
      logged unless its scan fails. */
  method LogDay(store: Store, hash: string -> string, lines: seq<DayLine>, day: int)
    returns (lines': seq<DayLine>, failed: bool, ghost last: nat)
    requires day == FirstDay + |lines|
    requires Logged(store, hash, lines) && NoneFails(store, |lines|)
    ensures failed ==> lines' == lines && DayLoadFails(store, day, last)
    ensures !failed ==> |lines'| == |lines| + 1
    ensures Logged(store, hash, lines') && NoneFails(store, |lines'|)
  {
    var line;
    line, failed, last := ScanDay(store, hash, |lines|, DayStart(day), DayStart(day + 1));
    if failed {
      lines' := lines;
      return;
    }
    LoggedSnoc(store, hash, lines, line);
    NoneFailsSnoc(store, |lines|);
    lines' := lines + [line];
  }

  /** One turn of the do-while loop: the scan of one day and its line. */
  method ScanDay(store: Store, hash: string -> string, ghost index: nat, start: int, end: int)
    returns (line: DayLine, failed: bool, ghost last: nat)
    requires start == DayStart(FirstDay + index) && end == DayStart(FirstDay + index + 1)
    ensures failed ==> DayLoadFails(store, FirstDay + index, last)
    ensures failed <==> DayFails(store, FirstDay + index)
    ensures !failed ==> line == ExpectedLine(store, FirstDay + index, hash)
  {
    ghost var day := FirstDay + index;
    var outcome, count;
    outcome, count, last := CollectEmails(store, WellKnown(SentItems), EmailFilter(start, end), DayViewSize, None, hash);
    ghost var all := DayResults(store, day);
    match outcome
    case LoadFailed =>
      line, failed := DayLine(start, 0, 0), true;
      assert DayLoadFails(store, day, last);
    case Collected(g) =>
      assert all[..count] == all;
      line, failed := LineOf(start, ReportOf(g, count)), false;
      forall l | DayLoadFails(store, day, l) ensures false {
        CompleteScanLoads(all, DayViewSize, store.unloadable, last, l);
      }
  }
}
