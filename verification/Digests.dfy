/**
 * Which slots are due at a tick, and which days the digests started over a whole
 * history of ticks cover (src/background/scheduler.ts, digest.ts,
 * src/db/background-slots.ts).
 */
module Digests {
  import opened Common
  import opened Calendar

  // ---------------------------------------------------------------- due slots

  datatype Pass = NightlyReview | LessonsUpkeep | SkillReview | Digest

  datatype Every = Daily | Weekly(weekday: int)

  datatype Entry = Entry(pass: Pass, every: Every, minutes: int, after: Option<Pass>)

  const SCHEDULE: seq<Entry> := [
    Entry(NightlyReview, Daily, 2 * 60 + 30, None),
    Entry(LessonsUpkeep, Daily, 2 * 60 + 30, Some(NightlyReview)),
    Entry(SkillReview, Weekly(7), 4 * 60, None),
    Entry(Digest, Weekly(1), 9 * 60, None)
  ]

  const DIGEST_ENTRY := SCHEDULE[3]

  datatype DueSlot = DueSlot(pass: Pass, slot: string, after: Option<Pass>)

  predicate Reached(e: Entry, weekday: int, minutes: int) {
    match e.every
    case Daily => minutes >= e.minutes
    case Weekly(w) => weekday > w || (weekday == w && minutes >= e.minutes)
  }

  function SlotOf(e: Entry, day: Date): string
    requires FourDigits(day)
  {
    if e.every.Daily? then Ymd(day) else IsoWeekSlot(day)
  }

  /** Two days share an entry's slot exactly when they are one day, or for a weekly entry in one week. */
  lemma SlotsMarkPeriods(e: Entry, c: Date, d: Date)
    requires FourDigits(c) && FourDigits(d)
    ensures SlotOf(e, c) == SlotOf(e, d) <==>
            if e.every.Daily? then c == d else Monday(DayNumber(c)) == Monday(DayNumber(d))
  {
    if e.every.Daily? {
      DaysSortAsText(c, d);
    } else {
      SlotsFollowWeeks(c, d);
    }
  }

  /** Minutes since the start of the entry's current period, and the minute of the period it is due at. */
  function MinuteOfPeriod(e: Entry, day: Date, minutes: int): int {
    if e.every.Daily? then minutes else (Weekday(DayNumber(day)) - 1) * 1440 + minutes
  }

  function DueMinute(e: Entry): int {
    if e.every.Daily? then e.minutes else (e.every.weekday - 1) * 1440 + e.minutes
  }

  /** An entry is due from its minute of the period to the period's end. */
  lemma ReachedIsLate(e: Entry, day: Date, minutes: int)
    requires 0 <= minutes < 1440 && 0 <= e.minutes < 1440
    ensures Reached(e, Weekday(DayNumber(day)), minutes) <==> DueMinute(e) <= MinuteOfPeriod(e, day, minutes)
  {
    if e.every.Weekly? {
      var a, b := Weekday(DayNumber(day)), e.every.weekday;
      assert a < b ==> a * 1440 + minutes < b * 1440 + e.minutes;
      assert b < a ==> b * 1440 + e.minutes < a * 1440 + minutes;
    }
  }

  function DueAmong(es: seq<Entry>, day: Date, minutes: int, last: map<Pass, string>): seq<DueSlot>
    requires FourDigits(day)
  {
    if es == [] then []
    else
      var e := es[|es| - 1];
      DueAmong(es[..|es| - 1], day, minutes, last) +
      (if DueMinute(e) <= MinuteOfPeriod(e, day, minutes) && !(e.pass in last && last[e.pass] == SlotOf(e, day))
       then [DueSlot(e.pass, SlotOf(e, day), e.after)] else [])
  }

  lemma DueAmongSteps(es: seq<Entry>, i: nat, day: Date, minutes: int, last: map<Pass, string>)
    requires FourDigits(day) && i < |es|
    ensures DueAmong(es[..i + 1], day, minutes, last) ==
            DueAmong(es[..i], day, minutes, last) +
            (if DueMinute(es[i]) <= MinuteOfPeriod(es[i], day, minutes)
                && !(es[i].pass in last && last[es[i].pass] == SlotOf(es[i], day))
             then [DueSlot(es[i].pass, SlotOf(es[i], day), es[i].after)] else [])
  {
    assert es[..i + 1][..i] == es[..i];
  }

  method DueSlots(day: Date, weekday: int, minutes: int, last: map<Pass, string>) returns (out: seq<DueSlot>)
    requires FourDigits(day) && weekday == Weekday(DayNumber(day)) && 0 <= minutes < 1440
    ensures out == DueAmong(SCHEDULE, day, minutes, last)
  {
    out := [];
    for i := 0 to |SCHEDULE|
      invariant out == DueAmong(SCHEDULE[..i], day, minutes, last)
    {
      var e := SCHEDULE[i];
      ReachedIsLate(e, day, minutes);
      DueAmongSteps(SCHEDULE, i, day, minutes, last);
      if Reached(e, weekday, minutes) {
        var slot := SlotOf(e, day);
        if !(e.pass in last && last[e.pass] == slot) {
          out := out + [DueSlot(e.pass, slot, e.after)];
        }
      }
    }
    assert SCHEDULE[..|SCHEDULE|] == SCHEDULE;
  }

  lemma DailyDue(day: Date, minutes: int)
    requires FourDigits(day)
    ensures DueAmong(SCHEDULE[..2], day, minutes, map[]) ==
            if minutes >= 150
            then [DueSlot(NightlyReview, Ymd(day), None), DueSlot(LessonsUpkeep, Ymd(day), Some(NightlyReview))]
            else []
  {
    DueAmongSteps(SCHEDULE, 0, day, minutes, map[]);
    DueAmongSteps(SCHEDULE, 1, day, minutes, map[]);
    assert SCHEDULE[..0] == [];
  }

  /** With nothing seen yet: what is due at each minute of the week. */
  lemma DueTimes(day: Date, minutes: int)
    requires FourDigits(day) && 0 <= minutes < 1440
    ensures var due, weekday := DueAmong(SCHEDULE, day, minutes, map[]), Weekday(DayNumber(day));
            due ==
            (if minutes >= 150
             then [DueSlot(NightlyReview, Ymd(day), None), DueSlot(LessonsUpkeep, Ymd(day), Some(NightlyReview))]
             else [])
            + (if weekday == 7 && minutes >= 240 then [DueSlot(SkillReview, IsoWeekSlot(day), None)] else [])
            + (if weekday > 1 || minutes >= 540 then [DueSlot(Digest, IsoWeekSlot(day), None)] else [])
  {
    DailyDue(day, minutes);
    DueAmongSteps(SCHEDULE, 2, day, minutes, map[]);
    DueAmongSteps(SCHEDULE, 3, day, minutes, map[]);
    ReachedIsLate(SCHEDULE[2], day, minutes);
    ReachedIsLate(SCHEDULE[3], day, minutes);
    assert SCHEDULE[..4] == SCHEDULE;
  }

  // -------------------------------------------------------------- covered days

  /** The Monday-to-Sunday week before the week of day `n`. */
  function CoveredBy(n: int): (days: seq<Date>)
    ensures |days| == 7
  {
    seq(7, i => FromDay(Monday(n) - 7 + i))
  }

  /** `days[..]` are the days before day `m` of the calendar `at`, in time order. */
  ghost predicate DaysUpTo(days: seq<Date>, m: int, at: int -> Date) {
    forall k :: 0 <= k < |days| ==> days[k] == at(m - |days| + k)
  }

  ghost predicate StepsBack(at: int -> Date) {
    forall k :: PreviousDay(at(k)) == at(k - 1)
  }

  lemma CalendarStepsBack()
    ensures StepsBack(FromDay)
  {
    forall k: int
      ensures PreviousDay(FromDay(k)) == FromDay(k - 1)
    {
      DayRoundTrip(k);
      SetDateShifts(FromDay(k), -1);
    }
  }

  /** The first loop of `coveredDays`: back from day `n` to the Monday of its week. */
  method BackToMonday(today: Date, weekday: int, ghost n: int, ghost at: int -> Date) returns (monday: Date)
    requires StepsBack(at) && today == at(n) && weekday == Weekday(n)
    ensures monday == at(Monday(n))
  {
    monday := today;
    ghost var k := n;
    for i := 1 to weekday
      invariant k == n - (i - 1) && monday == at(k)
    {
      assert PreviousDay(at(k)) == at(k - 1);
      monday := PreviousDay(monday);
      k := k - 1;
    }
  }

  /** The second loop: the seven days before day `m`, in time order. */
  method SevenBefore(monday: Date, ghost m: int, ghost at: int -> Date) returns (days: seq<Date>)
    requires StepsBack(at) && monday == at(m)
    ensures |days| == 7 && DaysUpTo(days, m, at)
  {
    days := [];
    var d := monday;
    for i := 0 to 7
      invariant |days| == i && d == at(m - i) && DaysUpTo(days, m, at)
    {
      assert PreviousDay(at(m - i)) == at(m - i - 1);
      d := PreviousDay(d);
      days := [d] + days;
    }
  }

  method CoveredDays(today: Date, weekday: int) returns (days: seq<Date>)
    requires ValidDate(today) && weekday == Weekday(DayNumber(today))
    ensures days == CoveredBy(DayNumber(today))
  {
    DateRoundTrip(today);
    CalendarStepsBack();
    var monday := BackToMonday(today, weekday, DayNumber(today), FromDay);
    days := SevenBefore(monday, Monday(DayNumber(today)), FromDay);
  }

  lemma CoveredAt(n: int, i: int)
    requires 0 <= i < 7
    ensures ValidDate(CoveredBy(n)[i]) && DayNumber(CoveredBy(n)[i]) == Monday(n) - 7 + i
  {
    DayRoundTrip(Monday(n) - 7 + i);
  }

  lemma CoveredDistinct(n: int)
    ensures NoDuplicates(CoveredBy(n))
  {
    forall i, j | 0 <= i < j < 7
      ensures CoveredBy(n)[i] != CoveredBy(n)[j]
    {
      CoveredAt(n, i);
      CoveredAt(n, j);
    }
  }

  lemma InCovered(n: int, x: Date)
    requires ValidDate(x)
    ensures x in CoveredBy(n) <==> Monday(n) - 7 <= DayNumber(x) < Monday(n)
  {
    var m, k := Monday(n), DayNumber(x);
    DateRoundTrip(x);
    if m - 7 <= k < m {
      assert CoveredBy(n)[k - (m - 7)] == FromDay(k);
    }
    if x in CoveredBy(n) {
      var i :| 0 <= i < 7 && CoveredBy(n)[i] == x;
      CoveredAt(n, i);
    }
  }

  lemma WeekBefore(n: int, k: int)
    ensures Monday(n) - 7 <= k < Monday(n) <==> Monday(k) + 7 == Monday(n)
  {
    MondayIs(n);
    MondayIs(k);
  }

  /** A day is covered exactly when its own week is the one before. */
  lemma CoveredExactly(n: int, x: Date)
    requires ValidDate(x)
    ensures multiset(CoveredBy(n))[x] == if Monday(DayNumber(x)) + 7 == Monday(n) then 1 else 0
  {
    CoveredDistinct(n);
    CountedOnce(CoveredBy(n), x);
    InCovered(n, x);
    WeekBefore(n, DayNumber(x));
  }

  /** The digest's window on local-day strings holds exactly the covered days. */
  lemma WindowIsCovered(n: int, x: Date)
    requires ValidDate(x) && 0 <= x.year <= 9999
    requires 0 <= CoveredBy(n)[0].year <= 9999 && 0 <= CoveredBy(n)[6].year <= 9999
    ensures ValidDate(CoveredBy(n)[0]) && ValidDate(CoveredBy(n)[6])
    ensures !TextLess(Ymd(x), Ymd(CoveredBy(n)[0])) && !TextLess(Ymd(CoveredBy(n)[6]), Ymd(x)) <==> x in CoveredBy(n)
  {
    var from, to := CoveredBy(n)[0], CoveredBy(n)[6];
    CoveredAt(n, 0);
    CoveredAt(n, 6);
    DaysSortAsText(x, from);
    DaysSortAsText(to, x);
    InCovered(n, x);
  }

  // ------------------------------------------------- digests over a whole history

  /** A replica's tick at a persona-local time (its claim may throw), or a replica losing its memory. */
  datatype Event =
    | Tick(replica: nat, day: Date, minutes: int, claimFails: bool)
    | Restart(replica: nat)

  /** The claimed digest slots, each replica's last seen slot, and the days of the digests started so far. */
  datatype History = History(claimed: set<string>, last: map<nat, string>, covered: seq<Date>)

  ghost predicate FourDigitTimes(es: seq<Event>) {
    forall i :: 0 <= i < |es| && es[i].Tick? ==> FourDigits(es[i].day) && 0 <= es[i].minutes < 1440
  }

  /** One tick of replica `r` whose digest is due or not, for a slot and the days it covers. */
  function TickOne(h: History, r: nat, due: bool, claimFails: bool, slot: string, days: seq<Date>): History {
    if !due then h
    else if r in h.last && h.last[r] == slot then h
    else if claimFails then h
    else if slot in h.claimed then h.(last := h.last[r := slot])
    else History(h.claimed + {slot}, h.last[r := slot], h.covered + days)
  }

  predicate DigestDue(e: Event)
    requires e.Tick?
  {
    Reached(DIGEST_ENTRY, Weekday(DayNumber(e.day)), e.minutes)
  }

  function Step(h: History, e: Event): History
    requires e.Tick? ==> FourDigits(e.day)
  {
    match e
    case Restart(r) => h.(last := h.last - {r})
    case Tick(r, day, _, claimFails) =>
      TickOne(h, r, DigestDue(e), claimFails, IsoWeekSlot(day), CoveredBy(DayNumber(day)))
  }

  function After(es: seq<Event>): History
    requires FourDigitTimes(es)
  {
    if es == [] then History({}, map[], []) else Step(After(es[..|es| - 1]), es[|es| - 1])
  }

  /** A tick that claims its week's digest, or finds it claimed. */
  predicate Claims(e: Event) {
    e.Tick? && !e.claimFails && DigestDue(e)
  }

  ghost predicate ClaimedBefore(es: seq<Event>, monday: int) {
    exists i :: 0 <= i < |es| && Claims(es[i]) && Monday(DayNumber(es[i].day)) == monday
  }

  function SlotsClaimed(es: seq<Event>): set<string>
    requires FourDigitTimes(es)
  {
    if es == [] then {} else
      var e := es[|es| - 1];
      SlotsClaimed(es[..|es| - 1]) + if Claims(e) then {IsoWeekSlot(e.day)} else {}
  }

  ghost predicate LastAreClaimed(h: History) {
    forall r :: r in h.last ==> h.last[r] in h.claimed
  }

  /** A replica's memory of its last slot never changes which slots are claimed, nor which digests start. */
  lemma TickOneIs(h: History, r: nat, due: bool, claimFails: bool, slot: string, days: seq<Date>)
    requires LastAreClaimed(h)
    ensures var g := TickOne(h, r, due, claimFails, slot, days);
            && LastAreClaimed(g)
            && g.claimed == h.claimed + (if due && !claimFails then {slot} else {})
            && g.covered == h.covered + (if due && !claimFails && slot !in h.claimed then days else [])
  {
    if slot in h.claimed {
      assert h.claimed == h.claimed + {slot};
    }
  }

  lemma {:induction false} ClaimsAreKept(es: seq<Event>)
    requires FourDigitTimes(es)
    ensures LastAreClaimed(After(es)) && After(es).claimed == SlotsClaimed(es)
  {
    if es != [] {
      var before, e := es[..|es| - 1], es[|es| - 1];
      ClaimsAreKept(before);
      if e.Tick? {
        TickOneIs(After(before), e.replica, DigestDue(e), e.claimFails, IsoWeekSlot(e.day),
          CoveredBy(DayNumber(e.day)));
      }
    }
  }

  lemma LastClaim(es: seq<Event>, week: int)
    requires es != []
    ensures var e := es[|es| - 1];
            ClaimedBefore(es, week) <==>
            ClaimedBefore(es[..|es| - 1], week) || (Claims(e) && Monday(DayNumber(e.day)) == week)
  {
    var before := es[..|es| - 1];
    if ClaimedBefore(before, week) {
      var i :| 0 <= i < |before| && Claims(before[i]) && Monday(DayNumber(before[i].day)) == week;
      assert Claims(es[i]);
    }
    if ClaimedBefore(es, week) {
      var i :| 0 <= i < |es| && Claims(es[i]) && Monday(DayNumber(es[i].day)) == week;
      assert i < |before| ==> Claims(before[i]);
    }
  }

  /** A slot is claimed exactly when some tick of the same week claimed. */
  lemma {:induction false} SlotClaimedIs(es: seq<Event>, day: Date)
    requires FourDigitTimes(es) && FourDigits(day)
    ensures IsoWeekSlot(day) in SlotsClaimed(es) <==> ClaimedBefore(es, Monday(DayNumber(day)))
  {
    if es != [] {
      var e := es[|es| - 1];
      SlotClaimedIs(es[..|es| - 1], day);
      LastClaim(es, Monday(DayNumber(day)));
      if e.Tick? {
        SlotsFollowWeeks(e.day, day);
      }
    }
  }

  /**
   * Digests tile the calendar. Over every history of ticks by any number of replicas, in any order
   * and however late in its week a tick comes, a day is covered by exactly one started digest when
   * some tick claimed in the week after it, and by none otherwise.
   */
  lemma {:induction false} DigestsTileTheCalendar(es: seq<Event>, x: Date)
    requires FourDigitTimes(es) && ValidDate(x)
    ensures multiset(After(es).covered)[x] == if ClaimedBefore(es, Monday(DayNumber(x)) + 7) then 1 else 0
  {
    if es != [] {
      var before, e := es[..|es| - 1], es[|es| - 1];
      DigestsTileTheCalendar(before, x);
      ClaimsAreKept(before);
      LastClaim(es, Monday(DayNumber(x)) + 7);
      if e.Tick? {
        TickOneIs(After(before), e.replica, DigestDue(e), e.claimFails, IsoWeekSlot(e.day),
          CoveredBy(DayNumber(e.day)));
        SlotClaimedIs(before, e.day);
        CoveredExactly(DayNumber(e.day), x);
      }
    }
  }

  // ------------------------------------------------------------ previous state

  /** The row that ordering by slot text, latest first, below `before`, returns first. */
  ghost predicate TextLatest(rows: seq<Date>, before: Date, p: Date)
    requires FourDigits(before) && forall r :: r in rows + [p] ==> FourDigits(r)
  {
    && TextLess(IsoWeekSlot(p), IsoWeekSlot(before))
    && forall r :: r in rows && TextLess(IsoWeekSlot(r), IsoWeekSlot(before)) ==>
      !TextLess(IsoWeekSlot(p), IsoWeekSlot(r))
  }

  /** `previousSlotState` finds the latest earlier week that has a state. */
  lemma PreviousIsLatestWeek(rows: seq<Date>, before: Date, p: Date)
    requires p in rows && FourDigits(before) && forall r :: r in rows ==> FourDigits(r)
    ensures forall r :: r in rows + [p] ==> FourDigits(r)
    ensures TextLatest(rows, before, p) <==>
            && Monday(DayNumber(p)) < Monday(DayNumber(before))
            && forall r :: r in rows ==> !(Monday(DayNumber(p)) < Monday(DayNumber(r)) < Monday(DayNumber(before)))
  {
    SlotsFollowWeeks(p, before);
    forall r | r in rows
      ensures TextLess(IsoWeekSlot(r), IsoWeekSlot(before)) <==> Monday(DayNumber(r)) < Monday(DayNumber(before))
      ensures TextLess(IsoWeekSlot(p), IsoWeekSlot(r)) <==> Monday(DayNumber(p)) < Monday(DayNumber(r))
    {
      SlotsFollowWeeks(r, before);
      SlotsFollowWeeks(p, r);
    }
  }
}
