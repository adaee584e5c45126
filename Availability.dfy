/**
 * The availability calculator of the booking screen: for one calendar day, one
 * candidate slot per hour from 11:00 to 23:00, each with the therapists that
 * have no booking at exactly that minute, and the grouping of slots by time of
 * day for display.
 */
module Availability {
  import opened Options
  import opened Calendar
  import opened TimestampText

  /** A booked entry of a therapist's schedule; `date` is text in the pattern "yyyy/MM/dd & h:mm a". */
  datatype BookedBlock = BookedBlock(date: string)

  /** `time_blocks` may be missing (None). */
  datatype Schedule = Schedule(timeBlocks: Option<seq<BookedBlock>>)

  /** A therapist as the server lists them; `schedule` may be missing (None). */
  datatype Therapist = Therapist(id: int, name: string, schedule: Option<Schedule>)

  datatype Category = Morning | Afternoon | Evening

  /** A candidate slot: its timestamp, whether it can be booked, who is free, and its time of day. */
  datatype Slot = Slot(at: Timestamp, isAvailable: bool, availableTherapists: seq<Therapist>, category: Category)

  const FirstHour: nat := 11
  const LastHour: nat := 23
  /** The slots start at minute 0 of each hour and step by SlotMinutes within it. */
  const MinutesPerHour: nat := 60
  const SlotMinutes: nat := 60

  /** The booked entries of a therapist, none when the schedule or its list is missing. */
  function BookedTimes(t: Therapist): seq<BookedBlock> {
    match t.schedule
    case None => []
    case Some(s) => s.timeBlocks.GetOr([])
  }

  /**
   * Whether a booked entry names the given minute: its text parses and agrees in
   * year, month, day, hour and minute. Text that does not parse names no minute.
   */
  predicate Matches(b: BookedBlock, at: Timestamp) {
    match ParseTimestamp(b.date)
    case None => false
    case Some(bt) =>
      bt.date.year == at.date.year && bt.date.month == at.date.month && bt.date.day == at.date.day
      && bt.hour == at.hour && bt.minute == at.minute
  }

  /** Whether some entry of `blocks` names the minute `at`. */
  predicate AnyMatches(blocks: seq<BookedBlock>, at: Timestamp) {
    if blocks == [] then false
    else Matches(blocks[0], at) || AnyMatches(blocks[1..], at)
  }

  /** Some entry names the minute exactly when the text of some entry parses to that very minute. */
  lemma {:induction false} AnyMatchesIff(blocks: seq<BookedBlock>, at: Timestamp)
    ensures AnyMatches(blocks, at) <==> exists i :: 0 <= i < |blocks| && ParseTimestamp(blocks[i].date) == Some(at)
  {
    if blocks != [] {
      AnyMatchesIff(blocks[1..], at);
      if AnyMatches(blocks[1..], at) {
        var k :| 0 <= k < |blocks[1..]| && ParseTimestamp(blocks[1..][k].date) == Some(at);
        assert blocks[k + 1] == blocks[1..][k];
      }
      if exists i :: 0 <= i < |blocks| && ParseTimestamp(blocks[i].date) == Some(at) {
        var k :| 0 <= k < |blocks| && ParseTimestamp(blocks[k].date) == Some(at);
        if k > 0 {
          assert blocks[1..][k - 1] == blocks[k];
        }
      }
    }
  }

  predicate IsBooked(t: Therapist, at: Timestamp) {
    AnyMatches(BookedTimes(t), at)
  }

  /** The therapists of `ts` that are not booked at `at`, in their original order. */
  function FreeTherapists(ts: seq<Therapist>, at: Timestamp): seq<Therapist> {
    if ts == [] then []
    else (if IsBooked(ts[0], at) then [] else [ts[0]]) + FreeTherapists(ts[1..], at)
  }

  /** A therapist is free at `at` exactly when listed and not booked then. */
  lemma {:induction false} FreeTherapistsMembers(ts: seq<Therapist>, at: Timestamp)
    ensures |FreeTherapists(ts, at)| <= |ts|
    ensures forall t :: t in FreeTherapists(ts, at) <==> t in ts && !IsBooked(t, at)
  {
    if ts != [] {
      FreeTherapistsMembers(ts[1..], at);
      assert forall t :: t in ts <==> t == ts[0] || t in ts[1..];
    }
  }

  function CategoryOf(hour: nat): Category {
    if hour < 12 then Morning else if hour < 17 then Afternoon else Evening
  }

  function MakeSlot(date: Date, hour: nat, minute: nat, therapists: seq<Therapist>): Slot {
    var at := Timestamp(date, hour, minute);
    var free := FreeTherapists(therapists, at);
    Slot(at, |free| > 0, free, CategoryOf(hour))
  }

  /** The slots of a day from hour h to 23, each on the hour. */
  function SlotsFrom(date: Date, therapists: seq<Therapist>, h: nat): (r: seq<Slot>)
    ensures |r| == if h <= LastHour then LastHour + 1 - h else 0
    decreases LastHour + 1 - h
  {
    if h > LastHour then [] else [MakeSlot(date, h, 0, therapists)] + SlotsFrom(date, therapists, h + 1)
  }

  /** The slots of a day: hours 11 to 23, each on the hour. */
  function Slots(date: Date, therapists: seq<Therapist>): (r: seq<Slot>)
    ensures |r| == LastHour - FirstHour + 1
  {
    SlotsFrom(date, therapists, FirstHour)
  }

  lemma {:induction false} SlotsFromAt(date: Date, therapists: seq<Therapist>, h: nat, i: nat)
    requires h + i <= LastHour
    ensures SlotsFrom(date, therapists, h)[i] == MakeSlot(date, h + i, 0, therapists)
    decreases i
  {
    if i > 0 {
      SlotsFromAt(date, therapists, h + 1, i - 1);
    }
  }

  lemma SlotAt(date: Date, therapists: seq<Therapist>, i: nat)
    requires i <= LastHour - FirstHour
    ensures Slots(date, therapists)[i] == MakeSlot(date, FirstHour + i, 0, therapists)
  {
    SlotsFromAt(date, therapists, FirstHour, i);
  }

  /** The slot computation as the screen runs it: an hour loop with a minute loop inside. */
  method GenerateTimeBlocks(date: Date, therapists: seq<Therapist>) returns (blocks: seq<Slot>)
    ensures blocks == Slots(date, therapists)
  {
    ghost var all := Slots(date, therapists);
    blocks := [];
    for hour := FirstHour to LastHour + 1
      invariant blocks == all[..hour - FirstHour]
    {
      var minute := 0;
      while minute < MinutesPerHour
        invariant minute == 0 || minute == SlotMinutes
        invariant minute == 0 ==> blocks == all[..hour - FirstHour]
        invariant minute == SlotMinutes ==> blocks == all[..hour - FirstHour + 1]
      {
        ghost var k := hour - FirstHour;
        SlotAt(date, therapists, k);
        assert all[..k + 1] == all[..k] + [all[k]];
        blocks := blocks + [MakeSlot(date, hour, minute, therapists)];
        minute := minute + SlotMinutes;
      }
    }
  }

  // ----- Properties of the slot list -----

  /** Thirteen slots, hours 11 to 23 ascending, every one on the hour of the chosen day. */
  lemma SlotsShape(date: Date, therapists: seq<Therapist>)
    ensures |Slots(date, therapists)| == 13
    ensures forall i :: 0 <= i < 13 ==>
      Slots(date, therapists)[i].at == Timestamp(date, 11 + i, 0)
    ensures forall i, j :: 0 <= i < j < 13 ==>
      Slots(date, therapists)[i].at.hour < Slots(date, therapists)[j].at.hour
  {
    forall i | 0 <= i < 13
      ensures Slots(date, therapists)[i].at == Timestamp(date, 11 + i, 0)
    {
      SlotAt(date, therapists, i);
    }
  }

  /**
   * A slot's free list holds exactly the listed therapists with no entry naming
   * the slot's minute, and the slot is available iff that list is not empty.
   */
  lemma SlotAvailability(date: Date, therapists: seq<Therapist>, i: nat)
    requires i < 13
    ensures var s := Slots(date, therapists)[i];
      && (forall t :: t in s.availableTherapists <==>
            t in therapists && forall b :: b in BookedTimes(t) ==> ParseTimestamp(b.date) != Some(s.at))
      && (s.isAvailable <==> exists t :: t in therapists && !IsBooked(t, s.at))
  {
    var s := Slots(date, therapists)[i];
    SlotAt(date, therapists, i);
    FreeTherapistsMembers(therapists, s.at);
    forall t | t in therapists
      ensures IsBooked(t, s.at) <==> exists b :: b in BookedTimes(t) && ParseTimestamp(b.date) == Some(s.at)
    {
      var bs := BookedTimes(t);
      AnyMatchesIff(bs, s.at);
      if IsBooked(t, s.at) {
        var k :| 0 <= k < |bs| && ParseTimestamp(bs[k].date) == Some(s.at);
        assert bs[k] in bs;
      }
    }
    if s.isAvailable {
      assert s.availableTherapists[0] in s.availableTherapists;
    }
  }

  /** Every slot of a day's list lies on that day. */
  lemma SlotsOnDay(date: Date, therapists: seq<Therapist>)
    ensures forall b :: b in Slots(date, therapists) ==> b.at.date == date
  {
    forall b | b in Slots(date, therapists)
      ensures b.at.date == date
    {
      var i :| 0 <= i < |Slots(date, therapists)| && Slots(date, therapists)[i] == b;
      SlotAt(date, therapists, i);
    }
  }

  /** Every slot of a day is available exactly when its free list is not empty. */
  lemma SlotsConsistent(date: Date, therapists: seq<Therapist>)
    ensures forall b :: b in Slots(date, therapists) ==> b.isAvailable == (|b.availableTherapists| > 0)
  {
    forall b | b in Slots(date, therapists)
      ensures b.isAvailable == (|b.availableTherapists| > 0)
    {
      var i :| 0 <= i < |Slots(date, therapists)| && Slots(date, therapists)[i] == b;
      SlotAt(date, therapists, i);
    }
  }

  /** With no therapist listed, no slot can be booked. */
  lemma NoTherapistsNoSlots(date: Date, i: nat)
    requires i < 13
    ensures !Slots(date, [])[i].isAvailable
  {
    SlotAt(date, [], i);
  }

  /** Morning before noon, Afternoon from noon to 17:00, Evening after. */
  lemma SlotCategories(date: Date, therapists: seq<Therapist>, i: nat)
    requires i < 13
    ensures Slots(date, therapists)[i].category ==
      if i < 1 then Morning else if i < 6 then Afternoon else Evening
  {
    SlotAt(date, therapists, i);
  }

  /** FreeTherapists is the filter: it distributes over concatenation. */
  lemma {:induction false} FreeTherapistsAppend(a: seq<Therapist>, b: seq<Therapist>, at: Timestamp)
    ensures FreeTherapists(a + b, at) == FreeTherapists(a, at) + FreeTherapists(b, at)
  {
    if a != [] {
      assert (a + b)[1..] == a[1..] + b;
      FreeTherapistsAppend(a[1..], b, at);
    } else {
      assert a + b == b;
    }
  }

  /** ... and keeps a single therapist exactly when that therapist is free. */
  lemma FreeTherapistsSingle(t: Therapist, at: Timestamp)
    ensures FreeTherapists([t], at) == if IsBooked(t, at) then [] else [t]
  {
  }

  /** An entry list names a minute iff one of its two parts does. */
  lemma {:induction false} AnyMatchesAppend(a: seq<BookedBlock>, b: seq<BookedBlock>, at: Timestamp)
    ensures AnyMatches(a + b, at) <==> AnyMatches(a, at) || AnyMatches(b, at)
  {
    if a != [] {
      assert (a + b)[0] == a[0];
      assert (a + b)[1..] == a[1..] + b;
      AnyMatchesAppend(a[1..], b, at);
    } else {
      assert a + b == b;
    }
  }

  /** A schedule entry whose text does not parse, wherever it stands, never makes a therapist booked. */
  lemma UnparseableEntryIgnored(before: seq<BookedBlock>, e: BookedBlock, after: seq<BookedBlock>, at: Timestamp)
    requires ParseTimestamp(e.date).None?
    ensures AnyMatches(before + [e] + after, at) == AnyMatches(before + after, at)
  {
    assert !AnyMatches([e], at) by { assert [e][1..] == []; }
    AnyMatchesAppend(before + [e], after, at);
    AnyMatchesAppend(before, [e], at);
    AnyMatchesAppend(before, after, at);
  }

  /**
   * An example: a therapist booked at "2025/06/10 & 2:00 PM" is not free
   * in the 14:00 slot of 2025-06-10, while the others keep their status there.
   */
  lemma BookedAtTwoPm(t: Therapist, others: seq<Therapist>)
    requires BookedTimes(t) == [BookedBlock("2025/06/10 & 2:00 PM")]
    ensures var s := Slots(Date(2025, 6, 10), [t] + others)[3];
      && s.at == Timestamp(Date(2025, 6, 10), 14, 0)
      && t !in s.availableTherapists
      && (forall u :: u in others ==> (u in s.availableTherapists <==> !IsBooked(u, s.at)))
  {
    var at := Timestamp(Date(2025, 6, 10), 14, 0);
    ExampleText();
    RoundTrip(at);
    assert ParseTimestamp(BookedTimes(t)[0].date) == Some(at);
    assert IsBooked(t, at);
    SlotAt(Date(2025, 6, 10), [t] + others, 3);
    FreeTherapistsMembers([t] + others, at);
  }

  // ----- Grouping by time of day -----

  /** The slots of one category, in their original order. */
  function InCategory(blocks: seq<Slot>, c: Category): seq<Slot> {
    if blocks == [] then []
    else InCategory(blocks[..|blocks| - 1], c)
         + (if blocks[|blocks| - 1].category == c then [blocks[|blocks| - 1]] else [])
  }

  /** The categories in the order in which they first occur (the key order of the grouping object). */
  function CategoryOrder(blocks: seq<Slot>): seq<Category> {
    if blocks == [] then []
    else
      var keys := CategoryOrder(blocks[..|blocks| - 1]);
      var c := blocks[|blocks| - 1].category;
      if c in keys then keys else keys + [c]
  }

  /**
   * The grouping as the screen does it: one pass over the slots, starting a
   * category's list at its first slot and appending each slot to its list.
   */
  method GroupByCategory(blocks: seq<Slot>) returns (keys: seq<Category>, groups: map<Category, seq<Slot>>)
    ensures keys == CategoryOrder(blocks)
    ensures groups.Keys == set c | c in keys
    ensures forall c :: c in groups ==> groups[c] == InCategory(blocks, c)
  {
    keys, groups := [], map[];
    for i := 0 to |blocks|
      invariant keys == CategoryOrder(blocks[..i])
      invariant groups.Keys == set c | c in keys
      invariant forall c :: c in groups ==> groups[c] == InCategory(blocks[..i], c)
      invariant forall c :: c !in groups ==> InCategory(blocks[..i], c) == []
    {
      assert blocks[..i + 1][..i] == blocks[..i];
      var c := blocks[i].category;
      if c !in groups {
        keys := keys + [c];
        groups := groups[c := []];
      }
      groups := groups[c := groups[c] + [blocks[i]]];
    }
    assert blocks[..|blocks|] == blocks;
  }

  lemma {:induction false} InCategoryAppend(a: seq<Slot>, b: seq<Slot>, c: Category)
    ensures InCategory(a + b, c) == InCategory(a, c) + InCategory(b, c)
  {
    if b != [] {
      assert (a + b)[..|a + b| - 1] == a + b[..|b| - 1];
      InCategoryAppend(a, b[..|b| - 1], c);
    } else {
      assert a + b == a;
    }
  }

  lemma {:induction false} InCategoryUniform(s: seq<Slot>, c: Category, d: Category)
    requires forall i :: 0 <= i < |s| ==> s[i].category == c
    ensures InCategory(s, d) == if c == d then s else []
  {
    if s != [] {
      InCategoryUniform(s[..|s| - 1], c, d);
    }
  }

  /**
   * For a day's slots the groups come out Morning, Afternoon, Evening, holding
   * the 11:00 slot, the 12:00 to 16:00 slots and the 17:00 to 23:00 slots, each
   * in ascending order.
   */
  lemma GroupsOfSlots(date: Date, therapists: seq<Therapist>)
    ensures var s := Slots(date, therapists);
      && CategoryOrder(s) == [Morning, Afternoon, Evening]
      && InCategory(s, Morning) == s[..1]
      && InCategory(s, Afternoon) == s[1..6]
      && InCategory(s, Evening) == s[6..]
  {
    SlotsLaidOut(date, therapists);
    DayGroups(Slots(date, therapists));
  }

  lemma DayGroups(s: seq<Slot>)
    requires |s| == 13
    requires forall i :: 0 <= i < 13 ==> s[i].category == CategoryOf(11 + i)
    ensures CategoryOrder(s) == [Morning, Afternoon, Evening]
    ensures InCategory(s, Morning) == s[..1]
    ensures InCategory(s, Afternoon) == s[1..6]
    ensures InCategory(s, Evening) == s[6..]
  {
    GroupsOfDay(s, Morning);
    GroupsOfDay(s, Afternoon);
    GroupsOfDay(s, Evening);
    CategoryOrderOfSlots(s);
  }

  lemma SlotsLaidOut(date: Date, therapists: seq<Therapist>)
    ensures |Slots(date, therapists)| == 13
    ensures forall i :: 0 <= i < 13 ==> Slots(date, therapists)[i].category == CategoryOf(11 + i)
  {
    forall i | 0 <= i < 13
      ensures Slots(date, therapists)[i].category == CategoryOf(11 + i)
    {
      SlotAt(date, therapists, i);
    }
  }

  /** The group of one category in a list laid out like a day's slots. */
  lemma GroupsOfDay(s: seq<Slot>, d: Category)
    requires |s| == 13
    requires forall i :: 0 <= i < 13 ==> s[i].category == CategoryOf(11 + i)
    ensures InCategory(s, d) ==
      if d == Morning then s[..1] else if d == Afternoon then s[1..6] else s[6..]
  {
    var morning, afternoon, evening := s[..1], s[1..6], s[6..];
    assert s == (morning + afternoon) + evening;
    InCategoryAppend(morning + afternoon, evening, d);
    InCategoryAppend(morning, afternoon, d);
    assert forall i :: 0 <= i < |afternoon| ==> afternoon[i] == s[i + 1];
    assert forall i :: 0 <= i < |evening| ==> evening[i] == s[i + 6];
    InCategoryUniform(morning, Morning, d);
    InCategoryUniform(afternoon, Afternoon, d);
    InCategoryUniform(evening, Evening, d);
  }

  lemma CategoryOrderOfSlots(s: seq<Slot>)
    requires |s| == 13
    requires forall i :: 0 <= i < 13 ==> s[i].category == CategoryOf(11 + i)
    ensures CategoryOrder(s) == [Morning, Afternoon, Evening]
  {
    assert CategoryOrder(s[..1]) == [Morning];
    assert CategoryOrder(s[..2]) == [Morning, Afternoon] by { assert s[..2][..1] == s[..1]; }
    var k := 2;
    while k < 6
      invariant 2 <= k <= 6
      invariant CategoryOrder(s[..k]) == [Morning, Afternoon]
    {
      assert s[..k + 1][..k] == s[..k];
      k := k + 1;
    }
    assert CategoryOrder(s[..7]) == [Morning, Afternoon, Evening] by { assert s[..7][..6] == s[..6]; }
    k := 7;
    while k < 13
      invariant 7 <= k <= 13
      invariant CategoryOrder(s[..k]) == [Morning, Afternoon, Evening]
    {
      assert s[..k + 1][..k] == s[..k];
      k := k + 1;
    }
    assert s[..13] == s;
  }
}
