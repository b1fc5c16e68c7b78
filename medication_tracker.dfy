/**
 * The medication tracker screen: every medication keeps two parallel flag
 * lists, `taken` and `skipped`, one entry per scheduled time slot. The user
 * (or the reminder alert) marks one slot of one medication taken or skipped;
 * a one-minute poll raises a reminder for every pending slot whose time equals
 * the current time.
 */
module MedicationTracker {

  datatype Medication = Medication(
    id: int,
    name: string,
    dosage: string,
    frequency: string,
    times: seq<string>,
    taken: seq<bool>,
    skipped: seq<bool>,
    color: string,
    reminders: bool,
    refillDate: string,
    pillsRemaining: int,
    purpose: string,
    sideEffects: seq<string>,
    precautions: seq<string>)

  /** The medications the screen starts with. */
  function InitialMedications(): seq<Medication>
  {
    [ Medication(1, "Metoprolol", "50mg", "Twice daily", ["8:00 AM", "8:00 PM"],
                 [true, false], [false, false], "#EF4444", true, "2025-11-15", 45,
                 "Beta-blocker for high blood pressure",
                 ["Dizziness", "Fatigue", "Cold hands"],
                 ["Avoid alcohol", "Monitor blood pressure regularly"]),
      Medication(2, "Aspirin", "81mg", "Once daily", ["12:00 PM"],
                 [false], [false], "#3B82F6", true, "2025-12-01", 60,
                 "Blood thinner to prevent clots",
                 ["Stomach upset", "Easy bruising"],
                 ["Take with food", "Inform doctor of bleeding"]),
      Medication(3, "Lisinopril", "10mg", "Once daily", ["8:00 PM"],
                 [false], [false], "#10B981", true, "2025-11-20", 30,
                 "ACE inhibitor for blood pressure",
                 ["Dry cough", "Dizziness"],
                 ["Stay hydrated", "Avoid potassium supplements"]) ]
  }

  // ---------------------------------------------------------------------------
  // Slot flags
  // ---------------------------------------------------------------------------

  /** `flags[i]` read as a JavaScript condition: an index outside the array
      yields `undefined`, which is falsy. */
  predicate Flag(flags: seq<bool>, i: int)
  {
    0 <= i < |flags| && flags[i]
  }

  /** `flags.map((f, idx) => idx === i ? v : f)`. */
  function SetFlag(flags: seq<bool>, i: int, v: bool): (r: seq<bool>)
    ensures |r| == |flags|
    ensures forall k :: 0 <= k < |r| ==> r[k] == if k == i then v else flags[k]
  {
    seq(|flags|, k requires 0 <= k < |flags| => if k == i then v else flags[k])
  }

  /** The two marks a user can give a dose. */
  datatype DoseMark = Taken | Skipped

  /** Two medications agree on everything except their status flags. */
  predicate SameExceptStatus(a: Medication, b: Medication)
  {
    a.(taken := [], skipped := []) == b.(taken := [], skipped := [])
  }

  /** The flags never claim both taken and skipped for the same slot. */
  predicate Exclusive(med: Medication)
  {
    forall j :: 0 <= j < |med.taken| && j < |med.skipped| ==> !(med.taken[j] && med.skipped[j])
  }

  /**
   * handleMarkAsTaken (mark == Taken) and handleMarkAsSkipped (mark == Skipped):
   * every medication whose id is `medId` gets slot `i` set to the mark and the
   * other flag of that slot cleared; everything else is copied.
   */
  function MarkSlot(meds: seq<Medication>, medId: int, i: int, mark: DoseMark): (r: seq<Medication>)
    ensures |r| == |meds|
    ensures forall k :: 0 <= k < |meds| ==> SameExceptStatus(r[k], meds[k])
    ensures forall k :: 0 <= k < |meds| && meds[k].id != medId ==> r[k] == meds[k]
    ensures forall k :: 0 <= k < |meds| && meds[k].id == medId ==>
      && |r[k].taken| == |meds[k].taken|
      && |r[k].skipped| == |meds[k].skipped|
      && (0 <= i < |meds[k].taken| ==> r[k].taken[i] == (mark == Taken))
      && (0 <= i < |meds[k].skipped| ==> r[k].skipped[i] == (mark == Skipped))
      && (forall j :: 0 <= j < |meds[k].taken| && j != i ==> r[k].taken[j] == meds[k].taken[j])
      && (forall j :: 0 <= j < |meds[k].skipped| && j != i ==> r[k].skipped[j] == meds[k].skipped[j])
  {
    seq(|meds|, k requires 0 <= k < |meds| =>
      if meds[k].id == medId then
        meds[k].(taken := SetFlag(meds[k].taken, i, mark == Taken),
                 skipped := SetFlag(meds[k].skipped, i, mark == Skipped))
      else meds[k])
  }

  /** Marking keeps taken and skipped mutually exclusive wherever they were. */
  lemma MarkSlotKeepsExclusive(meds: seq<Medication>, medId: int, i: int, mark: DoseMark)
    requires forall k :: 0 <= k < |meds| ==> Exclusive(meds[k])
    ensures forall k :: 0 <= k < |meds| ==> Exclusive(MarkSlot(meds, medId, i, mark)[k])
  {
    var r := MarkSlot(meds, medId, i, mark);
    forall k | 0 <= k < |meds|
      ensures Exclusive(r[k])
    {
      if meds[k].id == medId {
        forall j | 0 <= j < |r[k].taken| && j < |r[k].skipped|
          ensures !(r[k].taken[j] && r[k].skipped[j])
        {
          if j != i {
            assert r[k].taken[j] == meds[k].taken[j];
            assert r[k].skipped[j] == meds[k].skipped[j];
          }
        }
      }
    }
  }

  /** The last mark on a slot decides it: marking taken after skipped is the
      same as marking taken alone, and vice versa; with equal marks this is
      idempotence. */
  lemma LastMarkWins(meds: seq<Medication>, medId: int, i: int, first: DoseMark, second: DoseMark)
    ensures MarkSlot(MarkSlot(meds, medId, i, first), medId, i, second) == MarkSlot(meds, medId, i, second)
  {
    var once := MarkSlot(meds, medId, i, second);
    var twice := MarkSlot(MarkSlot(meds, medId, i, first), medId, i, second);
    forall k | 0 <= k < |meds|
      ensures twice[k] == once[k]
    {
      if meds[k].id == medId {
        assert twice[k].taken == once[k].taken;
        assert twice[k].skipped == once[k].skipped;
      }
    }
  }

  /** Marking a slot of a medication no entry carries changes nothing. */
  lemma MarkUnknownIdIsNoOp(meds: seq<Medication>, medId: int, i: int, mark: DoseMark)
    requires forall k :: 0 <= k < |meds| ==> meds[k].id != medId
    ensures MarkSlot(meds, medId, i, mark) == meds
  {
  }

  // ---------------------------------------------------------------------------
  // What each slot shows
  // ---------------------------------------------------------------------------

  datatype SlotView = ActionButtons | TakenBadge | SkippedBadge

  /** The time-slot row: buttons while neither flag is set, otherwise the
      "Taken" badge when taken, else the "Skipped" badge. */
  function ViewOfSlot(med: Medication, i: int): (v: SlotView)
    ensures v == ActionButtons <==> !Flag(med.taken, i) && !Flag(med.skipped, i)
    ensures v == TakenBadge <==> Flag(med.taken, i)
    ensures v == SkippedBadge <==> !Flag(med.taken, i) && Flag(med.skipped, i)
  {
    if !Flag(med.taken, i) && !Flag(med.skipped, i) then ActionButtons
    else if Flag(med.taken, i) then TakenBadge
    else SkippedBadge
  }

  /** After a mark, the marked slot of the medication shows that mark's badge
      (when both flag lists reach that slot). */
  lemma ViewAfterMark(meds: seq<Medication>, medId: int, i: int, mark: DoseMark, k: int)
    requires 0 <= k < |meds| && meds[k].id == medId
    requires 0 <= i < |meds[k].taken| && i < |meds[k].skipped|
    ensures ViewOfSlot(MarkSlot(meds, medId, i, mark)[k], i) == (if mark == Taken then TakenBadge else SkippedBadge)
  {
  }

  /** The refill banner appears when fewer than 30 pills remain. */
  predicate RefillAlert(med: Medication)
  {
    med.pillsRemaining < 30
  }

  /** Marks never change the refill banner; none of the initial medications
      shows it (Lisinopril's 30 pills sit exactly on the threshold). */
  lemma RefillAlertUnaffected(meds: seq<Medication>, medId: int, i: int, mark: DoseMark)
    ensures forall k :: 0 <= k < |meds| ==> (RefillAlert(MarkSlot(meds, medId, i, mark)[k]) <==> RefillAlert(meds[k]))
    ensures forall k :: 0 <= k < |InitialMedications()| ==> !RefillAlert(InitialMedications()[k])
  {
    var r := MarkSlot(meds, medId, i, mark);
    forall k | 0 <= k < |meds|
      ensures r[k].pillsRemaining == meds[k].pillsRemaining
    {
      assert SameExceptStatus(r[k], meds[k]);
      assert r[k].(taken := [], skipped := []).pillsRemaining == meds[k].(taken := [], skipped := []).pillsRemaining;
    }
  }

  // ---------------------------------------------------------------------------
  // Reminders
  // ---------------------------------------------------------------------------

  /** A reminder alert offers to mark slot `index` of medication `medId`. */
  datatype Reminder = Reminder(medId: int, index: int)

  /** `now.toTimeString().slice(0, 5)`: at most the first five characters. */
  function CurrentTime(timeString: string): (r: string)
    ensures |r| == if |timeString| < 5 then |timeString| else 5
    ensures r <= timeString
  {
    if |timeString| < 5 then timeString else timeString[..5]
  }

  /** The condition of `checkReminders` for one slot. */
  predicate ReminderDue(med: Medication, index: int, currentTime: string)
  {
    med.reminders && 0 <= index < |med.times| && med.times[index] == currentTime
    && !Flag(med.taken, index) && !Flag(med.skipped, index)
  }

  /** The alerts of the inner loop over the first `n` slots of `med`. */
  function SlotReminders(med: Medication, currentTime: string, n: nat): seq<Reminder>
    requires n <= |med.times|
  {
    if n == 0 then []
    else SlotReminders(med, currentTime, n - 1)
         + (if ReminderDue(med, n - 1, currentTime) then [Reminder(med.id, n - 1)] else [])
  }

  /** The alerts raised for one medication. */
  function MedReminders(med: Medication, currentTime: string): seq<Reminder>
  {
    if med.reminders then SlotReminders(med, currentTime, |med.times|) else []
  }

  /** The alerts of one poll over all medications, in the order they are raised. */
  function AllReminders(meds: seq<Medication>, currentTime: string): seq<Reminder>
  {
    if |meds| == 0 then []
    else AllReminders(meds[..|meds| - 1], currentTime) + MedReminders(meds[|meds| - 1], currentTime)
  }

  lemma {:induction false} SlotRemindersIff(med: Medication, t: string, n: nat, rem: Reminder)
    requires n <= |med.times|
    ensures rem in SlotReminders(med, t, n) <==>
            rem.medId == med.id && 0 <= rem.index < n && ReminderDue(med, rem.index, t)
  {
    if n > 0 {
      SlotRemindersIff(med, t, n - 1, rem);
    }
  }

  /** A poll raises a reminder for (medId, index) exactly when some medication
      with that id satisfies the reminder condition at that slot. */
  lemma {:induction false} RemindersIff(meds: seq<Medication>, t: string, rem: Reminder)
    ensures rem in AllReminders(meds, t) <==>
            exists k :: 0 <= k < |meds| && meds[k].id == rem.medId && ReminderDue(meds[k], rem.index, t)
  {
    if |meds| > 0 {
      var init, last := meds[..|meds| - 1], meds[|meds| - 1];
      RemindersIff(init, t, rem);
      SlotRemindersIff(last, t, |last.times|, rem);
      if rem in AllReminders(meds, t) {
        if rem !in AllReminders(init, t) {
          assert meds[|meds| - 1] == last;
        } else {
          var k :| 0 <= k < |init| && init[k].id == rem.medId && ReminderDue(init[k], rem.index, t);
          assert meds[k] == init[k];
        }
      } else {
        forall k | 0 <= k < |meds| && meds[k].id == rem.medId
          ensures !ReminderDue(meds[k], rem.index, t)
        {
          if k < |init| {
            assert meds[k] == init[k];
          }
        }
      }
    }
  }

  /** The current time has five characters, so a slot of any other length,
      such as "8:00 AM", never raises a reminder. */
  lemma OnlyFiveCharacterSlotsRemind(meds: seq<Medication>, timeString: string, rem: Reminder)
    requires |timeString| >= 5
    requires rem in AllReminders(meds, CurrentTime(timeString))
    ensures exists k :: 0 <= k < |meds| && meds[k].id == rem.medId
                        && 0 <= rem.index < |meds[k].times| && |meds[k].times[rem.index]| == 5
  {
    RemindersIff(meds, CurrentTime(timeString), rem);
  }

  /** As written, no poll ever reminds of any initial slot: their times are in
      the 12-hour "8:00 AM" form, seven or eight characters long. */
  lemma InitialScheduleNeverReminds(timeString: string)
    requires |timeString| >= 5
    ensures AllReminders(InitialMedications(), CurrentTime(timeString)) == []
  {
    var meds := InitialMedications();
    var t := CurrentTime(timeString);
    if AllReminders(meds, t) != [] {
      OnlyFiveCharacterSlotsRemind(meds, timeString, AllReminders(meds, t)[0]);
      assert false;
    }
  }

  // ---------------------------------------------------------------------------
  // Corrected reminder rule: compare against the clock written in slot form
  // ---------------------------------------------------------------------------

  function DigitChar(d: nat): char
    requires d < 10
  {
    ['0', '1', '2', '3', '4', '5', '6', '7', '8', '9'][d]
  }

  /** The hour on a 12-hour clock, 12 standing for 0. */
  function Hour12(hour: nat): (h: nat)
    ensures 1 <= h <= 12
  {
    if hour % 12 == 0 then 12 else hour % 12
  }

  /** A one- or two-digit number without leading zero. */
  function HourText(h: nat): (s: string)
    requires h < 100
    ensures |s| == if h < 10 then 1 else 2
  {
    if h < 10 then [DigitChar(h)] else [DigitChar(h / 10), DigitChar(h % 10)]
  }

  /** ":MM AM" or ":MM PM" without the hour. */
  function MinuteSuffix(hour: nat, minute: nat): (s: string)
    requires minute < 60
    ensures |s| == 6
  {
    [':', DigitChar(minute / 10), DigitChar(minute % 10), ' '] + (if hour < 12 then "AM" else "PM")
  }

  /** The clock time (24-hour `hour`, `minute`) written the way the slots are:
      "8:00 AM", "12:00 PM", "12:05 AM". */
  function ClockSlot(hour: nat, minute: nat): (s: string)
    requires hour < 24 && minute < 60
    ensures |s| == 7 || |s| == 8
  {
    HourText(Hour12(hour)) + MinuteSuffix(hour, minute)
  }

  lemma DigitCharInjective(a: nat, b: nat)
    requires a < 10 && b < 10 && DigitChar(a) == DigitChar(b)
    ensures a == b
  {
  }

  lemma HourTextInjective(a: nat, b: nat)
    requires a < 100 && b < 100 && HourText(a) == HourText(b)
    ensures a == b
  {
    if a < 10 {
      DigitCharInjective(a, b);
    } else {
      DigitCharInjective(a / 10, b / 10);
      DigitCharInjective(a % 10, b % 10);
    }
  }

  /** Equal concatenations with equally long tails have equal heads and tails. */
  lemma ConcatCancel(a: string, b: string, c: string, d: string)
    requires a + b == c + d && |b| == |d|
    ensures a == c && b == d
  {
    assert a == (a + b)[..|a|];
    assert b == (a + b)[|a|..];
    assert c == (c + d)[..|c|];
    assert d == (c + d)[|c|..];
  }

  lemma MinuteSuffixInjective(h1: nat, m1: nat, h2: nat, m2: nat)
    requires m1 < 60 && m2 < 60 && MinuteSuffix(h1, m1) == MinuteSuffix(h2, m2)
    ensures m1 == m2 && (h1 < 12 <==> h2 < 12)
  {
    var s := MinuteSuffix(h1, m1);
    assert s[1] == DigitChar(m1 / 10) && s[1] == DigitChar(m2 / 10);
    assert s[2] == DigitChar(m1 % 10) && s[2] == DigitChar(m2 % 10);
    assert s[4] == (if h1 < 12 then 'A' else 'P') && s[4] == (if h2 < 12 then 'A' else 'P');
    DigitCharInjective(m1 / 10, m2 / 10);
    DigitCharInjective(m1 % 10, m2 % 10);
  }

  /** Distinct clock minutes give distinct slot strings. */
  lemma ClockSlotInjective(h1: nat, m1: nat, h2: nat, m2: nat)
    requires h1 < 24 && m1 < 60 && h2 < 24 && m2 < 60
    requires ClockSlot(h1, m1) == ClockSlot(h2, m2)
    ensures h1 == h2 && m1 == m2
  {
    ConcatCancel(HourText(Hour12(h1)), MinuteSuffix(h1, m1), HourText(Hour12(h2)), MinuteSuffix(h2, m2));
    HourTextInjective(Hour12(h1), Hour12(h2));
    MinuteSuffixInjective(h1, m1, h2, m2);
  }

  /** The reminder condition with the clock formatted in the slots' own form. */
  predicate ClockReminderDue(med: Medication, index: int, hour: nat, minute: nat)
    requires hour < 24 && minute < 60
  {
    med.reminders && 0 <= index < |med.times| && med.times[index] == ClockSlot(hour, minute)
    && !Flag(med.taken, index) && !Flag(med.skipped, index)
  }

  /** A pending slot due at `hour:minute` is reminded of at that minute and at
      no other minute of the day. */
  lemma ClockReminderFiresAtItsMinute(med: Medication, index: int, hour: nat, minute: nat, h: nat, m: nat)
    requires hour < 24 && minute < 60 && h < 24 && m < 60
    requires med.reminders && 0 <= index < |med.times| && med.times[index] == ClockSlot(hour, minute)
    requires !Flag(med.taken, index) && !Flag(med.skipped, index)
    ensures ClockReminderDue(med, index, h, m) <==> (h == hour && m == minute)
  {
    if ClockReminderDue(med, index, h, m) {
      ClockSlotInjective(h, m, hour, minute);
    }
  }

  /** With the corrected rule the pending initial slots are reminded of:
      Metoprolol's evening dose and Lisinopril at 20:00, Aspirin at 12:00. */
  lemma InitialScheduleRemindsWhenCorrected()
    ensures ClockReminderDue(InitialMedications()[0], 1, 20, 0)
    ensures ClockReminderDue(InitialMedications()[1], 0, 12, 0)
    ensures ClockReminderDue(InitialMedications()[2], 0, 20, 0)
  {
  }

  // ---------------------------------------------------------------------------
  // The screen's state
  // ---------------------------------------------------------------------------

  class TrackerScreen {
    var medications: seq<Medication>

    constructor ()
      ensures medications == InitialMedications()
    {
      medications := InitialMedications();
    }

    /** handleMarkAsTaken */
    method MarkAsTaken(medId: int, timeIndex: int)
      modifies this
      ensures medications == MarkSlot(old(medications), medId, timeIndex, Taken)
    {
      medications := MarkSlot(medications, medId, timeIndex, Taken);
    }

    /** handleMarkAsSkipped */
    method MarkAsSkipped(medId: int, timeIndex: int)
      modifies this
      ensures medications == MarkSlot(old(medications), medId, timeIndex, Skipped)
    {
      medications := MarkSlot(medications, medId, timeIndex, Skipped);
    }

    /** One run of `checkReminders`: the nested loops over the medications and
        their times, returning the alerts instead of showing them. The clock's
        `toTimeString()` is passed in. */
    method CheckReminders(timeString: string) returns (alerts: seq<Reminder>)
      ensures alerts == AllReminders(medications, CurrentTime(timeString))
    {
      var currentTime := CurrentTime(timeString);
      alerts := [];
      var m := 0;
      while m < |medications|
        invariant 0 <= m <= |medications|
        invariant alerts == AllReminders(medications[..m], currentTime)
      {
        var med := medications[m];
        if med.reminders {
          var index := 0;
          while index < |med.times|
            invariant 0 <= index <= |med.times|
            invariant alerts == AllReminders(medications[..m], currentTime) + SlotReminders(med, currentTime, index)
          {
            var time := med.times[index];
            if time == currentTime && !Flag(med.taken, index) && !Flag(med.skipped, index) {
              alerts := alerts + [Reminder(med.id, index)];
            }
            index := index + 1;
          }
        }
        assert medications[..m + 1][..m] == medications[..m];
        m := m + 1;
      }
      assert medications[..m] == medications;
    }
  }
}
