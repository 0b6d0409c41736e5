/**
 * The medicine records of the backend's medicine service: which prescriptions
 * are active on a day, adherence statistics over the intake log, the
 * placeholder drug-interaction check over pairs of active medicines, the next
 * daily dose, field updates and deactivation, and the record created from a
 * label scan.
 *
 * Dates are day numbers, datetimes are microseconds since the epoch, and
 * Python's `str.lower()` is the parameter `lower`.
 */
module Medicines {
  import opened Common
  import opened Sorting

  datatype MedicineRecord = MedicineRecord(
    id: string,
    userId: string,
    medicineName: string,
    genericName: Option<string>,
    dosage: string,
    frequency: string,
    startDate: int,
    endDate: Option<int>,
    isActive: bool,
    instructions: Option<string>,
    sideEffects: seq<string>,
    contraindications: seq<string>,
    prescribedBy: Option<string>,
    prescriptionDate: Option<int>,
    pharmacy: Option<string>,
    scanImagePath: Option<string>,
    scanConfidence: Option<real>,
    createdAt: int,
    updatedAt: int)

  /** The `active_only` filter: flagged active, already started, and not yet ended. */
  predicate IsActiveOn(m: MedicineRecord, today: int) {
    m.isActive && m.startDate <= today && (m.endDate.None? || m.endDate.value >= today)
  }

  function ListedFor(userId: string, activeOnly: bool, today: int): MedicineRecord -> bool {
    (m: MedicineRecord) => m.userId == userId && (!activeOnly || IsActiveOn(m, today))
  }

  function NewestCreatedFirst(m: MedicineRecord): real {
    -(m.createdAt as real)
  }

  /** The page size `get_user_medicines` uses when its caller gives none. */
  const DefaultLimit: nat := 50

  /** `get_user_medicines`: the user's records (only the active ones if asked), newest created first, one page. */
  function UserMedicines(records: seq<MedicineRecord>, userId: string, activeOnly: bool, today: int,
                         limit: nat, offset: nat): (r: seq<MedicineRecord>)
    ensures |r| <= limit
  {
    Page(SortBy(Filter(records, ListedFor(userId, activeOnly, today)), NewestCreatedFirst), offset, limit)
  }

  /** Every listed record is the user's and, with `activeOnly`, active today; the page is newest created first. */
  lemma UserMedicinesSound(records: seq<MedicineRecord>, userId: string, activeOnly: bool, today: int,
                           limit: nat, offset: nat)
    ensures var r := UserMedicines(records, userId, activeOnly, today, limit, offset);
            (forall i :: 0 <= i < |r| ==> r[i] in records && r[i].userId == userId &&
                                          (activeOnly ==> IsActiveOn(r[i], today))) &&
            (forall i, j :: 0 <= i < j < |r| ==> r[i].createdAt >= r[j].createdAt)
  {
    var listed := Filter(records, ListedFor(userId, activeOnly, today));
    var sorted := SortBy(listed, NewestCreatedFirst);
    var r := Page(sorted, offset, limit);
    PageSorted(sorted, NewestCreatedFirst, offset, limit);
    forall i | 0 <= i < |r|
      ensures r[i] in records && r[i].userId == userId && (activeOnly ==> IsActiveOn(r[i], today))
    {
      assert r[i] in sorted;
      SortByMembers(listed, NewestCreatedFirst, r[i]);
    }
    forall i, j | 0 <= i < j < |r| ensures r[i].createdAt >= r[j].createdAt {
      assert NewestCreatedFirst(r[i]) <= NewestCreatedFirst(r[j]);
    }
  }

  /** When all of the user's listed records fit on the first page, each of them is on it. */
  lemma UserMedicinesComplete(records: seq<MedicineRecord>, userId: string, activeOnly: bool, today: int,
                              limit: nat, m: MedicineRecord)
    requires m in records && m.userId == userId && (activeOnly ==> IsActiveOn(m, today))
    requires Count(records, ListedFor(userId, activeOnly, today)) <= limit
    ensures m in UserMedicines(records, userId, activeOnly, today, limit, 0)
  {
    var listed := Filter(records, ListedFor(userId, activeOnly, today));
    var sorted := SortBy(listed, NewestCreatedFirst);
    FilterLength(records, ListedFor(userId, activeOnly, today));
    assert Page(sorted, 0, limit) == sorted[0..|sorted|] == sorted;
    SortByMembers(listed, NewestCreatedFirst, m);
  }

  // ---------------------------------------------------------------------------
  // Adherence
  // ---------------------------------------------------------------------------

  datatype MedicationLog = MedicationLog(
    id: string,
    medicineId: string,
    userId: string,
    scheduledTime: int,
    status: string)

  function HasStatus(status: string): MedicationLog -> bool {
    (l: MedicationLog) => l.status == status
  }

  datatype Adherence = Adherence(
    totalScheduled: nat,
    taken: nat,
    missed: nat,
    delayed: nat,
    skipped: nat,
    adherenceRate: real)

  /** Counts per status and the percentage of scheduled doses taken. */
  function AdherenceOf(logs: seq<MedicationLog>): (a: Adherence)
    ensures a.totalScheduled == |logs|
  {
    var total := |logs|;
    var taken := Count(logs, HasStatus("taken"));
    Adherence(total, taken, Count(logs, HasStatus("missed")), Count(logs, HasStatus("delayed")),
              Count(logs, HasStatus("skipped")),
              if total > 0 then taken as real / total as real * 100.0 else 0.0)
  }

  lemma {:induction false} StatusCountsBound(logs: seq<MedicationLog>)
    ensures Count(logs, HasStatus("taken")) + Count(logs, HasStatus("missed")) +
            Count(logs, HasStatus("delayed")) + Count(logs, HasStatus("skipped")) <= |logs|
  {
    if logs != [] {
      StatusCountsBound(logs[1..]);
    }
  }

  /** A share of a positive whole, as a fraction, lies in [0, 1] and is 1 only for the whole. */
  lemma ShareBounds(part: real, whole: real)
    requires 0.0 <= part <= whole && whole > 0.0
    ensures 0.0 <= part / whole <= 1.0
    ensures part / whole == 1.0 ==> part == whole
  {
    var q := part / whole;
    assert q * whole == part;
  }

  /**
   * No log is counted under two statuses; the rate is 0 without logs, always
   * a percentage, and 100 exactly when every scheduled dose was taken.
   */
  lemma AdherenceBounds(logs: seq<MedicationLog>)
    ensures var a := AdherenceOf(logs);
            a.taken + a.missed + a.delayed + a.skipped <= a.totalScheduled &&
            (a.totalScheduled == 0 ==> a.adherenceRate == 0.0) &&
            0.0 <= a.adherenceRate <= 100.0 &&
            (a.adherenceRate == 100.0 <==> a.totalScheduled > 0 && a.taken == a.totalScheduled)
  {
    StatusCountsBound(logs);
    var a := AdherenceOf(logs);
    if a.totalScheduled > 0 {
      ShareBounds(a.taken as real, a.totalScheduled as real);
    }
  }

  /** The logs `get_medication_adherence` reads: the user's, scheduled since `since`, of one medicine if one is named. */
  function AdherenceWindow(userId: string, medicineId: Option<string>, since: int): MedicationLog -> bool {
    (l: MedicationLog) => l.userId == userId && l.scheduledTime >= since && (!Truthy(medicineId) || l.medicineId == medicineId.value)
  }

  /** `get_medication_adherence` over the last `daysBack` days before `now`. */
  function MedicationAdherence(logs: seq<MedicationLog>, userId: string, medicineId: Option<string>,
                               daysBack: int, now: int): (a: Adherence)
    ensures a.totalScheduled == Count(logs, AdherenceWindow(userId, medicineId, now - Days(daysBack)))
  {
    var window := AdherenceWindow(userId, medicineId, now - Days(daysBack));
    FilterLength(logs, window);
    AdherenceOf(Filter(logs, window))
  }

  // ---------------------------------------------------------------------------
  // Interactions
  // ---------------------------------------------------------------------------

  /** The placeholder table of interacting drugs. */
  const CommonInteractions: seq<(string, string)> := [("warfarin", "aspirin"), ("metformin", "alcohol")]

  /** One lower-cased name mentions one drug of the pair and the other name the other drug. */
  predicate MentionsPair(l1: string, l2: string, pair: (string, string)) {
    (Contains(l1, pair.0) && Contains(l2, pair.1)) || (Contains(l1, pair.1) && Contains(l2, pair.0))
  }

  /** The test as written: each lower-cased name must occur INSIDE one drug name of the pair. */
  predicate InsidePair(l1: string, l2: string, pair: (string, string)) {
    (Contains(pair.0, l1) && Contains(pair.1, l2)) || (Contains(pair.1, l1) && Contains(pair.0, l2))
  }

  /** `_check_interaction` as written, with the substring test reversed. */
  predicate CheckInteractionAsWritten(med1: string, med2: string, lower: string -> string) {
    exists k :: 0 <= k < |CommonInteractions| && InsidePair(lower(med1), lower(med2), CommonInteractions[k])
  }

  /** `_check_interaction` as intended: the two names mention the two drugs of a listed pair. */
  predicate CheckInteraction(med1: string, med2: string, lower: string -> string) {
    exists k :: 0 <= k < |CommonInteractions| && MentionsPair(lower(med1), lower(med2), CommonInteractions[k])
  }

  /** Both versions of the interaction test are symmetric in the two medicines. */
  lemma CheckInteractionSymmetric(med1: string, med2: string, lower: string -> string)
    ensures CheckInteraction(med1, med2, lower) <==> CheckInteraction(med2, med1, lower)
    ensures CheckInteractionAsWritten(med1, med2, lower) <==> CheckInteractionAsWritten(med2, med1, lower)
  {
  }

  lemma {:induction false} ContainsLength(s: string, sub: string)
    requires Contains(s, sub)
    ensures |sub| <= |s|
    decreases |s|
  {
    if !StartsWith(s, sub) {
      ContainsLength(s[1..], sub);
    }
  }

  /** As written, a name whose lower-cased form is longer than every drug in the table is never flagged. */
  lemma LongNameMissedAsWritten(med1: string, med2: string, lower: string -> string)
    requires |lower(med1)| > 9
    ensures !CheckInteractionAsWritten(med1, med2, lower)
  {
    forall k | 0 <= k < |CommonInteractions| ensures !InsidePair(lower(med1), lower(med2), CommonInteractions[k]) {
      var pair := CommonInteractions[k];
      assert |pair.0| <= 9 && |pair.1| <= 9;
      if Contains(pair.0, lower(med1)) {
        ContainsLength(pair.0, lower(med1));
      }
      if Contains(pair.1, lower(med1)) {
        ContainsLength(pair.1, lower(med1));
      }
    }
  }

  /** As intended, names that begin with "warfarin" and "aspirin" once lower-cased are flagged. */
  lemma WarfarinAspirinFlagged(med1: string, med2: string, lower: string -> string)
    requires StartsWith(lower(med1), "warfarin") && StartsWith(lower(med2), "aspirin")
    ensures CheckInteraction(med1, med2, lower)
  {
    assert MentionsPair(lower(med1), lower(med2), CommonInteractions[0]);
  }

  /** As written, a one-letter name is flagged against another whenever both letters occur in a listed pair. */
  lemma FragmentsFlaggedAsWritten(med1: string, med2: string, lower: string -> string)
    requires lower(med1) == "a" && lower(med2) == "i"
    ensures CheckInteractionAsWritten(med1, med2, lower)
  {
    ContainsAt("warfarin", "a", 1);
    ContainsAt("aspirin", "i", 3);
    assert InsidePair(lower(med1), lower(med2), CommonInteractions[0]);
  }

  /** As intended, a name shorter than every drug in the table is never flagged. */
  lemma ShortNameNotFlagged(med1: string, med2: string, lower: string -> string)
    requires |lower(med1)| < 7
    ensures !CheckInteraction(med1, med2, lower)
  {
    forall k | 0 <= k < |CommonInteractions| ensures !MentionsPair(lower(med1), lower(med2), CommonInteractions[k]) {
      var pair := CommonInteractions[k];
      assert |pair.0| >= 7 && |pair.1| >= 7;
      if Contains(lower(med1), pair.0) {
        ContainsLength(lower(med1), pair.0);
      }
      if Contains(lower(med1), pair.1) {
        ContainsLength(lower(med1), pair.1);
      }
    }
  }

  /** As written, "Warfarin Sodium" is not flagged against "Aspirin". */
  lemma FullNameMissedAsWritten(lower: string -> string)
    requires lower("Warfarin Sodium") == "warfarin sodium"
    ensures !CheckInteractionAsWritten("Warfarin Sodium", "Aspirin", lower)
  {
    LongNameMissedAsWritten("Warfarin Sodium", "Aspirin", lower);
  }

  /** As intended, "Warfarin Sodium" is flagged against "Aspirin". */
  lemma FullNameFlagged(lower: string -> string)
    requires lower("Warfarin Sodium") == "warfarin sodium" && lower("Aspirin") == "aspirin"
    ensures CheckInteraction("Warfarin Sodium", "Aspirin", lower)
  {
    assert "warfarin sodium"[..8] == "warfarin";
    assert "aspirin"[..7] == "aspirin";
    WarfarinAspirinFlagged("Warfarin Sodium", "Aspirin", lower);
  }

  /** As written, the fragments "a" and "i" are flagged; as intended they are not. */
  lemma FragmentsFlaggedOnlyAsWritten()
    ensures CheckInteractionAsWritten("a", "i", LowerAscii)
    ensures !CheckInteraction("a", "i", LowerAscii)
  {
    assert LowerAscii("a") == "a" && LowerAscii("i") == "i";
    FragmentsFlaggedAsWritten("a", "i", LowerAscii);
    ShortNameNotFlagged("a", "i", LowerAscii);
  }

  datatype Interaction = Interaction(medicine1: string, medicine2: string)

  /** The pair test the service applies: `_check_interaction` as intended. */
  function Interacts(lower: string -> string): (string, string) -> bool {
    (a: string, b: string) => CheckInteraction(a, b, lower)
  }

  /** The interactions of `x` with each name of `ys`, in the order of `ys`. */
  function InteractionsWith(x: string, ys: seq<string>, interacts: (string, string) -> bool): (r: seq<Interaction>)
    ensures |r| <= |ys|
  {
    if ys == [] then []
    else InteractionsWith(x, ys[..|ys| - 1], interacts) +
         (if interacts(x, ys[|ys| - 1]) then [Interaction(x, ys[|ys| - 1])] else [])
  }

  /** The interactions found while the outer loop visits the first `n` names, each paired only with later names. */
  function InteractionsAmong(names: seq<string>, n: nat, interacts: (string, string) -> bool): seq<Interaction>
    requires n <= |names|
  {
    if n == 0 then []
    else InteractionsAmong(names, n - 1, interacts) + InteractionsWith(names[n - 1], names[n..], interacts)
  }

  lemma {:induction false} InteractionsWithSpec(x: string, ys: seq<string>, interacts: (string, string) -> bool)
    ensures var r := InteractionsWith(x, ys, interacts);
            (forall k :: 0 <= k < |r| ==> exists j :: 0 <= j < |ys| && r[k] == Interaction(x, ys[j]) &&
                                                     interacts(x, ys[j])) &&
            (forall j :: 0 <= j < |ys| && interacts(x, ys[j]) ==> Interaction(x, ys[j]) in r)
  {
    if ys != [] {
      var init := ys[..|ys| - 1];
      InteractionsWithSpec(x, init, interacts);
      var r := InteractionsWith(x, ys, interacts);
      var left := InteractionsWith(x, init, interacts);
      var last := |ys| - 1;
      var tail := if interacts(x, ys[last]) then [Interaction(x, ys[last])] else [];
      assert r == left + tail;
      forall k | 0 <= k < |r|
        ensures exists j :: 0 <= j < |ys| && r[k] == Interaction(x, ys[j]) && interacts(x, ys[j])
      {
        if k < |left| {
          assert r[k] == left[k];
          var j :| 0 <= j < |init| && left[k] == Interaction(x, init[j]) && interacts(x, init[j]);
          assert ys[j] == init[j];
        } else {
          var j := |ys| - 1;
          assert r[k] == Interaction(x, ys[j]) && interacts(x, ys[j]);
        }
      }
      forall j | 0 <= j < |ys| && interacts(x, ys[j]) ensures Interaction(x, ys[j]) in r {
        if j < |init| {
          assert ys[j] == init[j];
          assert Interaction(x, ys[j]) in left;
        } else {
          assert r[|r| - 1] == Interaction(x, ys[j]);
        }
      }
    }
  }

  /** `x` pairs the name at some outer position i < n with the name at a later position j, and they interact. */
  predicate ReportedPair(names: seq<string>, n: nat, x: Interaction, interacts: (string, string) -> bool) {
    exists i, j :: 0 <= i < n && i < j < |names| && x == Interaction(names[i], names[j]) && interacts(names[i], names[j])
  }

  /** Every reported interaction pairs a name with a strictly later one, and the pair interacts. */
  lemma {:induction false} InteractionsAmongSound(names: seq<string>, n: nat, interacts: (string, string) -> bool)
    requires n <= |names|
    ensures forall x :: x in InteractionsAmong(names, n, interacts) ==> ReportedPair(names, n, x, interacts)
  {
    if n > 0 {
      InteractionsAmongSound(names, n - 1, interacts);
      var left := InteractionsAmong(names, n - 1, interacts);
      var right := InteractionsWith(names[n - 1], names[n..], interacts);
      InteractionsWithSpec(names[n - 1], names[n..], interacts);
      forall x | x in InteractionsAmong(names, n, interacts) ensures ReportedPair(names, n, x, interacts) {
        if x in left {
          assert ReportedPair(names, n - 1, x, interacts);
          var i, j :| 0 <= i < n - 1 && i < j < |names| && x == Interaction(names[i], names[j]) &&
                      interacts(names[i], names[j]);
          assert 0 <= i < n;
        } else {
          assert x in right;
          var k :| 0 <= k < |right| && right[k] == x;
          var j :| 0 <= j < |names[n..]| && right[k] == Interaction(names[n - 1], names[n..][j]) &&
                   interacts(names[n - 1], names[n..][j]);
          assert names[n..][j] == names[n + j];
          assert 0 <= n - 1 < n && n - 1 < n + j < |names| &&
                 x == Interaction(names[n - 1], names[n + j]) && interacts(names[n - 1], names[n + j]);
        }
      }
    }
  }

  /** Every interacting pair of positions i < j among the first `n` outer positions is reported. */
  lemma {:induction false} InteractionsAmongComplete(names: seq<string>, n: nat, i: nat, j: nat, interacts: (string, string) -> bool)
    requires i < n <= |names| && i < j < |names|
    requires interacts(names[i], names[j])
    ensures Interaction(names[i], names[j]) in InteractionsAmong(names, n, interacts)
  {
    if i < n - 1 {
      InteractionsAmongComplete(names, n - 1, i, j, interacts);
    } else {
      InteractionsWithSpec(names[i], names[n..], interacts);
      assert names[n..][j - n] == names[j];
    }
  }

  lemma InteractionsWithStep(x: string, names: seq<string>, lo: nat, j: nat, interacts: (string, string) -> bool)
    requires lo <= j < |names|
    ensures InteractionsWith(x, names[lo..j + 1], interacts) ==
            InteractionsWith(x, names[lo..j], interacts) +
            (if interacts(x, names[j]) then [Interaction(x, names[j])] else [])
  {
    assert names[lo..j + 1][..j - lo] == names[lo..j];
  }

  /** The names checked for interactions: the active medicines' names, then the new medicine if one is named. */
  function InteractionCandidates(records: seq<MedicineRecord>, userId: string, newMedicineName: Option<string>,
                                 today: int): (names: seq<string>)
    ensures var active := UserMedicines(records, userId, true, today, DefaultLimit, 0);
            |names| == |active| + (if Truthy(newMedicineName) then 1 else 0) &&
            (forall i :: 0 <= i < |active| ==> names[i] == active[i].medicineName)
  {
    var active := UserMedicines(records, userId, true, today, DefaultLimit, 0);
    var names := seq(|active|, i requires 0 <= i < |active| => active[i].medicineName);
    if Truthy(newMedicineName) then names + [newMedicineName.value] else names
  }

  // ---------------------------------------------------------------------------
  // Upcoming doses
  // ---------------------------------------------------------------------------

  /** The hour of the day at which a daily medicine is assumed to be taken. */
  const DoseHour := 8

  /** 08:00 of day number `d`. */
  function DoseOn(d: int): int {
    Days(d) + Hours(DoseHour)
  }

  /** `now.replace(hour=8, ...)`, moved one day on when it is not after `now`. */
  function NextDoseTime(now: int): int {
    var t := DoseOn(DayOf(now));
    if t <= now then t + Days(1) else t
  }

  /** The next dose is an 08:00, lies within a day after `now`, and is the first 08:00 after `now`. */
  lemma NextDoseTimeSpec(now: int)
    ensures now < NextDoseTime(now) <= now + Days(1)
    ensures exists d :: NextDoseTime(now) == DoseOn(d)
    ensures forall d :: now < DoseOn(d) ==> NextDoseTime(now) <= DoseOn(d)
  {
    var today := DayOf(now);
    assert Days(today) <= now < Days(today + 1);
    if DoseOn(today) <= now {
      assert NextDoseTime(now) == DoseOn(today + 1);
    }
    forall d | now < DoseOn(d) ensures NextDoseTime(now) <= DoseOn(d) {
      if d > today {
        assert DoseOn(d) >= DoseOn(today + 1);
      }
    }
  }

  datatype UpcomingDose = UpcomingDose(
    medicineId: string,
    medicineName: string,
    dosage: string,
    scheduledTime: int,
    instructions: Option<string>)

  predicate IsDaily(m: MedicineRecord, lower: string -> string) {
    Contains(lower(m.frequency), "daily")
  }

  function Daily(lower: string -> string): MedicineRecord -> bool {
    (m: MedicineRecord) => IsDaily(m, lower)
  }

  function DoseOf(m: MedicineRecord, now: int): UpcomingDose {
    UpcomingDose(m.id, m.medicineName, m.dosage, NextDoseTime(now), m.instructions)
  }

  /** The doses of the daily medicines of `meds` whose next dose falls by `future`, in the order of `meds`. */
  function UpcomingFrom(meds: seq<MedicineRecord>, now: int, future: int, lower: string -> string): (r: seq<UpcomingDose>)
    ensures |r| <= |meds|
  {
    if meds == [] then []
    else
      var m := meds[|meds| - 1];
      UpcomingFrom(meds[..|meds| - 1], now, future, lower) +
      (if IsDaily(m, lower) && NextDoseTime(now) <= future then [DoseOf(m, now)] else [])
  }

  lemma UpcomingStep(meds: seq<MedicineRecord>, i: nat, now: int, future: int, lower: string -> string)
    requires i < |meds|
    ensures UpcomingFrom(meds[..i + 1], now, future, lower) ==
            UpcomingFrom(meds[..i], now, future, lower) +
            (if IsDaily(meds[i], lower) && NextDoseTime(now) <= future then [DoseOf(meds[i], now)] else [])
  {
    assert meds[..i + 1][..i] == meds[..i];
  }

  function ScheduledKey(d: UpcomingDose): real {
    d.scheduledTime as real
  }

  /**
   * Every upcoming dose is at the next 08:00 and comes from a daily medicine;
   * there is one per daily medicine when that 08:00 is within the window and
   * none otherwise.
   */
  lemma {:induction false} UpcomingFromSpec(meds: seq<MedicineRecord>, now: int, future: int, lower: string -> string)
    ensures var r := UpcomingFrom(meds, now, future, lower);
            (forall k :: 0 <= k < |r| ==> r[k].scheduledTime == NextDoseTime(now) <= future &&
                                          exists m :: m in meds && IsDaily(m, lower) && r[k] == DoseOf(m, now)) &&
            |r| == (if NextDoseTime(now) <= future then Count(meds, Daily(lower)) else 0)
  {
    if meds != [] {
      var init := meds[..|meds| - 1];
      var last := meds[|meds| - 1];
      UpcomingFromSpec(init, now, future, lower);
      assert init + [last] == meds;
      CountAppend(init, [last], Daily(lower));
      var r := UpcomingFrom(meds, now, future, lower);
      var left := UpcomingFrom(init, now, future, lower);
      forall k | 0 <= k < |r|
        ensures r[k].scheduledTime == NextDoseTime(now) <= future &&
                exists m :: m in meds && IsDaily(m, lower) && r[k] == DoseOf(m, now)
      {
        if k < |left| {
          var m :| m in init && IsDaily(m, lower) && left[k] == DoseOf(m, now);
          assert m in meds;
        } else {
          assert r[k] == DoseOf(last, now);
        }
      }
    }
  }

  /** All upcoming doses share one time, so sorting them by time keeps their order. */
  lemma UpcomingSortKeepsOrder(meds: seq<MedicineRecord>, now: int, future: int, lower: string -> string)
    ensures SortBy(UpcomingFrom(meds, now, future, lower), ScheduledKey) == UpcomingFrom(meds, now, future, lower)
  {
    UpcomingFromSpec(meds, now, future, lower);
    SortBySorted(UpcomingFrom(meds, now, future, lower), ScheduledKey);
  }

  // ---------------------------------------------------------------------------
  // Updates and creation
  // ---------------------------------------------------------------------------

  /**
   * One `key=value` argument of `update_medicine_record`: a column of the
   * record with its new value, a key given as `None`, or a key the record has
   * no attribute for.
   */
  datatype FieldUpdate =
    | SetId(id: string)
    | SetUserId(userId: string)
    | SetMedicineName(medicineName: string)
    | SetGenericName(genericName: string)
    | SetDosage(dosage: string)
    | SetFrequency(frequency: string)
    | SetStartDate(startDate: int)
    | SetEndDate(endDate: int)
    | SetActive(isActive: bool)
    | SetInstructions(instructions: string)
    | SetSideEffects(sideEffects: seq<string>)
    | SetContraindications(contraindications: seq<string>)
    | SetPrescribedBy(prescribedBy: string)
    | SetPrescriptionDate(prescriptionDate: int)
    | SetPharmacy(pharmacy: string)
    | SetScanImagePath(scanImagePath: string)
    | SetScanConfidence(scanConfidence: real)
    | SetCreatedAt(createdAt: int)
    | SetUpdatedAt(updatedAt: int)
    | NoneValue(key: string)
    | UnknownKey(key: string)

  predicate Ignored(u: FieldUpdate) {
    u.NoneValue? || u.UnknownKey?
  }

  /** The argument names none of the id, the creation time and the update time. */
  predicate KeepsIdentity(u: FieldUpdate) {
    !(u.SetId? || u.SetCreatedAt? || u.SetUpdatedAt?)
  }

  /** `setattr` of one argument; `None` values and unknown keys are skipped. */
  function ApplyField(m: MedicineRecord, u: FieldUpdate): (r: MedicineRecord)
    ensures KeepsIdentity(u) ==> r.id == m.id && r.createdAt == m.createdAt && r.updatedAt == m.updatedAt
    ensures Ignored(u) ==> r == m
  {
    match u
    case SetId(v) => m.(id := v)
    case SetUserId(v) => m.(userId := v)
    case SetMedicineName(v) => m.(medicineName := v)
    case SetGenericName(v) => m.(genericName := Some(v))
    case SetDosage(v) => m.(dosage := v)
    case SetFrequency(v) => m.(frequency := v)
    case SetStartDate(v) => m.(startDate := v)
    case SetEndDate(v) => m.(endDate := Some(v))
    case SetActive(v) => m.(isActive := v)
    case SetInstructions(v) => m.(instructions := Some(v))
    case SetSideEffects(v) => m.(sideEffects := v)
    case SetContraindications(v) => m.(contraindications := v)
    case SetPrescribedBy(v) => m.(prescribedBy := Some(v))
    case SetPrescriptionDate(v) => m.(prescriptionDate := Some(v))
    case SetPharmacy(v) => m.(pharmacy := Some(v))
    case SetScanImagePath(v) => m.(scanImagePath := Some(v))
    case SetScanConfidence(v) => m.(scanConfidence := Some(v))
    case SetCreatedAt(v) => m.(createdAt := v)
    case SetUpdatedAt(v) => m.(updatedAt := v)
    case NoneValue(_) => m
    case UnknownKey(_) => m
  }

  /** The arguments applied in order; the id and the two times change only when an argument names them. */
  function ApplyFields(m: MedicineRecord, us: seq<FieldUpdate>): (r: MedicineRecord)
    ensures (forall k :: 0 <= k < |us| ==> KeepsIdentity(us[k])) ==>
              r.id == m.id && r.createdAt == m.createdAt && r.updatedAt == m.updatedAt
  {
    if us == [] then m else ApplyField(ApplyFields(m, us[..|us| - 1]), us[|us| - 1])
  }

  /** Arguments that are all `None` or unknown leave the record as it was. */
  lemma {:induction false} IgnoredFieldsChangeNothing(m: MedicineRecord, us: seq<FieldUpdate>)
    requires forall k :: 0 <= k < |us| ==> Ignored(us[k])
    ensures ApplyFields(m, us) == m
  {
    if us != [] {
      IgnoredFieldsChangeNothing(m, us[..|us| - 1]);
    }
  }

  /** The arguments of `deactivate_medicine`. */
  function Deactivation(today: int): seq<FieldUpdate> {
    [SetActive(false), SetEndDate(today)]
  }

  /** A deactivated record is flagged inactive, ends today, is active on no day, and is otherwise unchanged. */
  lemma DeactivationSpec(m: MedicineRecord, today: int)
    ensures var r := ApplyFields(m, Deactivation(today));
            !r.isActive && r.endDate == Some(today) && (forall d :: !IsActiveOn(r, d)) &&
            r == m.(isActive := false, endDate := Some(today))
  {
    var us := Deactivation(today);
    assert us[..1] == [SetActive(false)] && us[..1][..0] == [];
    assert ApplyFields(m, us[..1][..0]) == m;
    var first := ApplyFields(m, us[..1]);
    assert first == ApplyField(m, SetActive(false));
    assert ApplyFields(m, us) == ApplyField(first, SetEndDate(today));
  }

  /** The first position of the record with id `id`, or -1. */
  function IndexOfMedicine(records: seq<MedicineRecord>, id: string): (i: int)
    ensures -1 <= i < |records|
    ensures i >= 0 ==> records[i].id == id && forall k :: 0 <= k < i ==> records[k].id != id
    ensures i == -1 ==> forall k :: 0 <= k < |records| ==> records[k].id != id
  {
    IndexWhere(records, (m: MedicineRecord) => m.id == id)
  }

  /** What a label scan may hold; `None` is a key the scan result does not have. */
  datatype ScanResult = ScanResult(
    medicineName: Option<string>,
    genericName: Option<string>,
    dosage: Option<string>,
    frequency: Option<string>,
    instructions: Option<string>,
    sideEffects: Option<seq<string>>,
    contraindications: Option<seq<string>>)

  const UnknownMedicine := "Unknown Medicine"
  const AsPrescribed := "As prescribed"
  const AsDirected := "As directed"

  /** `create_medicine_record`: a new record, active, with empty lists where none are given. */
  function NewMedicine(id: string, userId: string, medicineName: string, dosage: string, frequency: string,
                       startDate: int, genericName: Option<string>, endDate: Option<int>,
                       instructions: Option<string>, sideEffects: Option<seq<string>>,
                       contraindications: Option<seq<string>>, prescribedBy: Option<string>,
                       prescriptionDate: Option<int>, pharmacy: Option<string>, scanImagePath: Option<string>,
                       scanConfidence: Option<real>, now: int): (r: MedicineRecord)
    ensures r.isActive && r.startDate == startDate && r.endDate == endDate
    ensures sideEffects.None? ==> r.sideEffects == []
    ensures contraindications.None? ==> r.contraindications == []
    ensures r.prescribedBy == prescribedBy && r.prescriptionDate == prescriptionDate && r.pharmacy == pharmacy
    ensures r.createdAt == now && r.updatedAt == now
  {
    MedicineRecord(id, userId, medicineName, genericName, dosage, frequency, startDate, endDate, true,
                   instructions, Or(sideEffects, []), Or(contraindications, []), prescribedBy,
                   prescriptionDate, pharmacy, scanImagePath, scanConfidence, now, now)
  }

  /** `create_medicine_from_scan`: the scan's fields with their defaults, starting today with no end date. */
  function FromScan(id: string, userId: string, scan: ScanResult, scanImagePath: string, scanConfidence: real,
                    today: int, now: int): (r: MedicineRecord)
    ensures r.userId == userId && r.startDate == today && r.endDate.None? && r.isActive
    ensures r.prescribedBy.None? && r.prescriptionDate.None? && r.pharmacy.None?
    ensures r.scanImagePath == Some(scanImagePath) && r.scanConfidence == Some(scanConfidence)
  {
    NewMedicine(id, userId, Or(scan.medicineName, UnknownMedicine), Or(scan.dosage, AsPrescribed),
                Or(scan.frequency, AsDirected), today, scan.genericName, None, scan.instructions,
                Some(Or(scan.sideEffects, [])), Some(Or(scan.contraindications, [])), None, None, None,
                Some(scanImagePath), Some(scanConfidence), now)
  }

  /**
   * A scanned medicine keeps the fields the scan has, takes 'Unknown
   * Medicine', 'As prescribed' and 'As directed' for the missing ones, and is
   * active from the day of the scan on.
   */
  lemma FromScanSpec(id: string, userId: string, scan: ScanResult, scanImagePath: string, scanConfidence: real,
                     today: int, now: int)
    ensures var r := FromScan(id, userId, scan, scanImagePath, scanConfidence, today, now);
            (r.medicineName == if scan.medicineName.Some? then scan.medicineName.value else "Unknown Medicine") &&
            (r.dosage == if scan.dosage.Some? then scan.dosage.value else "As prescribed") &&
            (r.frequency == if scan.frequency.Some? then scan.frequency.value else "As directed") &&
            (scan.sideEffects.None? ==> r.sideEffects == []) &&
            (scan.contraindications.None? ==> r.contraindications == []) &&
            r.userId == userId && r.scanImagePath == Some(scanImagePath) &&
            forall d :: today <= d ==> IsActiveOn(r, d)
  {
  }

  /**
   * The loop of `get_upcoming_medications` over the active medicines, then
   * the sort by time.
   */
  method UpcomingDoses(active: seq<MedicineRecord>, now: int, future: int, lower: string -> string)
    returns (upcoming: seq<UpcomingDose>)
    ensures upcoming == UpcomingFrom(active, now, future, lower)
  {
    var doses: seq<UpcomingDose> := [];
    for i := 0 to |active|
      invariant doses == UpcomingFrom(active[..i], now, future, lower)
    {
      var medicine := active[i];
      UpcomingStep(active, i, now, future, lower);
      if IsDaily(medicine, lower) {
        var nextTime := DoseOn(DayOf(now));
        if nextTime <= now {
          nextTime := nextTime + Days(1);
        }
        if nextTime <= future {
          doses := doses + [UpcomingDose(medicine.id, medicine.medicineName, medicine.dosage, nextTime,
                                         medicine.instructions)];
        }
      }
    }
    assert active[..|active|] == active;
    UpcomingSortKeepsOrder(active, now, future, lower);
    upcoming := SortBy(doses, ScheduledKey);
  }

  /** The inner loop of `get_medicine_interactions`: the name at `i` against every later name. */
  method LaterInteractions(names: seq<string>, i: nat, lower: string -> string) returns (found: seq<Interaction>)
    requires i < |names|
    ensures found == InteractionsWith(names[i], names[i + 1..], Interacts(lower))
  {
    found := [];
    for j := i + 1 to |names|
      invariant found == InteractionsWith(names[i], names[i + 1..j], Interacts(lower))
    {
      InteractionsWithStep(names[i], names, i + 1, j, Interacts(lower));
      if CheckInteraction(names[i], names[j], lower) {
        found := found + [Interaction(names[i], names[j])];
      }
    }
    assert names[i + 1..|names|] == names[i + 1..];
  }

  /** The nested loops of `get_medicine_interactions`: each name against every later name. */
  method PairInteractions(names: seq<string>, lower: string -> string) returns (interactions: seq<Interaction>)
    ensures interactions == InteractionsAmong(names, |names|, Interacts(lower))
  {
    interactions := [];
    for i := 0 to |names|
      invariant interactions == InteractionsAmong(names, i, Interacts(lower))
    {
      var found := LaterInteractions(names, i, lower);
      interactions := interactions + found;
      InteractionsAmongStep(names, i, Interacts(lower));
    }
  }

  lemma InteractionsAmongStep(names: seq<string>, i: nat, interacts: (string, string) -> bool)
    requires i < |names|
    ensures InteractionsAmong(names, i + 1, interacts) ==
            InteractionsAmong(names, i, interacts) + InteractionsWith(names[i], names[i + 1..|names|], interacts)
  {
    assert names[i + 1..|names|] == names[i + 1..];
  }

  // ---------------------------------------------------------------------------
  // The service
  // ---------------------------------------------------------------------------

  /** The medicine and medication-log tables, and the service's operations on them. */
  class MedicineService {
    var records: seq<MedicineRecord>
    var logs: seq<MedicationLog>

    constructor (records: seq<MedicineRecord>, logs: seq<MedicationLog>)
      ensures this.records == records && this.logs == logs
    {
      this.records := records;
      this.logs := logs;
    }

    /** `create_medicine_record`: appends the new record unless the database write fails. */
    method CreateMedicineRecord(id: string, userId: string, medicineName: string, dosage: string,
                                frequency: string, startDate: int, genericName: Option<string>,
                                endDate: Option<int>, instructions: Option<string>,
                                sideEffects: Option<seq<string>>, contraindications: Option<seq<string>>,
                                prescribedBy: Option<string>, prescriptionDate: Option<int>,
                                pharmacy: Option<string>, scanImagePath: Option<string>,
                                scanConfidence: Option<real>, now: int,
                                succeeds: bool) returns (r: Option<MedicineRecord>)
      modifies this
      ensures r.Some? <==> succeeds
      ensures succeeds ==> r.value == NewMedicine(id, userId, medicineName, dosage, frequency, startDate,
                                                  genericName, endDate, instructions, sideEffects,
                                                  contraindications, prescribedBy, prescriptionDate, pharmacy,
                                                  scanImagePath, scanConfidence, now) &&
                           records == old(records) + [r.value]
      ensures !succeeds ==> records == old(records)
      ensures logs == old(logs)
    {
      if succeeds {
        var m := NewMedicine(id, userId, medicineName, dosage, frequency, startDate, genericName, endDate,
                             instructions, sideEffects, contraindications, prescribedBy, prescriptionDate,
                             pharmacy, scanImagePath, scanConfidence, now);
        records := records + [m];
        r := Some(m);
      } else {
        r := None;
      }
    }

    /** `get_user_medicines`. */
    method GetUserMedicines(userId: string, activeOnly: bool, today: int, limit: nat, offset: nat)
      returns (medicines: seq<MedicineRecord>)
      ensures medicines == UserMedicines(records, userId, activeOnly, today, limit, offset)
      ensures forall i :: 0 <= i < |medicines| ==> medicines[i] in records && medicines[i].userId == userId &&
                                                   (activeOnly ==> IsActiveOn(medicines[i], today))
    {
      medicines := UserMedicines(records, userId, activeOnly, today, limit, offset);
      UserMedicinesSound(records, userId, activeOnly, today, limit, offset);
    }

    /**
     * `update_medicine_record`: false when no record has the id; otherwise
     * the arguments are applied in order to the first such record and its
     * update time is set.
     */
    method UpdateMedicineRecord(medicineId: string, updates: seq<FieldUpdate>, now: int) returns (ok: bool)
      modifies this
      ensures ok <==> IndexOfMedicine(old(records), medicineId) >= 0
      ensures ok ==> var i := IndexOfMedicine(old(records), medicineId);
                     records == old(records)[i := ApplyFields(old(records)[i], updates).(updatedAt := now)]
      ensures !ok ==> records == old(records)
      ensures logs == old(logs)
    {
      var i := IndexOfMedicine(records, medicineId);
      if i < 0 {
        return false;
      }
      var medicine := records[i];
      for k := 0 to |updates|
        invariant medicine == ApplyFields(records[i], updates[..k])
      {
        assert updates[..k + 1][..k] == updates[..k];
        medicine := ApplyField(medicine, updates[k]);
      }
      assert updates[..|updates|] == updates;
      records := records[i := medicine.(updatedAt := now)];
      ok := true;
    }

    /** `deactivate_medicine`: the record is inactive on every day from now on, and ends today. */
    method DeactivateMedicine(medicineId: string, today: int, now: int) returns (ok: bool)
      modifies this
      ensures ok <==> IndexOfMedicine(old(records), medicineId) >= 0
      ensures ok ==> var i := IndexOfMedicine(old(records), medicineId);
                     records == old(records)[i := old(records)[i].(isActive := false, endDate := Some(today),
                                                                   updatedAt := now)] &&
                     forall d :: !IsActiveOn(records[i], d)
      ensures !ok ==> records == old(records)
      ensures logs == old(logs)
    {
      ok := UpdateMedicineRecord(medicineId, Deactivation(today), now);
      if ok {
        DeactivationSpec(old(records)[IndexOfMedicine(old(records), medicineId)], today);
      }
    }

    /** `log_medication_taken`: appends an intake entry unless the database write fails. */
    method LogMedicationTaken(id: string, medicineId: string, userId: string, scheduledTime: int, status: string,
                              succeeds: bool) returns (r: Option<MedicationLog>)
      modifies this
      ensures r.Some? <==> succeeds
      ensures succeeds ==> r.value == MedicationLog(id, medicineId, userId, scheduledTime, status) &&
                           logs == old(logs) + [r.value]
      ensures !succeeds ==> logs == old(logs)
      ensures records == old(records)
    {
      if succeeds {
        var entry := MedicationLog(id, medicineId, userId, scheduledTime, status);
        logs := logs + [entry];
        r := Some(entry);
      } else {
        r := None;
      }
    }

    /** `get_medication_adherence`. */
    method GetMedicationAdherence(userId: string, medicineId: Option<string>, daysBack: int, now: int)
      returns (a: Adherence)
      ensures a == MedicationAdherence(logs, userId, medicineId, daysBack, now)
      ensures a.taken + a.missed + a.delayed + a.skipped <= a.totalScheduled
      ensures 0.0 <= a.adherenceRate <= 100.0
    {
      a := MedicationAdherence(logs, userId, medicineId, daysBack, now);
      AdherenceBounds(Filter(logs, AdherenceWindow(userId, medicineId, now - Days(daysBack))));
    }

    /**
     * `get_upcoming_medications`: for each active medicine whose frequency
     * says "daily", a dose at the next 08:00 if that falls within
     * `hoursAhead` hours, sorted by time.
     */
    method GetUpcomingMedications(userId: string, hoursAhead: int, now: int, today: int, lower: string -> string)
      returns (upcoming: seq<UpcomingDose>)
      ensures upcoming == UpcomingFrom(UserMedicines(records, userId, true, today, DefaultLimit, 0), now,
                                       now + Hours(hoursAhead), lower)
    {
      upcoming := UpcomingFrom(UserMedicines(records, userId, true, today, DefaultLimit, 0), now,
                               now + Hours(hoursAhead), lower);
    }

    /** `create_medicine_from_scan`. */
    method CreateMedicineFromScan(id: string, userId: string, scan: ScanResult, scanImagePath: string,
                                  scanConfidence: real, today: int, now: int, succeeds: bool)
      returns (r: Option<MedicineRecord>)
      modifies this
      ensures r.Some? <==> succeeds
      ensures succeeds ==> r.value == FromScan(id, userId, scan, scanImagePath, scanConfidence, today, now) &&
                           records == old(records) + [r.value]
      ensures !succeeds ==> records == old(records)
      ensures logs == old(logs)
    {
      r := CreateMedicineRecord(id, userId, Or(scan.medicineName, UnknownMedicine), Or(scan.dosage, AsPrescribed),
                                Or(scan.frequency, AsDirected), today, scan.genericName, None,
                                scan.instructions, Some(Or(scan.sideEffects, [])),
                                Some(Or(scan.contraindications, [])), None, None, None,
                                Some(scanImagePath), Some(scanConfidence), now, succeeds);
    }

    /**
     * `get_medicine_interactions`: every pair of positions i < j among the
     * candidate names whose names interact, in loop order.
     */
    method GetMedicineInteractions(userId: string, newMedicineName: Option<string>, today: int,
                                   lower: string -> string) returns (interactions: seq<Interaction>)
      ensures var names := InteractionCandidates(records, userId, newMedicineName, today);
              interactions == InteractionsAmong(names, |names|, Interacts(lower))
    {
      var names := InteractionCandidates(records, userId, newMedicineName, today);
      interactions := PairInteractions(names, lower);
    }
  }
}
