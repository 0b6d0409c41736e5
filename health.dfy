/**
 * Vital signs on the backend: the latest value of each vital among a user's
 * ten most recent health records, the alerts those values raise, the history
 * of one vital over the last days and the trend of that history. Times are
 * microseconds.
 */
module Health {
  import opened Common
  import opened Sorting

  /** A row of the `health_records` table, reduced to the vitals. */
  datatype HealthRecord = HealthRecord(
    id: string,
    userId: string,
    recordedAt: int,
    systolic: Option<int>,
    diastolic: Option<int>,
    heartRate: Option<int>,
    temperature: Option<real>,
    weight: Option<real>,
    bloodSugar: Option<real>,
    recordedBy: string)

  // A vital is present when it is set and, as Python tests it, not zero.
  predicate HasSystolic(r: HealthRecord) { r.systolic.Some? && r.systolic.value != 0 }
  predicate HasHeartRate(r: HealthRecord) { r.heartRate.Some? && r.heartRate.value != 0 }
  predicate HasTemperature(r: HealthRecord) { r.temperature.Some? && r.temperature.value != 0.0 }
  predicate HasWeight(r: HealthRecord) { r.weight.Some? && r.weight.value != 0.0 }
  predicate HasBloodSugar(r: HealthRecord) { r.bloodSugar.Some? && r.bloodSugar.value != 0.0 }

  function BelongsTo(userId: string): HealthRecord -> bool {
    (r: HealthRecord) => r.userId == userId
  }

  function NewestFirst(r: HealthRecord): real {
    -(r.recordedAt as real)
  }

  function OldestFirst(r: HealthRecord): real {
    r.recordedAt as real
  }

  /** How many recent records `get_latest_vital_signs` looks at. */
  const RecentRecords := 10

  /** The user's ten most recent records, newest first. */
  function RecentOf(records: seq<HealthRecord>, userId: string): seq<HealthRecord> {
    Page(SortBy(Filter(records, BelongsTo(userId)), NewestFirst), 0, RecentRecords)
  }

  // ---------------------------------------------------------------- latest vitals

  /** The first element of `s` satisfying `p`. */
  function FirstWhere(s: seq<HealthRecord>, p: HealthRecord -> bool): (r: Option<HealthRecord>)
    ensures r.Some? ==> r.value in s && p(r.value)
  {
    if s == [] then None
    else if p(s[0]) then Some(s[0])
    else FirstWhere(s[1..], p)
  }

  /** `FirstWhere` finds nothing exactly when nothing qualifies, and otherwise the first that does. */
  lemma {:induction false} FirstWhereSpec(s: seq<HealthRecord>, p: HealthRecord -> bool)
    ensures FirstWhere(s, p).None? <==> forall i :: 0 <= i < |s| ==> !p(s[i])
    ensures FirstWhere(s, p).Some? ==>
              exists k :: 0 <= k < |s| && s[k] == FirstWhere(s, p).value && forall i :: 0 <= i < k ==> !p(s[i])
  {
    if s != [] && !p(s[0]) {
      FirstWhereSpec(s[1..], p);
      if FirstWhere(s, p).Some? {
        var k :| 0 <= k < |s[1..]| && s[1..][k] == FirstWhere(s, p).value && forall i :: 0 <= i < k ==> !p(s[1..][i]);
        assert s[k + 1] == FirstWhere(s, p).value;
        forall i | 0 <= i < k + 1 ensures !p(s[i]) {
          if i > 0 { assert s[i] == s[1..][i - 1]; }
        }
      } else {
        forall i | 0 <= i < |s| ensures !p(s[i]) {
          if i > 0 { assert s[i] == s[1..][i - 1]; }
        }
      }
    } else if s != [] {
      assert s[0] == FirstWhere(s, p).value;
    }
  }

  lemma {:induction false} FirstWhereAppend(s: seq<HealthRecord>, x: HealthRecord, p: HealthRecord -> bool)
    ensures FirstWhere(s + [x], p) == if FirstWhere(s, p).Some? then FirstWhere(s, p) else if p(x) then Some(x) else None
  {
    if s != [] {
      assert (s + [x])[1..] == s[1..] + [x];
      FirstWhereAppend(s[1..], x, p);
    } else {
      assert [x][1..] == [];
    }
  }

  datatype BloodPressureReading = BloodPressureReading(systolic: int, diastolic: Option<int>, recordedAt: int)
  datatype Reading<T> = Reading(value: T, recordedAt: int)

  /** The dictionary `get_latest_vital_signs` returns; a missing key is `None`. */
  datatype LatestVitals = LatestVitals(
    bloodPressure: Option<BloodPressureReading>,
    heartRate: Option<Reading<int>>,
    temperature: Option<Reading<real>>,
    weight: Option<Reading<real>>,
    bloodSugar: Option<Reading<real>>)

  const NoVitals := LatestVitals(None, None, None, None, None)

  function BloodPressureOf(r: Option<HealthRecord>): Option<BloodPressureReading>
    requires r.Some? ==> r.value.systolic.Some?
  {
    if r.None? then None else Some(BloodPressureReading(r.value.systolic.value, r.value.diastolic, r.value.recordedAt))
  }

  function IntReadingOf(r: Option<HealthRecord>, v: Option<int>): Option<Reading<int>>
    requires r.Some? ==> v.Some?
  {
    if r.None? then None else Some(Reading(v.value, r.value.recordedAt))
  }

  function RealReadingOf(r: Option<HealthRecord>, v: Option<real>): Option<Reading<real>>
    requires r.Some? ==> v.Some?
  {
    if r.None? then None else Some(Reading(v.value, r.value.recordedAt))
  }

  /** Each vital taken from the first record of `recent` that has it. */
  function LatestFrom(recent: seq<HealthRecord>): LatestVitals {
    var bp := FirstWhere(recent, HasSystolic);
    var hr := FirstWhere(recent, HasHeartRate);
    var t := FirstWhere(recent, HasTemperature);
    var w := FirstWhere(recent, HasWeight);
    var bs := FirstWhere(recent, HasBloodSugar);
    LatestVitals(
      BloodPressureOf(bp),
      IntReadingOf(hr, if hr.Some? then hr.value.heartRate else None),
      RealReadingOf(t, if t.Some? then t.value.temperature else None),
      RealReadingOf(w, if w.Some? then w.value.weight else None),
      RealReadingOf(bs, if bs.Some? then bs.value.bloodSugar else None))
  }

  /** What one more, older record adds: the vitals it has that are still missing. */
  function Absorb(v: LatestVitals, r: HealthRecord): LatestVitals {
    v.(bloodPressure := if HasSystolic(r) && v.bloodPressure.None?
                        then Some(BloodPressureReading(r.systolic.value, r.diastolic, r.recordedAt)) else v.bloodPressure,
       heartRate := if HasHeartRate(r) && v.heartRate.None? then Some(Reading(r.heartRate.value, r.recordedAt)) else v.heartRate,
       temperature := if HasTemperature(r) && v.temperature.None? then Some(Reading(r.temperature.value, r.recordedAt)) else v.temperature,
       weight := if HasWeight(r) && v.weight.None? then Some(Reading(r.weight.value, r.recordedAt)) else v.weight,
       bloodSugar := if HasBloodSugar(r) && v.bloodSugar.None? then Some(Reading(r.bloodSugar.value, r.recordedAt)) else v.bloodSugar)
  }

  lemma LatestFromAppend(recent: seq<HealthRecord>, r: HealthRecord)
    ensures LatestFrom(recent + [r]) == Absorb(LatestFrom(recent), r)
  {
    FirstWhereAppend(recent, r, HasSystolic);
    FirstWhereAppend(recent, r, HasHeartRate);
    FirstWhereAppend(recent, r, HasTemperature);
    FirstWhereAppend(recent, r, HasWeight);
    FirstWhereAppend(recent, r, HasBloodSugar);
  }

  /** Position `k` holds the first (newest) record of `recent` that passes `p`. */
  predicate IsFirstWith(recent: seq<HealthRecord>, k: int, p: HealthRecord -> bool) {
    0 <= k < |recent| && p(recent[k]) && forall i :: 0 <= i < k ==> !p(recent[i])
  }

  /** The position of the record `FirstWhere` finds, when it finds one. */
  lemma FirstWhereAt(recent: seq<HealthRecord>, p: HealthRecord -> bool) returns (k: int)
    ensures FirstWhere(recent, p).None? <==> forall i :: 0 <= i < |recent| ==> !p(recent[i])
    ensures FirstWhere(recent, p).Some? ==> IsFirstWith(recent, k, p) && recent[k] == FirstWhere(recent, p).value
  {
    FirstWhereSpec(recent, p);
    k := -1;
    if FirstWhere(recent, p).Some? {
      k :| 0 <= k < |recent| && recent[k] == FirstWhere(recent, p).value && forall i :: 0 <= i < k ==> !p(recent[i]);
    }
  }

  /**
   * Each of the five vitals is reported exactly when one of the recent
   * records has it, and then with the values and time of the first (newest)
   * such record.
   */
  lemma LatestFromSpec(recent: seq<HealthRecord>)
    ensures var v := LatestFrom(recent);
            (v.bloodPressure.Some? <==> exists i :: 0 <= i < |recent| && HasSystolic(recent[i])) &&
            (v.heartRate.Some? <==> exists i :: 0 <= i < |recent| && HasHeartRate(recent[i])) &&
            (v.temperature.Some? <==> exists i :: 0 <= i < |recent| && HasTemperature(recent[i])) &&
            (v.weight.Some? <==> exists i :: 0 <= i < |recent| && HasWeight(recent[i])) &&
            (v.bloodSugar.Some? <==> exists i :: 0 <= i < |recent| && HasBloodSugar(recent[i]))
    ensures var v := LatestFrom(recent);
            v.bloodPressure.Some? ==>
              exists k :: IsFirstWith(recent, k, HasSystolic) &&
                          v.bloodPressure.value ==
                            BloodPressureReading(recent[k].systolic.value, recent[k].diastolic, recent[k].recordedAt)
    ensures var v := LatestFrom(recent);
            v.heartRate.Some? ==>
              exists k :: IsFirstWith(recent, k, HasHeartRate) &&
                          v.heartRate.value == Reading(recent[k].heartRate.value, recent[k].recordedAt)
    ensures var v := LatestFrom(recent);
            v.temperature.Some? ==>
              exists k :: IsFirstWith(recent, k, HasTemperature) &&
                          v.temperature.value == Reading(recent[k].temperature.value, recent[k].recordedAt)
    ensures var v := LatestFrom(recent);
            v.weight.Some? ==>
              exists k :: IsFirstWith(recent, k, HasWeight) &&
                          v.weight.value == Reading(recent[k].weight.value, recent[k].recordedAt)
    ensures var v := LatestFrom(recent);
            v.bloodSugar.Some? ==>
              exists k :: IsFirstWith(recent, k, HasBloodSugar) &&
                          v.bloodSugar.value == Reading(recent[k].bloodSugar.value, recent[k].recordedAt)
  {
    var v := LatestFrom(recent);
    var kp := FirstWhereAt(recent, HasSystolic);
    var kh := FirstWhereAt(recent, HasHeartRate);
    var kt := FirstWhereAt(recent, HasTemperature);
    var kw := FirstWhereAt(recent, HasWeight);
    var ks := FirstWhereAt(recent, HasBloodSugar);
    if v.bloodPressure.Some? { assert IsFirstWith(recent, kp, HasSystolic); }
    if v.heartRate.Some? { assert IsFirstWith(recent, kh, HasHeartRate); }
    if v.temperature.Some? { assert IsFirstWith(recent, kt, HasTemperature); }
    if v.weight.Some? { assert IsFirstWith(recent, kw, HasWeight); }
    if v.bloodSugar.Some? { assert IsFirstWith(recent, ks, HasBloodSugar); }
  }

  // ---------------------------------------------------------------- alerts

  datatype VitalKind = BloodPressure | HeartRate | Temperature | BloodSugar
  datatype Severity = Moderate | High | Urgent
  /** One alert: the vital, how serious, the value that triggered it and when it was recorded. */
  datatype Alert = Alert(kind: VitalKind, severity: Severity, value: VitalValue, recordedAt: int)

  /** The blood-pressure severity: urgent from 180/110, high from 140/90; a missing diastolic exceeds nothing. */
  function BloodPressureSeverity(systolic: int, diastolic: Option<int>): Option<Severity> {
    if systolic >= 180 || (diastolic.Some? && diastolic.value >= 110) then Some(Urgent)
    else if systolic >= 140 || (diastolic.Some? && diastolic.value >= 90) then Some(High)
    else None
  }

  /** Outside 60 to 100 beats per minute the heart rate is a moderate concern. */
  function HeartRateSeverity(heartRate: int): Option<Severity> {
    if heartRate > 100 then Some(Moderate) else if heartRate < 60 then Some(Moderate) else None
  }

  function TemperatureSeverity(temperature: real): Option<Severity> {
    if temperature >= 38.5 then Some(High) else if temperature >= 37.5 then Some(Moderate) else None
  }

  function BloodSugarSeverity(bloodSugar: real): Option<Severity> {
    if bloodSugar > 250.0 then Some(Urgent) else if bloodSugar < 70.0 then Some(Urgent) else None
  }

  /** The thresholds of each vital, both ways. */
  lemma SeveritySpec(systolic: int, diastolic: int, heartRate: int, temperature: real, bloodSugar: real)
    ensures BloodPressureSeverity(systolic, Some(diastolic)) == Some(Urgent) <==> systolic >= 180 || diastolic >= 110
    ensures BloodPressureSeverity(systolic, Some(diastolic)) == Some(High) <==>
              systolic < 180 && diastolic < 110 && (systolic >= 140 || diastolic >= 90)
    ensures BloodPressureSeverity(systolic, Some(diastolic)).None? <==> systolic < 140 && diastolic < 90
    ensures HeartRateSeverity(heartRate).None? <==> 60 <= heartRate <= 100
    ensures HeartRateSeverity(heartRate).Some? ==> HeartRateSeverity(heartRate) == Some(Moderate)
    ensures TemperatureSeverity(temperature) == Some(High) <==> temperature >= 38.5
    ensures TemperatureSeverity(temperature) == Some(Moderate) <==> 37.5 <= temperature < 38.5
    ensures BloodSugarSeverity(bloodSugar).Some? <==> bloodSugar > 250.0 || bloodSugar < 70.0
    ensures BloodSugarSeverity(bloodSugar).Some? ==> BloodSugarSeverity(bloodSugar) == Some(Urgent)
  {
  }

  /** A missing diastolic leaves the blood-pressure severity to the systolic value alone. */
  lemma MissingDiastolicBySystolic(systolic: int)
    ensures BloodPressureSeverity(systolic, None) ==
            if systolic >= 180 then Some(Urgent) else if systolic >= 140 then Some(High) else None
  {
  }

  /** One alert of the vital's kind and the judged severity, or none when the value is in range. */
  function AlertFor(kind: VitalKind, severity: Option<Severity>, value: VitalValue, recordedAt: int): (r: seq<Alert>)
    ensures |r| <= 1 && (r == [] <==> severity.None?)
    ensures forall a :: a in r ==>
              a.kind == kind && Some(a.severity) == severity && a.value == value && a.recordedAt == recordedAt
  {
    if severity.Some? then [Alert(kind, severity.value, value, recordedAt)] else []
  }

  function BloodPressureAlerts(v: LatestVitals): seq<Alert> {
    if v.bloodPressure.Some?
    then AlertFor(BloodPressure, BloodPressureSeverity(v.bloodPressure.value.systolic, v.bloodPressure.value.diastolic),
                  BloodPressureValue(v.bloodPressure.value.systolic, v.bloodPressure.value.diastolic),
                  v.bloodPressure.value.recordedAt)
    else []
  }

  function HeartRateAlerts(v: LatestVitals): seq<Alert> {
    if v.heartRate.Some? then AlertFor(HeartRate, HeartRateSeverity(v.heartRate.value.value), HeartRateValue(v.heartRate.value.value),
                                       v.heartRate.value.recordedAt) else []
  }

  function TemperatureAlerts(v: LatestVitals): seq<Alert> {
    if v.temperature.Some? then AlertFor(Temperature, TemperatureSeverity(v.temperature.value.value),
                                         TemperatureValue(v.temperature.value.value), v.temperature.value.recordedAt) else []
  }

  function BloodSugarAlerts(v: LatestVitals): seq<Alert> {
    if v.bloodSugar.Some? then AlertFor(BloodSugar, BloodSugarSeverity(v.bloodSugar.value.value),
                                        BloodSugarValue(v.bloodSugar.value.value), v.bloodSugar.value.recordedAt) else []
  }

  /** The alerts for the latest vitals, one vital after the other. */
  function CheckAlerts(v: LatestVitals): (alerts: seq<Alert>)
    ensures |alerts| <= 4
  {
    BloodPressureAlerts(v) + HeartRateAlerts(v) + TemperatureAlerts(v) + BloodSugarAlerts(v)
  }

  /** How many of `alerts` are about `kind`. */
  function AlertsAbout(alerts: seq<Alert>, kind: VitalKind): nat {
    if alerts == [] then 0 else (if alerts[0].kind == kind then 1 else 0) + AlertsAbout(alerts[1..], kind)
  }

  lemma {:induction false} AlertsAboutAppend(a: seq<Alert>, b: seq<Alert>, kind: VitalKind)
    ensures AlertsAbout(a + b, kind) == AlertsAbout(a, kind) + AlertsAbout(b, kind)
  {
    if a != [] {
      assert (a + b)[1..] == a[1..] + b;
      assert (a + b)[0] == a[0];
      AlertsAboutAppend(a[1..], b, kind);
    } else {
      assert a + b == b;
    }
  }

  lemma AlertsAboutParts(v: LatestVitals, kind: VitalKind)
    ensures AlertsAbout(CheckAlerts(v), kind) ==
            AlertsAbout(BloodPressureAlerts(v), kind) + AlertsAbout(HeartRateAlerts(v), kind) +
            AlertsAbout(TemperatureAlerts(v), kind) + AlertsAbout(BloodSugarAlerts(v), kind)
  {
    var bp, hr, t, bs := BloodPressureAlerts(v), HeartRateAlerts(v), TemperatureAlerts(v), BloodSugarAlerts(v);
    AlertsAboutAppend(bp, hr, kind);
    AlertsAboutAppend(bp + hr, t, kind);
    AlertsAboutAppend(bp + hr + t, bs, kind);
  }

  /**
   * The alerts come in the order blood pressure, heart rate, temperature,
   * blood sugar, so there is at most one per vital.
   */
  lemma CheckAlertsDistinct(v: LatestVitals)
    ensures var a := CheckAlerts(v);
            forall i, j :: 0 <= i < j < |a| ==> a[i].kind != a[j].kind
  {
    AlertsOrdered(v);
    var a := CheckAlerts(v);
    forall i, j | 0 <= i < j < |a| ensures a[i].kind != a[j].kind {
      assert KindRank(a[i].kind) < KindRank(a[j].kind);
    }
  }

  /** Blood pressure and heart rate have an alert exactly when reported with a severity that calls for one. */
  lemma CheckAlertsPressureAndPulse(v: LatestVitals)
    ensures AlertsAbout(CheckAlerts(v), BloodPressure) ==
              if v.bloodPressure.Some? &&
                 BloodPressureSeverity(v.bloodPressure.value.systolic, v.bloodPressure.value.diastolic).Some? then 1 else 0
    ensures AlertsAbout(CheckAlerts(v), HeartRate) ==
              if v.heartRate.Some? && HeartRateSeverity(v.heartRate.value.value).Some? then 1 else 0
  {
    AlertsAboutParts(v, BloodPressure);
    AlertsAboutParts(v, HeartRate);
  }

  /** Temperature and blood sugar likewise; weight never raises an alert. */
  lemma CheckAlertsTemperatureAndSugar(v: LatestVitals)
    ensures AlertsAbout(CheckAlerts(v), Temperature) ==
              if v.temperature.Some? && TemperatureSeverity(v.temperature.value.value).Some? then 1 else 0
    ensures AlertsAbout(CheckAlerts(v), BloodSugar) ==
              if v.bloodSugar.Some? && BloodSugarSeverity(v.bloodSugar.value.value).Some? then 1 else 0
    ensures CheckAlerts(v) == CheckAlerts(v.(weight := None))
  {
    AlertsAboutParts(v, Temperature);
    AlertsAboutParts(v, BloodSugar);
  }

  /** Every alert carries the value and the recording time of the reported vital it is about. */
  lemma CheckAlertsCarryValues(v: LatestVitals)
    ensures forall a :: a in CheckAlerts(v) && a.kind == BloodPressure ==>
              v.bloodPressure.Some? && a.recordedAt == v.bloodPressure.value.recordedAt &&
              a.value == BloodPressureValue(v.bloodPressure.value.systolic, v.bloodPressure.value.diastolic)
    ensures forall a :: a in CheckAlerts(v) && a.kind == HeartRate ==>
              v.heartRate.Some? && a.recordedAt == v.heartRate.value.recordedAt &&
              a.value == HeartRateValue(v.heartRate.value.value)
    ensures forall a :: a in CheckAlerts(v) && a.kind == Temperature ==>
              v.temperature.Some? && a.recordedAt == v.temperature.value.recordedAt &&
              a.value == TemperatureValue(v.temperature.value.value)
    ensures forall a :: a in CheckAlerts(v) && a.kind == BloodSugar ==>
              v.bloodSugar.Some? && a.recordedAt == v.bloodSugar.value.recordedAt &&
              a.value == BloodSugarValue(v.bloodSugar.value.value)
  {
    var bp, hr, t, bs := BloodPressureAlerts(v), HeartRateAlerts(v), TemperatureAlerts(v), BloodSugarAlerts(v);
    assert forall a :: a in CheckAlerts(v) <==> a in bp || a in hr || a in t || a in bs;
  }

  function KindRank(k: VitalKind): nat {
    match k
    case BloodPressure => 0
    case HeartRate => 1
    case Temperature => 2
    case BloodSugar => 3
  }

  lemma AlertsOrdered(v: LatestVitals)
    ensures var a := CheckAlerts(v);
            forall i, j :: 0 <= i < j < |a| ==> KindRank(a[i].kind) < KindRank(a[j].kind)
  {
  }

  // The same check as the source writes it: a missing diastolic below 180
  // systolic raises a `TypeError` in the comparison, the handler returns an
  // empty list, and every other alert is lost with it.

  /** Whether the comparison `diastolic >= 110` is reached with no diastolic. */
  predicate DiastolicComparisonFails(v: LatestVitals) {
    v.bloodPressure.Some? && v.bloodPressure.value.systolic < 180 && v.bloodPressure.value.diastolic.None?
  }

  function CheckAlertsAsWritten(v: LatestVitals): (alerts: seq<Alert>)
    ensures !DiastolicComparisonFails(v) ==> alerts == CheckAlerts(v)
  {
    if DiastolicComparisonFails(v) then [] else CheckAlerts(v)
  }

  /**
   * A newest blood-pressure record of 150 with no diastolic, next to a heart
   * rate of 130: the corrected check reports both, the alert check as written
   * reports nothing.
   */
  lemma MissingDiastolicLosesAlerts()
    ensures var v := NoVitals.(bloodPressure := Some(BloodPressureReading(150, None, 0)), heartRate := Some(Reading(130, 0)));
            CheckAlertsAsWritten(v) == [] &&
            CheckAlerts(v) == [Alert(BloodPressure, High, BloodPressureValue(150, None), 0),
                               Alert(HeartRate, Moderate, HeartRateValue(130), 0)]
  {
  }

  // ---------------------------------------------------------------- history and trends

  /** The value a history point carries. */
  datatype VitalValue =
    | BloodPressureValue(systolic: int, diastolic: Option<int>)
    | HeartRateValue(heartRate: int)
    | TemperatureValue(temperature: real)
    | WeightValue(weight: real)
    | BloodSugarValue(bloodSugar: real)

  datatype HistoryPoint = HistoryPoint(recordedAt: int, recordedBy: string, value: VitalValue)

  /** Whether `get_vital_signs_history` keeps record `r` for `vitalType`. */
  predicate Carries(vitalType: string, r: HealthRecord) {
    (vitalType == "blood_pressure" && HasSystolic(r)) ||
    (vitalType == "heart_rate" && HasHeartRate(r)) ||
    (vitalType == "temperature" && HasTemperature(r)) ||
    (vitalType == "weight" && HasWeight(r)) ||
    (vitalType == "blood_sugar" && HasBloodSugar(r))
  }

  function PointOf(vitalType: string, r: HealthRecord): HistoryPoint
    requires Carries(vitalType, r)
  {
    var value :=
      if vitalType == "blood_pressure" then BloodPressureValue(r.systolic.value, r.diastolic)
      else if vitalType == "heart_rate" then HeartRateValue(r.heartRate.value)
      else if vitalType == "temperature" then TemperatureValue(r.temperature.value)
      else if vitalType == "weight" then WeightValue(r.weight.value)
      else BloodSugarValue(r.bloodSugar.value);
    HistoryPoint(r.recordedAt, r.recordedBy, value)
  }

  /** The points of `rs` for `vitalType`, in order. */
  function History(vitalType: string, rs: seq<HealthRecord>): seq<HistoryPoint> {
    if rs == [] then []
    else
      var init := History(vitalType, rs[..|rs| - 1]);
      var r := rs[|rs| - 1];
      if Carries(vitalType, r) then init + [PointOf(vitalType, r)] else init
  }

  function CarriesType(vitalType: string): HealthRecord -> bool {
    (r: HealthRecord) => Carries(vitalType, r)
  }

  /** The history holds one point per record carrying the vital type. */
  lemma {:induction false} HistoryLength(vitalType: string, rs: seq<HealthRecord>)
    ensures |History(vitalType, rs)| == Count(rs, CarriesType(vitalType))
  {
    if rs != [] {
      var init, r := rs[..|rs| - 1], rs[|rs| - 1];
      HistoryLength(vitalType, init);
      assert rs == init + [r];
      CountAppend(init, [r], CarriesType(vitalType));
    }
  }

  /**
   * A vital type the service does not know has no history; the points of a
   * blood-pressure or weight history are all of that type.
   */
  lemma {:induction false} HistoryKinds(vitalType: string, rs: seq<HealthRecord>)
    ensures vitalType !in ["blood_pressure", "heart_rate", "temperature", "weight", "blood_sugar"] ==>
              History(vitalType, rs) == []
    ensures vitalType == "blood_pressure" ==>
              forall i :: 0 <= i < |History(vitalType, rs)| ==> History(vitalType, rs)[i].value.BloodPressureValue?
    ensures vitalType == "weight" ==>
              forall i :: 0 <= i < |History(vitalType, rs)| ==> History(vitalType, rs)[i].value.WeightValue?
  {
    if rs != [] {
      HistoryKinds(vitalType, rs[..|rs| - 1]);
    }
  }

  /** The window `get_vital_signs_history` looks back over, in microseconds. */
  function Window(daysBack: int): int {
    Days(daysBack)
  }

  function Since(userId: string, start: int): HealthRecord -> bool {
    (r: HealthRecord) => r.userId == userId && r.recordedAt >= start
  }

  /** Analysis outcome of `get_health_trends`. */
  datatype Direction = Increasing | Decreasing | Steady

  datatype Trend =
    | NoData
    | InsufficientData
    | Analysed(direction: Direction, message: string, recentAverage: real, olderAverage: real, dataPoints: nat)
    | Unanalysed

  function Average3(xs: seq<real>): real
    requires |xs| >= 3
  {
    (xs[0] + xs[1] + xs[2]) / 3.0
  }

  /** Compares the average of the last three values with that of the first three, with a tolerance. */
  function DirectionOf(values: seq<real>, tolerance: real): Direction
    requires |values| >= 3
  {
    var recent := Average3(values[|values| - 3..]);
    var older := Average3(values[..3]);
    if recent > older + tolerance then Increasing
    else if recent < older - tolerance then Decreasing
    else Steady
  }

  /** The direction is invariant under shifting every value by the same amount. */
  lemma DirectionShift(values: seq<real>, tolerance: real, c: real)
    requires |values| >= 3
    ensures var shifted := seq(|values|, i requires 0 <= i < |values| => values[i] + c);
            DirectionOf(shifted, tolerance) == DirectionOf(values, tolerance)
  {
    var shifted := seq(|values|, i requires 0 <= i < |values| => values[i] + c);
    assert Average3(shifted[|values| - 3..]) == Average3(values[|values| - 3..]) + c;
    assert Average3(shifted[..3]) == Average3(values[..3]) + c;
  }

  function SystolicValues(history: seq<HistoryPoint>): seq<real> {
    if history == [] then []
    else
      var init := SystolicValues(history[..|history| - 1]);
      var p := history[|history| - 1];
      if p.value.BloodPressureValue? then init + [p.value.systolic as real] else init
  }

  function WeightValues(history: seq<HistoryPoint>): seq<real> {
    if history == [] then []
    else
      var init := WeightValues(history[..|history| - 1]);
      var p := history[|history| - 1];
      if p.value.WeightValue? then init + [p.value.weight] else init
  }

  function TrendMessage(vitalType: string, d: Direction): string {
    if vitalType == "blood_pressure" then
      match d
      case Increasing => "Huyết áp có xu hướng tăng"
      case Decreasing => "Huyết áp có xu hướng giảm"
      case Steady => "Huyết áp ổn định"
    else
      match d
      case Increasing => "Cân nặng có xu hướng tăng"
      case Decreasing => "Cân nặng có xu hướng giảm"
      case Steady => "Cân nặng ổn định"
  }

  function Analyse(vitalType: string, values: seq<real>, tolerance: real): Trend
    requires |values| >= 3
  {
    var d := DirectionOf(values, tolerance);
    Analysed(d, TrendMessage(vitalType, d), Average3(values[|values| - 3..]), Average3(values[..3]), |values|)
  }

  /** `get_health_trends` on a history. */
  function HealthTrend(vitalType: string, history: seq<HistoryPoint>): Trend {
    if history == [] then NoData
    else if |history| < 3 then InsufficientData
    else if vitalType == "blood_pressure" && |SystolicValues(history)| >= 3 then
      Analyse(vitalType, SystolicValues(history), 10.0)
    else if vitalType == "weight" && |WeightValues(history)| >= 3 then
      Analyse(vitalType, WeightValues(history), 2.0)
    else Unanalysed
  }

  /**
   * No data for an empty history, too little for fewer than three points;
   * blood pressure compares the systolic averages with a tolerance of 10,
   * weight with 2; any other vital is not analysed.
   */
  lemma HealthTrendSpec(vitalType: string, history: seq<HistoryPoint>)
    ensures HealthTrend(vitalType, history) == NoData <==> history == []
    ensures HealthTrend(vitalType, history) == InsufficientData <==> 1 <= |history| < 3
    ensures HealthTrend(vitalType, history).Analysed? ==>
              |history| >= 3 && (vitalType == "blood_pressure" || vitalType == "weight")
    ensures HealthTrend(vitalType, history).Analysed? <==>
              |history| >= 3 &&
              ((vitalType == "blood_pressure" && |SystolicValues(history)| >= 3) ||
               (vitalType == "weight" && |WeightValues(history)| >= 3))
    ensures var t := HealthTrend(vitalType, history);
            var values := if vitalType == "blood_pressure" then SystolicValues(history) else WeightValues(history);
            t.Analysed? ==>
              |values| >= 3 && t.dataPoints == |values| &&
              t.recentAverage == Average3(values[|values| - 3..]) && t.olderAverage == Average3(values[..3]) &&
              t.message == TrendMessage(vitalType, t.direction)
    ensures var t := HealthTrend(vitalType, history);
            t.Analysed? ==>
              (t.direction == Increasing <==> t.recentAverage > t.olderAverage + (if vitalType == "weight" then 2.0 else 10.0)) &&
              (t.direction == Decreasing <==> t.recentAverage < t.olderAverage - (if vitalType == "weight" then 2.0 else 10.0))
  {
  }

  /**
   * A blood-pressure or weight history of at least three points is always
   * analysed, over all of its points.
   */
  lemma AnalysableHistoryAnalysed(vitalType: string, rs: seq<HealthRecord>)
    requires vitalType == "blood_pressure" || vitalType == "weight"
    requires |History(vitalType, rs)| >= 3
    ensures HealthTrend(vitalType, History(vitalType, rs)).Analysed?
    ensures HealthTrend(vitalType, History(vitalType, rs)).dataPoints == |History(vitalType, rs)|
  {
    HistoryKinds(vitalType, rs);
    if vitalType == "blood_pressure" {
      SystolicValuesOfPressureHistory(History(vitalType, rs));
    } else {
      WeightValuesOfWeightHistory(History(vitalType, rs));
    }
  }

  /** Every blood-pressure point gives a systolic value. */
  lemma {:induction false} SystolicValuesOfPressureHistory(history: seq<HistoryPoint>)
    requires forall i :: 0 <= i < |history| ==> history[i].value.BloodPressureValue?
    ensures |SystolicValues(history)| == |history|
  {
    if history != [] {
      SystolicValuesOfPressureHistory(history[..|history| - 1]);
    }
  }

  /** Every weight point gives a weight value. */
  lemma {:induction false} WeightValuesOfWeightHistory(history: seq<HistoryPoint>)
    requires forall i :: 0 <= i < |history| ==> history[i].value.WeightValue?
    ensures |WeightValues(history)| == |history|
  {
    if history != [] {
      WeightValuesOfWeightHistory(history[..|history| - 1]);
    }
  }

  /** The loop of `get_latest_vital_signs` over the recent records, newest first. */
  method ScanLatest(recentRecords: seq<HealthRecord>) returns (latest: LatestVitals)
    ensures latest == LatestFrom(recentRecords)
  {
    latest := NoVitals;
    for i := 0 to |recentRecords|
      invariant latest == LatestFrom(recentRecords[..i])
    {
      latest := TakeMissing(latest, recentRecords[i]);
      LatestFromAppend(recentRecords[..i], recentRecords[i]);
      assert recentRecords[..i + 1] == recentRecords[..i] + [recentRecords[i]];
    }
    assert recentRecords[..|recentRecords|] == recentRecords;
  }

  /** The body of that loop: each vital the record has and that is still missing is taken from it. */
  method TakeMissing(latest: LatestVitals, record: HealthRecord) returns (next: LatestVitals)
    ensures next == Absorb(latest, record)
  {
    next := latest;
    if HasSystolic(record) && next.bloodPressure.None? {
      next := next.(bloodPressure := Some(BloodPressureReading(record.systolic.value, record.diastolic, record.recordedAt)));
    }
    if HasHeartRate(record) && next.heartRate.None? {
      next := next.(heartRate := Some(Reading(record.heartRate.value, record.recordedAt)));
    }
    if HasTemperature(record) && next.temperature.None? {
      next := next.(temperature := Some(Reading(record.temperature.value, record.recordedAt)));
    }
    if HasWeight(record) && next.weight.None? {
      next := next.(weight := Some(Reading(record.weight.value, record.recordedAt)));
    }
    if HasBloodSugar(record) && next.bloodSugar.None? {
      next := next.(bloodSugar := Some(Reading(record.bloodSugar.value, record.recordedAt)));
    }
  }

  class HealthService {
    var records: seq<HealthRecord>

    constructor (records: seq<HealthRecord>)
      ensures this.records == records
    {
      this.records := records;
    }

    /**
     * `get_latest_vital_signs`: over the user's ten newest records, newest
     * first, each vital is taken from the first record that has it.
     */
    method GetLatestVitalSigns(userId: string) returns (latest: LatestVitals)
      ensures latest == LatestFrom(RecentOf(records, userId))
    {
      var recentRecords := RecentOf(records, userId);
      latest := ScanLatest(recentRecords);
      assert records == old(records);
    }

    /** `check_vital_signs_alerts`, with a missing diastolic no longer discarding the other alerts. */
    method CheckVitalSignsAlerts(userId: string) returns (alerts: seq<Alert>)
      ensures alerts == CheckAlerts(LatestFrom(RecentOf(records, userId)))
      ensures |alerts| <= 4
    {
      var latest := GetLatestVitalSigns(userId);
      alerts := CheckAlerts(latest);
    }

    /**
     * `get_vital_signs_history`: the user's records of the last `daysBack`
     * days, oldest first, that carry the vital.
     */
    method GetVitalSignsHistory(userId: string, vitalType: string, daysBack: int, now: int) returns (history: seq<HistoryPoint>)
      ensures history == History(vitalType, SortBy(Filter(records, Since(userId, now - Window(daysBack))), OldestFirst))
    {
      var rs := SortBy(Filter(records, Since(userId, now - Window(daysBack))), OldestFirst);
      history := [];
      for i := 0 to |rs|
        invariant history == History(vitalType, rs[..i])
      {
        var record := rs[i];
        assert rs[..i + 1][..i] == rs[..i];
        if Carries(vitalType, record) {
          history := history + [PointOf(vitalType, record)];
        }
      }
      assert rs[..|rs|] == rs;
    }

    /** `get_health_trends`: the trend of the vital's history. */
    method GetHealthTrends(userId: string, vitalType: string, daysBack: int, now: int) returns (trend: Trend)
      ensures trend == HealthTrend(vitalType, History(vitalType, SortBy(Filter(records, Since(userId, now - Window(daysBack))), OldestFirst)))
    {
      var history := GetVitalSignsHistory(userId, vitalType, daysBack, now);
      trend := HealthTrend(vitalType, history);
    }
  }
}
