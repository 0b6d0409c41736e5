/**
 * The family member's "send a notification" screen: drop-down entries are
 * shown as `"<label> (<value>)"` and the value is read back out of the
 * shown text; the chips show a label per type and priority; sending is
 * refused without a selected elderly user or with blank text.
 */
module NotificationForm {
  import opened Common

  /** The position of the last `c` in `s`, or -1. */
  function LastIndexOf(s: string, c: char): (i: int)
    ensures -1 <= i < |s|
    ensures i >= 0 ==> s[i] == c
    ensures forall j :: i < j < |s| ==> s[j] != c
  {
    if s == [] then -1
    else if s[|s| - 1] == c then |s| - 1
    else LastIndexOf(s[..|s| - 1], c)
  }

  /** The position of the first `c` in `s`, or -1. */
  function IndexOf(s: string, c: char): (i: int)
    ensures -1 <= i < |s|
    ensures i >= 0 ==> s[i] == c
    ensures forall j :: 0 <= j < |s| && (i == -1 || j < i) ==> s[j] != c
  {
    if s == [] then -1
    else if s[0] == c then 0
    else var k := IndexOf(s[1..], c); if k == -1 then -1 else k + 1
  }

  /** Kotlin `substringAfterLast(c)`: the text after the last `c`, or all of `s` without one. */
  function SubstringAfterLast(s: string, c: char): (r: string)
    ensures c !in r
  {
    var i := LastIndexOf(s, c);
    if i == -1 then s else s[i + 1..]
  }

  /** Kotlin `substringBefore(c)`: the text before the first `c`, or all of `s` without one. */
  function SubstringBefore(s: string, c: char): (r: string)
    ensures c !in r
    ensures StartsWith(s, r)
  {
    var i := IndexOf(s, c);
    if i == -1 then s else s[..i]
  }

  /** `extractValueFromSpinner`: the text between the last `(` and the next `)`. */
  function ExtractValueFromSpinner(spinnerText: string): (v: string)
    ensures '(' !in v && ')' !in v
  {
    SubstringBefore(SubstringAfterLast(spinnerText, '('), ')')
  }

  /** How every drop-down entry is shown. */
  function Display(caption: string, value: string): string {
    caption + " (" + value + ")"
  }

  /** Reading back a shown entry gives its value, whatever its label, as long as the value holds no parentheses. */
  lemma ExtractDisplay(caption: string, value: string)
    requires '(' !in value && ')' !in value
    ensures ExtractValueFromSpinner(Display(caption, value)) == value
  {
    var s := Display(caption, value);
    var open := |caption| + 1;
    assert s[open] == '(';
    assert forall j :: open < j < |s| ==> s[j] == s[open + 1..][j - open - 1];
    assert s[open + 1..] == value + ")";
    assert LastIndexOf(s, '(') == open;
    var t := value + ")";
    assert t[|value|] == ')';
    assert IndexOf(t, ')') == |value|;
    assert t[..|value|] == value;
  }

  /** Text without parentheses is its own value. */
  lemma ExtractWithoutParentheses(s: string)
    requires '(' !in s && ')' !in s
    ensures ExtractValueFromSpinner(s) == s
  {
  }

  /** The notification types offered, as (value, label) pairs. */
  const NotificationTypes: seq<(string, string)> := [
    ("medicine", "Nhắc nhở thuốc"), ("appointment", "Lịch khám"), ("exercise", "Tập thể dục"),
    ("water", "Uống nước"), ("meal", "Bữa ăn"), ("health_check", "Kiểm tra sức khỏe"),
    ("emergency", "Khẩn cấp"), ("custom", "Tùy chỉnh")]

  /** The priority levels offered, as (value, label) pairs. */
  const PriorityLevels: seq<(string, string)> := [
    ("low", "Thấp"), ("normal", "Bình thường"), ("high", "Cao"), ("urgent", "Khẩn cấp")]

  const DefaultTypeText := "Nhắc nhở thuốc (medicine)"
  const DefaultPriorityText := "Bình thường (normal)"

  /**
   * Every offered entry reads back as its own value.
   */
  lemma {:induction false} OfferedEntriesRoundTrip()
    ensures forall k :: 0 <= k < |NotificationTypes| ==>
              ExtractValueFromSpinner(Display(NotificationTypes[k].1, NotificationTypes[k].0)) == NotificationTypes[k].0
    ensures forall k :: 0 <= k < |PriorityLevels| ==>
              ExtractValueFromSpinner(Display(PriorityLevels[k].1, PriorityLevels[k].0)) == PriorityLevels[k].0
  {
    forall k | 0 <= k < |NotificationTypes|
      ensures ExtractValueFromSpinner(Display(NotificationTypes[k].1, NotificationTypes[k].0)) == NotificationTypes[k].0
    {
      ExtractDisplay(NotificationTypes[k].1, NotificationTypes[k].0);
    }
    forall k | 0 <= k < |PriorityLevels|
      ensures ExtractValueFromSpinner(Display(PriorityLevels[k].1, PriorityLevels[k].0)) == PriorityLevels[k].0
    {
      ExtractDisplay(PriorityLevels[k].1, PriorityLevels[k].0);
    }
  }

  /** The initial type selection is the shown form of the first type. */
  lemma DefaultTypeShown()
    ensures DefaultTypeText == Display(NotificationTypes[0].1, NotificationTypes[0].0)
  {
  }

  /** The initial priority selection is the shown form of the second priority. */
  lemma DefaultPriorityShown()
    ensures DefaultPriorityText == Display(PriorityLevels[1].1, PriorityLevels[1].0)
  {
  }

  /** The initial selections read back as `medicine` and `normal`. */
  lemma DefaultSelections()
    ensures ExtractValueFromSpinner(DefaultTypeText) == "medicine"
    ensures ExtractValueFromSpinner(DefaultPriorityText) == "normal"
  {
    DefaultTypeSelected();
    DefaultPrioritySelected();
  }

  lemma DefaultTypeSelected()
    ensures ExtractValueFromSpinner(DefaultTypeText) == "medicine"
  {
    DefaultTypeShown();
    ExtractDisplay(NotificationTypes[0].1, NotificationTypes[0].0);
  }

  lemma DefaultPrioritySelected()
    ensures ExtractValueFromSpinner(DefaultPriorityText) == "normal"
  {
    DefaultPriorityShown();
    ExtractDisplay(PriorityLevels[1].1, PriorityLevels[1].0);
  }

  /** The values of `pairs`. */
  function Values(pairs: seq<(string, string)>): (r: seq<string>)
    ensures |r| == |pairs| && forall k :: 0 <= k < |pairs| ==> r[k] == pairs[k].0
  {
    seq(|pairs|, k requires 0 <= k < |pairs| => pairs[k].0)
  }

  /** `getNotificationTypeLabel`: the chip label of a type; an unknown type is shown as is. */
  function NotificationTypeLabel(t: string): string
  {
    match t
    case "medicine" => "Thuốc"
    case "appointment" => "Lịch khám"
    case "exercise" => "Tập thể dục"
    case "water" => "Uống nước"
    case "meal" => "Bữa ăn"
    case "health_check" => "Kiểm tra sức khỏe"
    case "emergency" => "Khẩn cấp"
    case "custom" => "Tùy chỉnh"
    case _ => t
  }

  /** `getPriorityLabel`: the chip label of a priority; an unknown priority is shown as is. */
  function PriorityLabel(p: string): string
  {
    match p
    case "low" => "Thấp"
    case "normal" => "Bình thường"
    case "high" => "Cao"
    case "urgent" => "Khẩn cấp"
    case _ => p
  }

  /** Distinct known types get distinct chip labels. */
  lemma TypeChipLabelsDistinct()
    ensures forall i, j :: 0 <= i < j < |NotificationTypes| ==>
              NotificationTypeLabel(NotificationTypes[i].0) != NotificationTypeLabel(NotificationTypes[j].0)
  {
  }

  /** A type that is not offered is shown as is. */
  lemma UnknownTypeShownAsIs(t: string)
    requires t !in Values(NotificationTypes)
    ensures NotificationTypeLabel(t) == t
  {
    assert Values(NotificationTypes) ==
           ["medicine", "appointment", "exercise", "water", "meal", "health_check", "emergency", "custom"];
  }

  /**
   * Distinct known priorities get distinct chip labels, the drop-down labels
   * themselves; an unknown priority is shown as is.
   */
  lemma PriorityChipLabels(a: string, b: string)
    ensures a in Values(PriorityLevels) && b in Values(PriorityLevels) && a != b ==>
              PriorityLabel(a) != PriorityLabel(b)
    ensures a !in Values(PriorityLevels) ==> PriorityLabel(a) == a
    ensures forall k :: 0 <= k < |PriorityLevels| ==> PriorityLabel(PriorityLevels[k].0) == PriorityLevels[k].1
  {
    assert Values(PriorityLevels) == ["low", "normal", "high", "urgent"];
  }

  datatype ElderlyUser = ElderlyUser(id: string, name: string, email: string, relationship: string)

  /** The body of the request `sendNotification` posts. */
  datatype Request = Request(elderlyUserId: string, text: string, notificationType: string, priority: string)

  datatype SendOutcome = NoElderlySelected | EmptyText | Posted(request: Request)

  /**
   * The validation in `sendNotification`: no request without a selected
   * elderly user or with text that is blank after trimming; otherwise the
   * request carries the trimmed text and the values read from the drop-downs.
   */
  function ValidateSend(elderlyId: Option<string>, text: string, typeText: string, priorityText: string): (r: SendOutcome)
    ensures r == NoElderlySelected <==> elderlyId.None?
    ensures r == EmptyText <==> elderlyId.Some? && IsBlank(Kotlin, text)
    ensures r.Posted? ==> r.request.elderlyUserId == elderlyId.value && r.request.text == Strip(Kotlin, text) &&
                          r.request.text != "" && r.request.notificationType == ExtractValueFromSpinner(typeText) &&
                          r.request.priority == ExtractValueFromSpinner(priorityText)
  {
    StripEmptyIffBlank(Kotlin, text);
    var trimmed := Strip(Kotlin, text);
    if elderlyId.None? then NoElderlySelected
    else if trimmed == "" then EmptyText
    else Posted(Request(elderlyId.value, trimmed, ExtractValueFromSpinner(typeText), ExtractValueFromSpinner(priorityText)))
  }

  /** Text made only of no-break spaces trims to nothing, so it is refused like empty text. */
  lemma NoBreakSpaceRefused(elderlyId: string, typeText: string, priorityText: string)
    ensures ValidateSend(Some(elderlyId), "\U{A0}\U{A0}", typeText, priorityText) == EmptyText
  {
    assert IsBlank(Kotlin, "\U{A0}\U{A0}");
  }

  class FamilyNotificationActivity {
    var elderlyList: seq<ElderlyUser>
    var selectedElderlyId: Option<string>
    var selectedElderlyName: Option<string>
    /** Requests handed to the API client, oldest first. */
    var posted: seq<Request>

    constructor ()
      ensures elderlyList == [] && selectedElderlyId == None && selectedElderlyName == None && posted == []
    {
      elderlyList := [];
      selectedElderlyId := None;
      selectedElderlyName := None;
      posted := [];
    }

    /** `loadElderlyList` followed by `setupElderlySpinner`: the first loaded user becomes the selection. */
    method SetupElderlySpinner(loaded: seq<ElderlyUser>)
      modifies this`elderlyList, this`selectedElderlyId, this`selectedElderlyName
      ensures elderlyList == loaded
      ensures loaded != [] ==> selectedElderlyId == Some(loaded[0].id) && selectedElderlyName == Some(loaded[0].name)
      ensures loaded == [] ==> selectedElderlyId == old(selectedElderlyId) && selectedElderlyName == old(selectedElderlyName)
    {
      elderlyList := loaded;
      if |elderlyList| > 0 {
        selectedElderlyId := Some(elderlyList[0].id);
        selectedElderlyName := Some(elderlyList[0].name);
      }
    }

    /** Picking entry `position` of the elderly drop-down. */
    method SelectElderly(position: nat)
      requires position < |elderlyList|
      modifies this`selectedElderlyId, this`selectedElderlyName
      ensures selectedElderlyId == Some(elderlyList[position].id) && selectedElderlyName == Some(elderlyList[position].name)
    {
      selectedElderlyId := Some(elderlyList[position].id);
      selectedElderlyName := Some(elderlyList[position].name);
    }

    /** `sendNotification`: a request is posted only when the validation lets it through. */
    method SendNotification(text: string, typeText: string, priorityText: string) returns (r: SendOutcome)
      modifies this`posted
      ensures r == ValidateSend(selectedElderlyId, text, typeText, priorityText)
      ensures posted == if r.Posted? then old(posted) + [r.request] else old(posted)
    {
      r := ValidateSend(selectedElderlyId, text, typeText, priorityText);
      if r.Posted? {
        posted := posted + [r.request];
      }
    }
  }
}
