/**
 * The voice reminder service of the Android app: once a minute it looks at
 * the default elderly user's upcoming schedules and speaks a reminder for a
 * schedule due within five minutes, either "now" (within a minute, after
 * which the schedule is completed) or "in N minutes". Every spoken reminder
 * is gated by the process-wide "audio is playing" flag, which the text-to-
 * speech callbacks clear again.
 */
module VoiceReminders {
  import opened Common
  import opened Schedules

  /** The elderly user whose schedules are watched. */
  const DefaultElderlyId := "default_elderly"
  /** How many upcoming schedules are fetched per pass. */
  const UpcomingLimit := 10
  /** The look-ahead window, in seconds. */
  const ReminderWindow := 300
  /** Schedules due within this many seconds get the immediate reminder. */
  const ImmediateWindow := 60

  /** Which reminder a schedule due `delta` seconds from now receives. */
  datatype Reminder = NoReminder | Immediate | Advance(minutes: int)

  function Classify(delta: int): (r: Reminder)
  {
    if delta <= 0 || delta > ReminderWindow then NoReminder
    else if delta <= ImmediateWindow then Immediate
    else Advance(delta / 60)
  }

  /**
   * Only schedules due in `(0, 300]` seconds get a reminder: the immediate
   * one up to a minute ahead, the advance one after that, never both; an
   * advance reminder announces between 1 and 5 whole minutes.
   */
  lemma ClassifySpec(delta: int)
    ensures Classify(delta) != NoReminder <==> 0 < delta <= ReminderWindow
    ensures Classify(delta) == Immediate <==> 0 < delta <= ImmediateWindow
    ensures Classify(delta).Advance? <==> ImmediateWindow < delta <= ReminderWindow
    ensures Classify(delta).Advance? ==> 1 <= Classify(delta).minutes <= 5 && Classify(delta).minutes == delta / 60
  {
  }

  /** What the text-to-speech engine was asked to say, with its utterance id. */
  datatype Utterance = Utterance(text: string, utteranceId: string)

  /** A Kotlin template renders a null string as `null`. */
  function Shown(s: Option<string>): string {
    if s.Some? then s.value else "null"
  }

  function ImmediateUtterance(s: Schedule): Utterance {
    Utterance("Đã đến giờ: " + s.title + ". " + s.message, "schedule_notification_" + Shown(s.id))
  }

  function AdvanceUtterance(s: Schedule, minutes: int): Utterance
    requires minutes >= 0
  {
    Utterance("Nhắc nhở: " + s.title + " sẽ diễn ra trong " + NatToString(minutes) + " phút nữa. " + s.message,
              "schedule_advance_" + Shown(s.id))
  }

  /** Whether `s` falls in the reminder window after `now`, as `checkUpcomingSchedules` tests it. */
  predicate InWindow(s: Schedule, now: int) {
    now < s.scheduledAt <= now + ReminderWindow
  }

  /** The first schedule of `list` due within the window after `now`, if any. */
  function FirstInWindow(list: seq<Schedule>, now: int): (r: Option<Schedule>)
    ensures r.Some? ==> r.value in list && InWindow(r.value, now)
  {
    if list == [] then None
    else if InWindow(list[0], now) then Some(list[0])
    else FirstInWindow(list[1..], now)
  }

  /**
   * `FirstInWindow` finds nothing exactly when no schedule is in the window,
   * and otherwise the schedule at the first in-window position.
   */
  lemma {:induction false} FirstInWindowSpec(list: seq<Schedule>, now: int)
    ensures FirstInWindow(list, now).None? <==> forall i :: 0 <= i < |list| ==> !InWindow(list[i], now)
    ensures FirstInWindow(list, now).Some? ==>
              exists k :: 0 <= k < |list| && list[k] == FirstInWindow(list, now).value &&
                          forall i :: 0 <= i < k ==> !InWindow(list[i], now)
  {
    if list != [] && !InWindow(list[0], now) {
      FirstInWindowSpec(list[1..], now);
      if FirstInWindow(list, now).Some? {
        var k :| 0 <= k < |list[1..]| && list[1..][k] == FirstInWindow(list, now).value &&
                 forall i :: 0 <= i < k ==> !InWindow(list[1..][i], now);
        assert list[k + 1] == FirstInWindow(list, now).value;
        forall i | 0 <= i < k + 1 ensures !InWindow(list[i], now) {
          if i > 0 { assert list[i] == list[1..][i - 1]; }
        }
      } else {
        forall i | 0 <= i < |list| ensures !InWindow(list[i], now) {
          if i > 0 { assert list[i] == list[1..][i - 1]; }
        }
      }
    } else if list != [] {
      assert list[0] == FirstInWindow(list, now).value;
    }
  }

  /** The reminder spoken for a schedule in the window. */
  function ReminderFor(s: Schedule, now: int): Utterance
    requires InWindow(s, now)
  {
    if Classify(s.scheduledAt - now) == Immediate then ImmediateUtterance(s)
    else AdvanceUtterance(s, Classify(s.scheduledAt - now).minutes)
  }

  /** A schedule in the window close enough for the immediate reminder, which also completes it. */
  predicate Completes(s: Schedule, now: int) {
    InWindow(s, now) && Classify(s.scheduledAt - now) == Immediate
  }

  /** `schedule.id ?: ""`, the id the completion is recorded under. */
  function IdOrEmpty(id: Option<string>): string {
    if id.Some? then id.value else ""
  }

  class VoiceNotificationService {
    /** `GlobalPlaybackState.isPlaying`. */
    var isPlaying: bool
    var hasAudioFocus: bool
    /** Reminders handed to the speech engine, oldest first. */
    var spoken: seq<Utterance>
    const manager: ScheduleManager

    ghost predicate Valid()
      reads this, manager
    {
      manager.Valid()
    }

    constructor (manager: ScheduleManager)
      requires manager.Valid()
      ensures Valid() && this.manager == manager && !isPlaying && !hasAudioFocus && spoken == []
    {
      this.manager := manager;
      isPlaying := false;
      hasAudioFocus := false;
      spoken := [];
    }

    /** Speaks `u` unless something is already playing; speaking takes audio focus and raises the flag. */
    method Speak(u: Utterance) returns (sent: bool)
      modifies this`isPlaying, this`hasAudioFocus, this`spoken
      ensures sent <==> !old(isPlaying)
      ensures isPlaying
      ensures spoken == if sent then old(spoken) + [u] else old(spoken)
      ensures hasAudioFocus == (old(hasAudioFocus) || sent)
    {
      if isPlaying {
        return false;
      }
      hasAudioFocus := true;
      isPlaying := true;
      spoken := spoken + [u];
      sent := true;
    }

    /** `sendImmediateVoiceNotification`: the "it is time" reminder, after which the schedule is completed. */
    method SendImmediateVoiceNotification(s: Schedule)
      requires Valid()
      modifies this`isPlaying, this`hasAudioFocus, this`spoken, manager
      ensures Valid() && isPlaying
      ensures hasAudioFocus == (old(hasAudioFocus) || !old(isPlaying))
      ensures old(isPlaying) ==> spoken == old(spoken) && manager.schedules == old(manager.schedules) &&
                                 manager.byElderly == old(manager.byElderly)
      ensures !old(isPlaying) ==> spoken == old(spoken) + [ImmediateUtterance(s)] &&
                                  manager.schedules == MarkComplete(old(manager.schedules), IdOrEmpty(s.id)) &&
                                  manager.byElderly == StoreAfterComplete(old(manager.byElderly), old(manager.schedules), IdOrEmpty(s.id))
    {
      var sent := Speak(ImmediateUtterance(s));
      if sent {
        var _ := manager.MarkScheduleComplete(IdOrEmpty(s.id));
      }
    }

    /** `sendAdvanceVoiceNotification`: the "in N minutes" reminder; the schedule stays open. */
    method SendAdvanceVoiceNotification(s: Schedule, timeUntilSchedule: int)
      requires timeUntilSchedule >= 0
      modifies this`isPlaying, this`hasAudioFocus, this`spoken
      ensures isPlaying && hasAudioFocus == (old(hasAudioFocus) || !old(isPlaying))
      ensures spoken == if old(isPlaying) then old(spoken) else old(spoken) + [AdvanceUtterance(s, timeUntilSchedule / 60)]
    {
      var _ := Speak(AdvanceUtterance(s, timeUntilSchedule / 60));
    }

    /** `sendCustomVoiceNotification`: `"<title>. <message>"` under the same gate. */
    method SendCustomVoiceNotification(title: string, message: string, millis: nat)
      modifies this`isPlaying, this`hasAudioFocus, this`spoken
      ensures isPlaying && hasAudioFocus == (old(hasAudioFocus) || !old(isPlaying))
      ensures spoken == if old(isPlaying) then old(spoken)
                        else old(spoken) + [Utterance(title + ". " + message, "custom_notification_" + NatToString(millis))]
    {
      var _ := Speak(Utterance(title + ". " + message, "custom_notification_" + NatToString(millis)));
    }

    /** The body of the pass for one schedule: the reminder its distance from `now` calls for, if any. */
    method RemindIfDue(schedule: Schedule, now: int)
      requires Valid()
      modifies this`isPlaying, this`hasAudioFocus, this`spoken, manager
      ensures Valid()
      ensures var due := InWindow(schedule, now);
              spoken == (if old(isPlaying) || !due then old(spoken) else old(spoken) + [ReminderFor(schedule, now)]) &&
              isPlaying == (old(isPlaying) || due) &&
              hasAudioFocus == (old(hasAudioFocus) || (!old(isPlaying) && due))
      ensures var completes := !old(isPlaying) && Completes(schedule, now);
              manager.schedules == (if completes then MarkComplete(old(manager.schedules), IdOrEmpty(schedule.id))
                                    else old(manager.schedules)) &&
              manager.byElderly == (if completes
                                    then StoreAfterComplete(old(manager.byElderly), old(manager.schedules), IdOrEmpty(schedule.id))
                                    else old(manager.byElderly))
    {
      var fiveMinutesFromNow := now + ReminderWindow;
      if schedule.scheduledAt <= fiveMinutesFromNow && schedule.scheduledAt > now {
        var timeUntilSchedule := schedule.scheduledAt - now;
        if timeUntilSchedule <= ImmediateWindow {
          SendImmediateVoiceNotification(schedule);
        } else if timeUntilSchedule <= ReminderWindow {
          SendAdvanceVoiceNotification(schedule, timeUntilSchedule);
        }
      }
    }

    /**
     * `checkUpcomingSchedules` at time `now` (seconds): each fetched schedule
     * in the window is sent its reminder in turn. The first send raises the
     * playing flag and nothing in the pass lowers it, so a pass speaks at
     * most one reminder, for the first schedule in the window, and none at
     * all while audio is already playing.
     */
    method CheckUpcomingSchedules(now: int)
      requires Valid()
      modifies this`isPlaying, this`hasAudioFocus, this`spoken, manager
      ensures Valid()
      ensures var first := FirstInWindow(old(manager.GetUpcomingSchedules(DefaultElderlyId, UpcomingLimit, now)), now);
              spoken == (if old(isPlaying) || first.None? then old(spoken)
                         else old(spoken) + [ReminderFor(first.value, now)]) &&
              isPlaying == (old(isPlaying) || first.Some?) &&
              hasAudioFocus == (old(hasAudioFocus) || (!old(isPlaying) && first.Some?))
      ensures var first := FirstInWindow(old(manager.GetUpcomingSchedules(DefaultElderlyId, UpcomingLimit, now)), now);
              var completes := !old(isPlaying) && first.Some? && Completes(first.value, now);
              manager.schedules == (if completes then MarkComplete(old(manager.schedules), IdOrEmpty(first.value.id))
                                    else old(manager.schedules)) &&
              manager.byElderly == (if completes
                                    then StoreAfterComplete(old(manager.byElderly), old(manager.schedules), IdOrEmpty(first.value.id))
                                    else old(manager.byElderly))
    {
      var upcoming := manager.GetUpcomingSchedules(DefaultElderlyId, UpcomingLimit, now);
      for i := 0 to |upcoming|
        invariant Valid()
        invariant var first := FirstInWindow(upcoming[..i], now);
                  spoken == if old(isPlaying) || first.None? then old(spoken)
                            else old(spoken) + [ReminderFor(first.value, now)]
        invariant isPlaying == (old(isPlaying) || FirstInWindow(upcoming[..i], now).Some?)
        invariant hasAudioFocus == (old(hasAudioFocus) || (!old(isPlaying) && FirstInWindow(upcoming[..i], now).Some?))
        invariant var first := FirstInWindow(upcoming[..i], now);
                  var completes := !old(isPlaying) && first.Some? && Completes(first.value, now);
                  manager.schedules == (if completes then MarkComplete(old(manager.schedules), IdOrEmpty(first.value.id))
                                        else old(manager.schedules)) &&
                  manager.byElderly == (if completes
                                        then StoreAfterComplete(old(manager.byElderly), old(manager.schedules), IdOrEmpty(first.value.id))
                                        else old(manager.byElderly))
      {
        FirstInWindowPrefix(upcoming, i, now);
        RemindIfDue(upcoming[i], now);
      }
      assert upcoming[..|upcoming|] == upcoming;
    }

    /** The speech engine's start callback raises the flag. */
    method OnStart()
      modifies this`isPlaying
      ensures isPlaying
    {
      isPlaying := true;
    }

    /** The speech engine's done and error callbacks lower the flag and give up audio focus. */
    method OnDoneOrError()
      modifies this`isPlaying, this`hasAudioFocus
      ensures !isPlaying && !hasAudioFocus
    {
      isPlaying := false;
      hasAudioFocus := false;
    }
  }

  /** The first in-window schedule of a list with one more element at the end. */
  lemma {:induction false} FirstInWindowAppend(list: seq<Schedule>, s: Schedule, now: int)
    ensures FirstInWindow(list + [s], now) ==
            if FirstInWindow(list, now).Some? then FirstInWindow(list, now)
            else if InWindow(s, now) then Some(s) else None
  {
    if list != [] {
      assert (list + [s])[1..] == list[1..] + [s];
      FirstInWindowAppend(list[1..], s, now);
    } else {
      assert [s][1..] == [];
    }
  }

  /** The first in-window schedule among the first `i + 1` of a list. */
  lemma FirstInWindowPrefix(list: seq<Schedule>, i: nat, now: int)
    requires i < |list|
    ensures FirstInWindow(list[..i + 1], now) ==
            if FirstInWindow(list[..i], now).Some? then FirstInWindow(list[..i], now)
            else if InWindow(list[i], now) then Some(list[i]) else None
  {
    assert list[..i + 1] == list[..i] + [list[i]];
    FirstInWindowAppend(list[..i], list[i], now);
  }
}
