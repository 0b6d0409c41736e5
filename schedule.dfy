/**
 * The on-device schedule store of the Android app. Two JSON files are kept:
 * the list of every schedule (for the family members who created them) and a
 * map from elderly-user id to that user's schedules (read by the reminder
 * service). Each operation loads a file, changes the collection in place and
 * writes it back; here the two files are the fields `schedules` and
 * `byElderly`.
 */
module Schedules {
  import opened Common
  import opened Sorting

  /** A reminder; `scheduledAt` is in seconds since the epoch, `id` may be null. */
  datatype Schedule = Schedule(
    id: Option<string>,
    elderlyId: string,
    title: string,
    message: string,
    scheduledAt: int,
    isCompleted: bool,
    createdBy: Option<string>)

  function ScheduledAt(s: Schedule): real {
    s.scheduledAt as real
  }

  /** `indexOfFirst { it.id == id }`: -1 when no schedule carries `id`. */
  function IndexOfId(s: seq<Schedule>, id: Option<string>): (i: int)
    ensures -1 <= i < |s|
    ensures i == -1 <==> forall j :: 0 <= j < |s| ==> s[j].id != id
    ensures 0 <= i ==> s[i].id == id && forall j :: 0 <= j < i ==> s[j].id != id
  {
    if s == [] then -1
    else if s[0].id == id then 0
    else
      var k := IndexOfId(s[1..], id);
      if k == -1 then -1 else k + 1
  }

  function WithoutId(id: Option<string>): Schedule -> bool {
    (s: Schedule) => s.id != id
  }

  function CreatedBy(familyUserId: string): Schedule -> bool {
    (s: Schedule) => s.createdBy == Some(familyUserId)
  }

  function PendingAfter(now: int): Schedule -> bool {
    (s: Schedule) => !s.isCompleted && s.scheduledAt > now
  }

  /** `map[key] ?: emptyList()`. */
  function Lookup(store: map<string, seq<Schedule>>, key: string): (r: seq<Schedule>)
    ensures key !in store ==> r == []
  {
    if key in store then store[key] else []
  }

  /** `take(n)`: the first `n` elements, or all of them when there are fewer. */
  function Take<T>(s: seq<T>, n: nat): (r: seq<T>)
    ensures |r| == if n <= |s| then n else |s|
    ensures r == s[..|r|]
  {
    if n <= |s| then s[..n] else s
  }

  /** The schedules a family member created, gathered list by list over `elderlyIds` in order. */
  function FamilySchedules(store: map<string, seq<Schedule>>, familyUserId: string, elderlyIds: seq<string>): (r: seq<Schedule>)
  {
    if elderlyIds == [] then []
    else
      var n := |elderlyIds| - 1;
      FamilySchedules(store, familyUserId, elderlyIds[..n]) + Filter(Lookup(store, elderlyIds[n]), CreatedBy(familyUserId))
  }

  /** Every store entry sits under its own elderly id. */
  ghost predicate Keyed(store: map<string, seq<Schedule>>) {
    forall e :: e in store ==> forall k :: 0 <= k < |store[e]| ==> store[e][k].elderlyId == e
  }

  /**
   * A family member sees exactly the schedules they created for the elderly
   * users they asked about.
   */
  lemma {:induction false} FamilySchedulesSpec(store: map<string, seq<Schedule>>, familyUserId: string, elderlyIds: seq<string>, x: Schedule)
    requires Keyed(store)
    ensures x in FamilySchedules(store, familyUserId, elderlyIds) <==>
            x.createdBy == Some(familyUserId) && x.elderlyId in elderlyIds && x in Lookup(store, x.elderlyId)
  {
    if elderlyIds != [] {
      var n := |elderlyIds| - 1;
      var last := Filter(Lookup(store, elderlyIds[n]), CreatedBy(familyUserId));
      FamilySchedulesSpec(store, familyUserId, elderlyIds[..n], x);
      assert elderlyIds == elderlyIds[..n] + [elderlyIds[n]];
      if x in last {
        var k :| 0 <= k < |last| && last[k] == x;
        assert last[k] in Lookup(store, elderlyIds[n]);
      }
      if x.createdBy == Some(familyUserId) && x.elderlyId == elderlyIds[n] && x in Lookup(store, x.elderlyId) {
        var k :| 0 <= k < |Lookup(store, x.elderlyId)| && Lookup(store, x.elderlyId)[k] == x;
        assert CreatedBy(familyUserId)(Lookup(store, elderlyIds[n])[k]);
      }
    }
  }

  /** The first `limit` of the not-completed schedules due after `now`, earliest first. */
  function Upcoming(list: seq<Schedule>, now: int, limit: nat): (r: seq<Schedule>)
  {
    Take(SortBy(Filter(list, PendingAfter(now)), ScheduledAt), limit)
  }

  /**
   * Upcoming schedules are pending and due after `now`, in time order, at most
   * `limit` of them; a pending schedule left out is due no earlier than every
   * one returned, and only when the limit was reached.
   */
  lemma UpcomingSpec(list: seq<Schedule>, now: int, limit: nat)
    ensures var r := Upcoming(list, now, limit);
            |r| <= limit && SortedBy(r, ScheduledAt) &&
            (forall i :: 0 <= i < |r| ==> r[i] in list && !r[i].isCompleted && r[i].scheduledAt > now)
    ensures var r := Upcoming(list, now, limit);
            forall x :: x in list && !x.isCompleted && x.scheduledAt > now && x !in r ==>
              |r| == limit && forall i :: 0 <= i < |r| ==> r[i].scheduledAt <= x.scheduledAt
  {
    var f := Filter(list, PendingAfter(now));
    var sorted := SortBy(f, ScheduledAt);
    var r := Take(sorted, limit);
    forall i | 0 <= i < |r| ensures r[i] in list && !r[i].isCompleted && r[i].scheduledAt > now {
      assert r[i] == sorted[i];
      SortByMembers(f, ScheduledAt, r[i]);
      var k :| 0 <= k < |f| && f[k] == r[i];
    }
    forall x | x in list && !x.isCompleted && x.scheduledAt > now && x !in r
      ensures |r| == limit && forall i :: 0 <= i < |r| ==> r[i].scheduledAt <= x.scheduledAt
    {
      var k :| 0 <= k < |list| && list[k] == x;
      assert PendingAfter(now)(list[k]);
      SortByMembers(f, ScheduledAt, x);
      var p :| 0 <= p < |sorted| && sorted[p] == x;
      assert p >= |r|;
      assert |r| == limit;
    }
  }

  /** The list with the first schedule carrying `id` replaced by `updated`; unchanged when there is none. */
  function ReplaceFirst(list: seq<Schedule>, id: Option<string>, updated: Schedule): (r: seq<Schedule>)
    ensures |r| == |list|
  {
    var j := IndexOfId(list, id);
    if j == -1 then list else list[j := updated]
  }

  /** `updateElderlySchedule` on the stored map: only the list under `updated.elderlyId` can change. */
  function ReplaceInStore(store: map<string, seq<Schedule>>, updated: Schedule): (r: map<string, seq<Schedule>>)
  {
    if updated.elderlyId in store && IndexOfId(store[updated.elderlyId], updated.id) != -1
    then store[updated.elderlyId := ReplaceFirst(store[updated.elderlyId], updated.id, updated)]
    else store
  }

  /** The stored map after `markScheduleComplete(id)`: the completed schedule replaces its stored copy; no match, no change. */
  function StoreAfterComplete(store: map<string, seq<Schedule>>, list: seq<Schedule>, id: string): map<string, seq<Schedule>>
  {
    var i := IndexOfId(list, Some(id));
    if i == -1 then store else ReplaceInStore(store, list[i].(isCompleted := true))
  }

  /** The list after `markScheduleComplete(id)`. */
  function MarkComplete(list: seq<Schedule>, id: string): (r: seq<Schedule>)
  {
    var i := IndexOfId(list, Some(id));
    if i == -1 then list else list[i := list[i].(isCompleted := true)]
  }

  /**
   * Completing touches at most one schedule, the first with the id, which
   * becomes completed; an unknown id changes nothing.
   */
  lemma MarkCompleteSpec(list: seq<Schedule>, id: string)
    ensures var r := MarkComplete(list, id);
            |r| == |list| &&
            ((forall k :: 0 <= k < |list| ==> list[k].id != Some(id)) ==> r == list) &&
            forall k :: 0 <= k < |list| ==>
              if k == IndexOfId(list, Some(id)) then r[k] == list[k].(isCompleted := true) && r[k].isCompleted
              else r[k] == list[k]
  {
  }

  /** Replacing within the store keeps every entry under its own elderly id. */
  lemma ReplaceInStoreKeyed(store: map<string, seq<Schedule>>, updated: Schedule)
    requires Keyed(store)
    ensures Keyed(ReplaceInStore(store, updated))
  {
  }

  class ScheduleManager {
    /** The list of every schedule (`schedules.json`). */
    var schedules: seq<Schedule>
    /** Schedules by elderly-user id (`elderly_schedules.json`). */
    var byElderly: map<string, seq<Schedule>>

    ghost predicate Valid()
      reads this
    {
      Keyed(byElderly)
    }

    constructor ()
      ensures Valid() && schedules == [] && byElderly == map[]
    {
      schedules := [];
      byElderly := map[];
    }

    /** `loadElderlySchedules`: the list stored under `elderlyId`, empty for an unknown id. */
    function LoadElderlySchedules(elderlyId: string): (r: seq<Schedule>)
      reads this
      ensures elderlyId !in byElderly ==> r == []
      ensures Valid() ==> forall k :: 0 <= k < |r| ==> r[k].elderlyId == elderlyId
    {
      Lookup(byElderly, elderlyId)
    }

    /** `saveElderlySchedule`: appends to the list under the schedule's elderly id, creating it if absent. */
    method SaveElderlySchedule(schedule: Schedule)
      requires Valid()
      modifies this`byElderly
      ensures Valid()
      ensures byElderly == old(byElderly)[schedule.elderlyId := Lookup(old(byElderly), schedule.elderlyId) + [schedule]]
    {
      var list := Lookup(byElderly, schedule.elderlyId);
      list := list + [schedule];
      byElderly := byElderly[schedule.elderlyId := list];
    }

    /**
     * `saveSchedule`: the schedule, given `freshId` when its id is null or
     * empty and marked as created by `familyUserId`, is appended to the list
     * and to its elderly user's list.
     */
    method SaveSchedule(schedule: Schedule, familyUserId: string, freshId: string) returns (ok: bool)
      requires Valid()
      modifies this
      ensures Valid() && ok
      ensures var saved := schedule.(id := if schedule.id == None || schedule.id == Some("") then Some(freshId) else schedule.id,
                                     createdBy := Some(familyUserId));
              schedules == old(schedules) + [saved] &&
              byElderly == old(byElderly)[saved.elderlyId := Lookup(old(byElderly), saved.elderlyId) + [saved]]
    {
      var withId := if schedule.id == None || schedule.id == Some("") then schedule.(id := Some(freshId)) else schedule;
      var withFamilyInfo := withId.(createdBy := Some(familyUserId));
      schedules := schedules + [withFamilyInfo];
      SaveElderlySchedule(withFamilyInfo);
      ok := true;
    }

    /**
     * `getSchedulesForFamilyMember`: the schedules `familyUserId` created for
     * each of `elderlyIds`, in time order.
     */
    method GetSchedulesForFamilyMember(familyUserId: string, elderlyIds: seq<string>) returns (r: seq<Schedule>)
      ensures r == SortBy(FamilySchedules(byElderly, familyUserId, elderlyIds), ScheduledAt)
      ensures SortedBy(r, ScheduledAt)
    {
      var all: seq<Schedule> := [];
      for i := 0 to |elderlyIds|
        invariant all == FamilySchedules(byElderly, familyUserId, elderlyIds[..i])
      {
        assert elderlyIds[..i + 1][..i] == elderlyIds[..i];
        var familySchedules := Filter(LoadElderlySchedules(elderlyIds[i]), CreatedBy(familyUserId));
        all := all + familySchedules;
      }
      assert elderlyIds[..|elderlyIds|] == elderlyIds;
      r := SortBy(all, ScheduledAt);
    }

    /** `updateElderlySchedule`: replaces the first entry with the same id in the schedule's elderly list, if any. */
    method UpdateElderlySchedule(updated: Schedule)
      requires Valid()
      modifies this`byElderly
      ensures Valid()
      ensures byElderly == ReplaceInStore(old(byElderly), updated)
    {
      if updated.elderlyId in byElderly {
        var list := byElderly[updated.elderlyId];
        var j := IndexOfId(list, updated.id);
        if j != -1 {
          list := list[j := updated];
          byElderly := byElderly[updated.elderlyId := list];
        }
      }
    }

    /**
     * `updateSchedule`: false, with nothing changed, when no schedule has
     * `scheduleId`; otherwise the first one is replaced by `updated` carrying
     * that id, and the elderly list is updated with `updated` as given.
     */
    method UpdateSchedule(scheduleId: string, updated: Schedule) returns (ok: bool)
      requires Valid()
      modifies this
      ensures Valid()
      ensures var i := IndexOfId(old(schedules), Some(scheduleId));
              (ok <==> i != -1) &&
              (!ok ==> schedules == old(schedules) && byElderly == old(byElderly)) &&
              (ok ==> schedules == old(schedules)[i := updated.(id := Some(scheduleId))])
      ensures ok ==> byElderly == ReplaceInStore(old(byElderly), updated)
    {
      var index := IndexOfId(schedules, Some(scheduleId));
      if index == -1 {
        return false;
      }
      schedules := schedules[index := updated.(id := Some(scheduleId))];
      UpdateElderlySchedule(updated);
      ok := true;
    }

    /** `removeElderlySchedule`: drops every entry with `scheduleId` from the list under `elderlyId`, if that list exists. */
    method RemoveElderlySchedule(scheduleId: string, elderlyId: string)
      requires Valid()
      modifies this`byElderly
      ensures Valid()
      ensures byElderly == if elderlyId in old(byElderly)
                           then old(byElderly)[elderlyId := Filter(old(byElderly)[elderlyId], WithoutId(Some(scheduleId)))]
                           else old(byElderly)
    {
      if elderlyId in byElderly {
        var list := Filter(byElderly[elderlyId], WithoutId(Some(scheduleId)));
        forall k | 0 <= k < |list| ensures list[k].elderlyId == elderlyId {
          var m :| 0 <= m < |byElderly[elderlyId]| && byElderly[elderlyId][m] == list[k];
        }
        byElderly := byElderly[elderlyId := list];
      }
    }

    /**
     * `deleteSchedule`: false, with nothing changed, when no schedule has
     * `scheduleId`; otherwise every schedule with that id leaves the list, and
     * leaves the elderly list of the first one found.
     */
    method DeleteSchedule(scheduleId: string) returns (ok: bool)
      requires Valid()
      modifies this
      ensures Valid()
      ensures var i := IndexOfId(old(schedules), Some(scheduleId));
              (ok <==> i != -1) &&
              (!ok ==> schedules == old(schedules) && byElderly == old(byElderly)) &&
              (ok ==> schedules == Filter(old(schedules), WithoutId(Some(scheduleId))))
      ensures ok ==> var e := old(schedules)[IndexOfId(old(schedules), Some(scheduleId))].elderlyId;
                     byElderly == if e in old(byElderly)
                                  then old(byElderly)[e := Filter(old(byElderly)[e], WithoutId(Some(scheduleId)))]
                                  else old(byElderly)
      ensures forall k :: 0 <= k < |schedules| ==> schedules[k].id != Some(scheduleId)
    {
      var index := IndexOfId(schedules, Some(scheduleId));
      if index == -1 {
        return false;
      }
      var scheduleToDelete := schedules[index];
      schedules := Filter(schedules, WithoutId(Some(scheduleId)));
      RemoveElderlySchedule(scheduleId, scheduleToDelete.elderlyId);
      ok := true;
    }

    /**
     * `markScheduleComplete`: false, with nothing changed, when no schedule
     * has `scheduleId`; otherwise only the first one becomes completed, in the
     * list and in its elderly list.
     */
    method MarkScheduleComplete(scheduleId: string) returns (ok: bool)
      requires Valid()
      modifies this
      ensures Valid()
      ensures ok <==> IndexOfId(old(schedules), Some(scheduleId)) != -1
      ensures schedules == MarkComplete(old(schedules), scheduleId)
      ensures !ok ==> byElderly == old(byElderly)
      ensures ok ==> byElderly == ReplaceInStore(old(byElderly), old(schedules)[IndexOfId(old(schedules), Some(scheduleId))].(isCompleted := true))
      ensures byElderly == StoreAfterComplete(old(byElderly), old(schedules), scheduleId)
    {
      var index := IndexOfId(schedules, Some(scheduleId));
      if index == -1 {
        return false;
      }
      var updated := schedules[index].(isCompleted := true);
      schedules := schedules[index := updated];
      UpdateElderlySchedule(updated);
      ok := true;
    }

    /** `getUpcomingSchedules`: see `Upcoming` and `UpcomingSpec`; `now` is in seconds. */
    function GetUpcomingSchedules(elderlyId: string, limit: nat, now: int): (r: seq<Schedule>)
      reads this
      ensures |r| <= limit
      ensures forall i :: 0 <= i < |r| ==> r[i] in LoadElderlySchedules(elderlyId) && !r[i].isCompleted && r[i].scheduledAt > now
      ensures SortedBy(r, ScheduledAt)
    {
      UpcomingSpec(LoadElderlySchedules(elderlyId), now, limit);
      Upcoming(LoadElderlySchedules(elderlyId), now, limit)
    }
  }
}
