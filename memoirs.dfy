/**
 * The life-memoir table of the backend and its queries: a user's memoirs in
 * one of three orders, the distinct categories, people and places they
 * mention, the timeline that groups them by life period, field-by-field
 * updates, category statistics and the plain-text export for the family.
 */
module MemoirStore {
  import opened Common
  import opened Sorting

  /** A row of the `life_memoirs` table; dates are day numbers, `extractedAt` a timestamp. */
  datatype LifeMemoir = LifeMemoir(
    id: string,
    userId: string,
    conversationId: Option<string>,
    title: string,
    content: string,
    dateOfMemory: Option<int>,
    categories: seq<string>,
    peopleMentioned: seq<string>,
    placesMentioned: seq<string>,
    timePeriod: Option<string>,
    emotionalTone: Option<string>,
    importanceScore: real,
    extractedAt: int)

  function BelongsTo(userId: string): LifeMemoir -> bool {
    (m: LifeMemoir) => m.userId == userId
  }

  /** The rows of one user, in table order. */
  function OfUser(memoirs: seq<LifeMemoir>, userId: string): seq<LifeMemoir> {
    Filter(memoirs, BelongsTo(userId))
  }

  // ---------------------------------------------------------------- ordering

  predicate HasDate(m: LifeMemoir) {
    m.dateOfMemory.Some?
  }

  predicate NoDate(m: LifeMemoir) {
    m.dateOfMemory.None?
  }

  function DateKey(m: LifeMemoir): real {
    if m.dateOfMemory.Some? then m.dateOfMemory.value as real else 0.0
  }

  function NewestDateFirst(m: LifeMemoir): real {
    -DateKey(m)
  }

  function MostImportantFirst(m: LifeMemoir): real {
    -m.importanceScore
  }

  function LatestExtractedFirst(m: LifeMemoir): real {
    -(m.extractedAt as real)
  }

  /** `ORDER BY date_of_memory`: dated rows by date, then the undated ones (nulls sort last). */
  function Chronological(ms: seq<LifeMemoir>): (r: seq<LifeMemoir>)
    ensures forall x :: x in r <==> x in ms
    ensures forall i, j :: 0 <= i < j < |r| && HasDate(r[j]) ==> HasDate(r[i]) && DateKey(r[i]) <= DateKey(r[j])
  {
    var dated := SortBy(Filter(ms, HasDate), DateKey);
    var undated := Filter(ms, NoDate);
    var r := dated + undated;
    assert forall x :: x in r <==> x in ms by {
      forall x ensures x in r <==> x in ms {
        SortByMembers(Filter(ms, HasDate), DateKey, x);
      }
    }
    assert forall i, j :: 0 <= i < j < |r| && HasDate(r[j]) ==> HasDate(r[i]) && DateKey(r[i]) <= DateKey(r[j]) by {
      forall i, j | 0 <= i < j < |r| && HasDate(r[j]) ensures HasDate(r[i]) && DateKey(r[i]) <= DateKey(r[j]) {
        assert r[i] == dated[i] && r[j] == dated[j];
        SortByMembers(Filter(ms, HasDate), DateKey, dated[i]);
      }
    }
    r
  }

  /** The columns `get_user_memoirs` can order by. */
  datatype OrderColumn = DateOfMemory | Importance | ExtractedAt

  /** `order_by` as `get_user_memoirs` reads it: two known names, anything else meaning `extracted_at`. */
  function OrderColumnFor(orderBy: string): (c: OrderColumn)
    ensures c == DateOfMemory <==> orderBy == "date_of_memory"
    ensures c == Importance <==> orderBy == "importance"
    ensures c == ExtractedAt <==> orderBy != "date_of_memory" && orderBy != "importance"
  {
    if orderBy == "date_of_memory" then DateOfMemory
    else if orderBy == "importance" then Importance
    else ExtractedAt
  }

  /** A descending order on the column; `ORDER BY date_of_memory DESC` puts undated rows first. */
  function OrderedBy(ms: seq<LifeMemoir>, c: OrderColumn): seq<LifeMemoir> {
    match c
    case DateOfMemory => Filter(ms, NoDate) + SortBy(Filter(ms, HasDate), NewestDateFirst)
    case Importance => SortBy(ms, MostImportantFirst)
    case ExtractedAt => SortBy(ms, LatestExtractedFirst)
  }

  /** `get_user_memoirs`: one page of the user's memoirs in the requested order. */
  function GetUserMemoirs(memoirs: seq<LifeMemoir>, userId: string, limit: nat, offset: nat, orderBy: string): seq<LifeMemoir> {
    Page(OrderedBy(OfUser(memoirs, userId), OrderColumnFor(orderBy)), offset, limit)
  }

  /** Every ordering is of the rows it was given. */
  lemma OrderedByMembers(ms: seq<LifeMemoir>, c: OrderColumn)
    ensures forall x :: x in OrderedBy(ms, c) ==> x in ms
  {
    forall x | x in OrderedBy(ms, c) ensures x in ms {
      match c
      case DateOfMemory => SortByMembers(Filter(ms, HasDate), NewestDateFirst, x);
      case Importance => SortByMembers(ms, MostImportantFirst, x);
      case ExtractedAt => SortByMembers(ms, LatestExtractedFirst, x);
    }
  }

  /** A page holds at most `limit` memoirs, all of them the user's own. */
  lemma GetUserMemoirsOwn(memoirs: seq<LifeMemoir>, userId: string, limit: nat, offset: nat, orderBy: string)
    ensures var r := GetUserMemoirs(memoirs, userId, limit, offset, orderBy);
            |r| <= limit && forall i :: 0 <= i < |r| ==> r[i].userId == userId && r[i] in memoirs
  {
    var mine := OfUser(memoirs, userId);
    var ordered := OrderedBy(mine, OrderColumnFor(orderBy));
    OrderedByMembers(mine, OrderColumnFor(orderBy));
    var r := Page(ordered, offset, limit);
    forall i | 0 <= i < |r| ensures r[i].userId == userId && r[i] in memoirs {
      assert r[i] in ordered;
    }
  }

  /** With an unknown `order_by` a page comes newest extraction first. */
  lemma GetUserMemoirsLatestFirst(memoirs: seq<LifeMemoir>, userId: string, limit: nat, offset: nat, orderBy: string)
    requires orderBy != "date_of_memory" && orderBy != "importance"
    ensures var r := GetUserMemoirs(memoirs, userId, limit, offset, orderBy);
            forall i, j :: 0 <= i < j < |r| ==> r[i].extractedAt >= r[j].extractedAt
  {
    var ordered := SortBy(OfUser(memoirs, userId), LatestExtractedFirst);
    PageSorted(ordered, LatestExtractedFirst, offset, limit);
    var r := Page(ordered, offset, limit);
    forall i, j | 0 <= i < j < |r| ensures r[i].extractedAt >= r[j].extractedAt {
      assert LatestExtractedFirst(r[i]) <= LatestExtractedFirst(r[j]);
    }
  }

  /** With `order_by` `importance` a page comes most important first. */
  lemma GetUserMemoirsImportanceFirst(memoirs: seq<LifeMemoir>, userId: string, limit: nat, offset: nat)
    ensures var r := GetUserMemoirs(memoirs, userId, limit, offset, "importance");
            forall i, j :: 0 <= i < j < |r| ==> r[i].importanceScore >= r[j].importanceScore
  {
    var ordered := SortBy(OfUser(memoirs, userId), MostImportantFirst);
    PageSorted(ordered, MostImportantFirst, offset, limit);
    var r := Page(ordered, offset, limit);
    forall i, j | 0 <= i < j < |r| ensures r[i].importanceScore >= r[j].importanceScore {
      assert MostImportantFirst(r[i]) <= MostImportantFirst(r[j]);
    }
  }

  // ---------------------------------------------------------------- distinct tags

  /** The three list columns whose distinct values can be listed. */
  datatype TagColumn = Categories | People | Places

  function Tags(m: LifeMemoir, column: TagColumn): seq<string> {
    match column
    case Categories => m.categories
    case People => m.peopleMentioned
    case Places => m.placesMentioned
  }

  // ---------------------------------------------------------------- timeline

  /** The group a memoir falls in: its time period, or "Unknown Period" when that is missing or empty. */
  function PeriodOf(m: LifeMemoir): string {
    if Truthy(m.timePeriod) then m.timePeriod.value else "Unknown Period"
  }

  function InPeriod(p: string): LifeMemoir -> bool {
    (m: LifeMemoir) => PeriodOf(m) == p
  }

  predicate Distinct(ps: seq<string>) {
    forall i, j :: 0 <= i < j < |ps| ==> ps[i] != ps[j]
  }

  /** The periods of `ms` in order of first occurrence. */
  function Periods(ms: seq<LifeMemoir>): (ps: seq<string>)
  {
    if ms == [] then []
    else
      var ps := Periods(ms[..|ms| - 1]);
      var p := PeriodOf(ms[|ms| - 1]);
      if p in ps then ps else ps + [p]
  }

  /** The periods are distinct and are exactly the periods of the memoirs. */
  lemma {:induction false} PeriodsSpec(ms: seq<LifeMemoir>)
    ensures Distinct(Periods(ms))
    ensures forall p :: p in Periods(ms) <==> exists k :: 0 <= k < |ms| && PeriodOf(ms[k]) == p
  {
    if ms != [] {
      var init := ms[..|ms| - 1];
      PeriodsSpec(init);
      forall p ensures p in Periods(ms) <==> exists k :: 0 <= k < |ms| && PeriodOf(ms[k]) == p {
        if p in Periods(init) {
          var k :| 0 <= k < |init| && PeriodOf(init[k]) == p;
          assert ms[k] == init[k];
        }
        if exists k :: 0 <= k < |ms| && PeriodOf(ms[k]) == p {
          var k :| 0 <= k < |ms| && PeriodOf(ms[k]) == p;
          if k < |init| {
            assert init[k] == ms[k];
          }
        }
      }
    }
  }

  /** One timeline group: the period, its number of stories and the stories. */
  datatype TimelineEntry = TimelineEntry(timePeriod: string, storyCount: nat, stories: seq<LifeMemoir>)

  function Entry(ms: seq<LifeMemoir>, p: string): TimelineEntry {
    TimelineEntry(p, |Filter(ms, InPeriod(p))|, Filter(ms, InPeriod(p)))
  }

  /** The timeline of `ms`: one group per period, in order of first occurrence, stories in `ms` order. */
  function Timeline(ms: seq<LifeMemoir>): (r: seq<TimelineEntry>)
    ensures |r| == |Periods(ms)|
  {
    var ps := Periods(ms);
    seq(|ps|, k requires 0 <= k < |ps| => Entry(ms, ps[k]))
  }

  function TotalStories(entries: seq<TimelineEntry>): nat {
    if entries == [] then 0 else entries[0].storyCount + TotalStories(entries[1..])
  }

  /** How many times `x` occurs in `ps`. */
  function Occurrences(ps: seq<string>, x: string): nat {
    if ps == [] then 0 else (if ps[0] == x then 1 else 0) + Occurrences(ps[1..], x)
  }

  lemma {:induction false} OccurrencesDistinct(ps: seq<string>, x: string)
    requires Distinct(ps)
    ensures Occurrences(ps, x) == if x in ps then 1 else 0
  {
    if ps != [] {
      OccurrencesDistinct(ps[1..], x);
      if ps[0] == x {
        assert x !in ps[1..];
      }
    }
  }

  function EntriesFor(ms: seq<LifeMemoir>, ps: seq<string>): seq<TimelineEntry> {
    seq(|ps|, k requires 0 <= k < |ps| => Entry(ms, ps[k]))
  }

  lemma EntriesForAppend(ms: seq<LifeMemoir>, ps: seq<string>, p: string)
    ensures EntriesFor(ms, ps + [p]) == EntriesFor(ms, ps) + [Entry(ms, p)]
  {
  }

  lemma EntriesForPrefix(ms: seq<LifeMemoir>, ps: seq<string>, k: nat)
    requires k < |ps|
    ensures EntriesFor(ms, ps[..k + 1]) == EntriesFor(ms, ps[..k]) + [Entry(ms, ps[k])]
  {
    assert ps[..k + 1] == ps[..k] + [ps[k]];
    EntriesForAppend(ms, ps[..k], ps[k]);
  }

  /** Adding a memoir at the end adds one story for every occurrence of its period. */
  lemma {:induction false} TotalStoriesAppend(ms: seq<LifeMemoir>, m: LifeMemoir, ps: seq<string>)
    ensures TotalStories(EntriesFor(ms + [m], ps)) == TotalStories(EntriesFor(ms, ps)) + Occurrences(ps, PeriodOf(m))
  {
    if ps != [] {
      assert EntriesFor(ms + [m], ps)[1..] == EntriesFor(ms + [m], ps[1..]);
      assert EntriesFor(ms, ps)[1..] == EntriesFor(ms, ps[1..]);
      TotalStoriesAppend(ms, m, ps[1..]);
      FilterAppend(ms, [m], InPeriod(ps[0]));
    }
  }

  lemma {:induction false} TotalStoriesEmpty(ps: seq<string>)
    ensures TotalStories(EntriesFor([], ps)) == 0
  {
    if ps != [] {
      assert EntriesFor([], ps)[1..] == EntriesFor([], ps[1..]);
      TotalStoriesEmpty(ps[1..]);
    }
  }

  /** Over distinct periods that cover every memoir, the groups hold as many stories as there are memoirs. */
  lemma {:induction false} TotalStoriesCover(ms: seq<LifeMemoir>, ps: seq<string>)
    requires Distinct(ps)
    requires forall k :: 0 <= k < |ms| ==> PeriodOf(ms[k]) in ps
    ensures TotalStories(EntriesFor(ms, ps)) == |ms|
  {
    if ms == [] {
      TotalStoriesEmpty(ps);
    } else {
      var init, m := ms[..|ms| - 1], ms[|ms| - 1];
      assert ms == init + [m];
      TotalStoriesCover(init, ps);
      TotalStoriesAppend(init, m, ps);
      OccurrencesDistinct(ps, PeriodOf(m));
    }
  }

  /** The story counts of the timeline add up to the number of memoirs. */
  lemma TimelineTotal(ms: seq<LifeMemoir>)
    ensures TotalStories(Timeline(ms)) == |ms|
  {
    var ps := Periods(ms);
    PeriodsSpec(ms);
    assert Timeline(ms) == EntriesFor(ms, ps);
    forall k | 0 <= k < |ms| ensures PeriodOf(ms[k]) in ps {
    }
    TotalStoriesCover(ms, ps);
  }

  /** Every memoir is a story of the group of its period. */
  lemma TimelineCovers(ms: seq<LifeMemoir>, i: nat)
    requires i < |ms|
    ensures exists k :: 0 <= k < |Timeline(ms)| && Timeline(ms)[k].timePeriod == PeriodOf(ms[i]) &&
                        ms[i] in Timeline(ms)[k].stories
  {
    var ps := Periods(ms);
    PeriodsSpec(ms);
    assert PeriodOf(ms[i]) in ps by {
      assert 0 <= i < |ms| && PeriodOf(ms[i]) == PeriodOf(ms[i]);
    }
    var k :| 0 <= k < |ps| && ps[k] == PeriodOf(ms[i]);
    assert ms[i] in Filter(ms, InPeriod(ps[k]));
    assert Timeline(ms)[k] == Entry(ms, ps[k]);
  }

  /**
   * Every story of a group is a memoir of that group's period, and no two
   * groups share a period, so each memoir is in exactly one group.
   */
  lemma TimelineSound(ms: seq<LifeMemoir>)
    ensures forall k, x :: 0 <= k < |Timeline(ms)| && x in Timeline(ms)[k].stories ==>
              x in ms && PeriodOf(x) == Timeline(ms)[k].timePeriod
    ensures forall k, l :: 0 <= k < l < |Timeline(ms)| ==> Timeline(ms)[k].timePeriod != Timeline(ms)[l].timePeriod
  {
    PeriodsSpec(ms);
  }

  /** The story count of every group is the number of its stories. */
  lemma TimelineCounts(ms: seq<LifeMemoir>)
    ensures forall k :: 0 <= k < |Timeline(ms)| ==> Timeline(ms)[k].storyCount == |Timeline(ms)[k].stories|
  {
  }

  /** `groups` maps each period of `prefix`, listed in first-occurrence order in `order`, to its memoirs. */
  ghost predicate Grouped(prefix: seq<LifeMemoir>, order: seq<string>, groups: map<string, seq<LifeMemoir>>) {
    order == Periods(prefix) &&
    (forall p :: p in groups <==> p in order) &&
    (forall p :: p in groups ==> groups[p] == Filter(prefix, InPeriod(p)))
  }

  /** Appending a memoir appends it to the memoirs of its own period only. */
  lemma FilterPeriodStep(prefix: seq<LifeMemoir>, m: LifeMemoir, p: string)
    ensures Filter(prefix + [m], InPeriod(p)) == Filter(prefix, InPeriod(p)) + (if PeriodOf(m) == p then [m] else [])
  {
    FilterAppend(prefix, [m], InPeriod(p));
    assert [m][1..] == [];
  }

  /** A period not yet grouped has no memoirs so far. */
  lemma UngroupedPeriodEmpty(prefix: seq<LifeMemoir>, order: seq<string>, groups: map<string, seq<LifeMemoir>>, period: string)
    requires Grouped(prefix, order, groups)
    requires period !in groups
    ensures Filter(prefix, InPeriod(period)) == []
  {
    PeriodsSpec(prefix);
    forall i | 0 <= i < |prefix| ensures PeriodOf(prefix[i]) in order {
      assert 0 <= i < |prefix| && PeriodOf(prefix[i]) == PeriodOf(prefix[i]);
    }
    FilterLength(prefix, InPeriod(period));
  }

  /** One step of the grouping loop of `get_memoir_timeline`. */
  lemma GroupStep(prefix: seq<LifeMemoir>, m: LifeMemoir, order: seq<string>, groups: map<string, seq<LifeMemoir>>)
    requires Grouped(prefix, order, groups)
    ensures var period := PeriodOf(m);
            var order' := if period in groups then order else order + [period];
            var groups' := groups[period := (if period in groups then groups[period] else []) + [m]];
            Grouped(prefix + [m], order', groups')
  {
    var period := PeriodOf(m);
    assert (prefix + [m])[..|prefix|] == prefix;
    forall p ensures Filter(prefix + [m], InPeriod(p)) == Filter(prefix, InPeriod(p)) + (if period == p then [m] else []) {
      FilterPeriodStep(prefix, m, p);
    }
    if period !in groups {
      UngroupedPeriodEmpty(prefix, order, groups, period);
    }
  }

  /** The first loop of `get_memoir_timeline`: each memoir appended to the list of its period. */
  method GroupByPeriod(ms: seq<LifeMemoir>) returns (order: seq<string>, groups: map<string, seq<LifeMemoir>>)
    ensures Grouped(ms, order, groups)
  {
    order := [];
    groups := map[];
    for i := 0 to |ms|
      invariant Grouped(ms[..i], order, groups)
    {
      var m := ms[i];
      var period := PeriodOf(m);
      GroupStep(ms[..i], m, order, groups);
      assert ms[..i + 1] == ms[..i] + [m];
      if period !in groups {
        order := order + [period];
        groups := groups[period := []];
      }
      groups := groups[period := groups[period] + [m]];
    }
    assert ms[..|ms|] == ms;
  }

  /** The second loop of `get_memoir_timeline`: the groups listed in the order their periods first occur. */
  method GroupsInOrder(ms: seq<LifeMemoir>, order: seq<string>, groups: map<string, seq<LifeMemoir>>)
    returns (timeline: seq<TimelineEntry>)
    requires Grouped(ms, order, groups)
    ensures timeline == Timeline(ms)
  {
    timeline := [];
    for k := 0 to |order|
      invariant timeline == EntriesFor(ms, order[..k])
    {
      EntriesForPrefix(ms, order, k);
      timeline := timeline + [TimelineEntry(order[k], |groups[order[k]]|, groups[order[k]])];
    }
    assert order[..|order|] == order;
  }

  // ---------------------------------------------------------------- updates

  /** The optional new values `update_memoir` takes; an absent value leaves its column alone. */
  datatype MemoirUpdate = MemoirUpdate(
    title: Option<string>,
    content: Option<string>,
    categories: Option<seq<string>>,
    peopleMentioned: Option<seq<string>>,
    placesMentioned: Option<seq<string>>,
    timePeriod: Option<string>,
    emotionalTone: Option<string>,
    importanceScore: Option<real>)

  const NoChanges := MemoirUpdate(None, None, None, None, None, None, None, None)

  function OrOption<T>(v: Option<T>, current: Option<T>): Option<T> {
    if v.Some? then v else current
  }

  /** Every column given a value takes it; every other column keeps its value. */
  function ApplyUpdate(m: LifeMemoir, u: MemoirUpdate): (r: LifeMemoir)
    ensures r.id == m.id && r.userId == m.userId && r.dateOfMemory == m.dateOfMemory && r.extractedAt == m.extractedAt
  {
    m.(title := Or(u.title, m.title),
       content := Or(u.content, m.content),
       categories := Or(u.categories, m.categories),
       peopleMentioned := Or(u.peopleMentioned, m.peopleMentioned),
       placesMentioned := Or(u.placesMentioned, m.placesMentioned),
       timePeriod := OrOption(u.timePeriod, m.timePeriod),
       emotionalTone := OrOption(u.emotionalTone, m.emotionalTone),
       importanceScore := Or(u.importanceScore, m.importanceScore))
  }

  /**
   * An update without values changes nothing, applying an update twice is
   * applying it once, and each of the eight columns takes its given value or
   * keeps the old one.
   */
  lemma ApplyUpdateSpec(m: LifeMemoir, u: MemoirUpdate)
    ensures ApplyUpdate(m, NoChanges) == m
    ensures ApplyUpdate(ApplyUpdate(m, u), u) == ApplyUpdate(m, u)
    ensures var r := ApplyUpdate(m, u);
            (r.title == if u.title.Some? then u.title.value else m.title) &&
            (r.content == if u.content.Some? then u.content.value else m.content) &&
            (r.categories == if u.categories.Some? then u.categories.value else m.categories) &&
            (r.peopleMentioned == if u.peopleMentioned.Some? then u.peopleMentioned.value else m.peopleMentioned) &&
            (r.placesMentioned == if u.placesMentioned.Some? then u.placesMentioned.value else m.placesMentioned) &&
            (r.timePeriod == if u.timePeriod.Some? then u.timePeriod else m.timePeriod) &&
            (r.emotionalTone == if u.emotionalTone.Some? then u.emotionalTone else m.emotionalTone) &&
            (r.importanceScore == if u.importanceScore.Some? then u.importanceScore.value else m.importanceScore)
    ensures ApplyUpdate(m, u).conversationId == m.conversationId
  {
  }

  /**
   * The row `create_memoir` inserts: the lists not given start empty, and
   * the extraction time is the insert time.
   */
  function NewMemoir(id: string, userId: string, title: string, content: string, conversationId: Option<string>,
                     dateOfMemory: Option<int>, categories: Option<seq<string>>,
                     peopleMentioned: Option<seq<string>>, placesMentioned: Option<seq<string>>,
                     timePeriod: Option<string>, emotionalTone: Option<string>, importanceScore: real,
                     now: int): (r: LifeMemoir)
    ensures r.userId == userId && r.conversationId == conversationId && r.dateOfMemory == dateOfMemory
    ensures categories.None? ==> r.categories == []
    ensures peopleMentioned.None? ==> r.peopleMentioned == []
    ensures placesMentioned.None? ==> r.placesMentioned == []
    ensures categories.Some? ==> r.categories == categories.value
    ensures peopleMentioned.Some? ==> r.peopleMentioned == peopleMentioned.value
    ensures placesMentioned.Some? ==> r.placesMentioned == placesMentioned.value
    ensures r.extractedAt == now
  {
    LifeMemoir(id, userId, conversationId, title, content, dateOfMemory, Or(categories, []),
               Or(peopleMentioned, []), Or(placesMentioned, []), timePeriod, emotionalTone, importanceScore, now)
  }

  /** The position of the first row with `id`, or -1. */
  function IndexOfMemoir(ms: seq<LifeMemoir>, id: string): (i: int)
    ensures -1 <= i < |ms|
    ensures i >= 0 ==> ms[i].id == id && forall j :: 0 <= j < i ==> ms[j].id != id
    ensures i == -1 <==> forall j :: 0 <= j < |ms| ==> ms[j].id != id
  {
    if ms == [] then -1
    else if ms[0].id == id then 0
    else var k := IndexOfMemoir(ms[1..], id); if k == -1 then -1 else k + 1
  }

  // ---------------------------------------------------------------- statistics

  /** All categories of `ms`, with repetitions, in order. */
  function AllCategories(ms: seq<LifeMemoir>): seq<string> {
    if ms == [] then [] else AllCategories(ms[..|ms| - 1]) + ms[|ms| - 1].categories
  }

  datatype MemoirStats = MemoirStats(totalMemoirs: nat, categoryDistribution: map<string, nat>, categoriesCount: nat)

  /**
   * `get_memoir_stats` as written: the average importance is asked of
   * `db.func`, an attribute a database session does not have, so every call
   * ends in the error branch and returns the zero counts.
   */
  function MemoirStatsAsWritten(memoirs: seq<LifeMemoir>, userId: string): (s: MemoirStats)
    ensures s.totalMemoirs == 0 && s.categoryDistribution == map[] && s.categoriesCount == 0
  {
    MemoirStats(0, map[], 0)
  }

  /** As written, a user with memoirs is reported to have none. */
  lemma StatsAsWrittenMissMemoirs(memoirs: seq<LifeMemoir>, userId: string)
    requires OfUser(memoirs, userId) != []
    ensures MemoirStatsAsWritten(memoirs, userId).totalMemoirs != |OfUser(memoirs, userId)|
  {
  }

  /** `counts` holds, for every string of `xs`, how often it occurs there, and nothing else. */
  ghost predicate Tally(counts: map<string, nat>, xs: seq<string>) {
    (forall c :: c in counts <==> c in xs) &&
    (forall c :: c in counts ==> counts[c] == multiset(xs)[c])
  }

  /** The inner loop of `get_memoir_stats`: one memoir's categories added to the counts. */
  method AddToTally(counts: map<string, nat>, cats: seq<string>, ghost seen: seq<string>) returns (r: map<string, nat>)
    requires Tally(counts, seen)
    ensures Tally(r, seen + cats)
  {
    r := counts;
    for j := 0 to |cats|
      invariant Tally(r, seen + cats[..j])
    {
      var cat := cats[j];
      CategoryTallyStep(r, seen, cats, j);
      r := r[cat := (if cat in r then r[cat] else 0) + 1];
    }
    assert cats[..|cats|] == cats;
  }

  /** Counting one more category keeps the tally right. */
  lemma CategoryTallyStep(r: map<string, nat>, seen: seq<string>, cats: seq<string>, j: nat)
    requires j < |cats| && Tally(r, seen + cats[..j])
    ensures Tally(r[cats[j] := (if cats[j] in r then r[cats[j]] else 0) + 1], seen + cats[..j + 1])
  {
    assert seen + cats[..j + 1] == (seen + cats[..j]) + [cats[j]];
  }

  // ---------------------------------------------------------------- export

  function Repeat(c: char, n: nat): (r: string)
    ensures |r| == n && forall i :: 0 <= i < n ==> r[i] == c
  {
    if n == 0 then "" else [c] + Repeat(c, n - 1)
  }

  const ExportHeading := "=== NHỮNG CÂU CHUYỆN ĐỜI CỦA TÔI ===\n"

  /** The lines one memoir contributes to the export; `showDate` renders a day number as Python prints a date. */
  function ExportLines(m: LifeMemoir, showDate: int -> string): (r: seq<string>)
    ensures |r| >= 5 && r[|r| - 2] == m.content
  {
    var rule := Repeat('=', 50);
    ["\n" + rule, "Tiêu đề: " + m.title]
    + (if m.dateOfMemory.Some? then ["Thời gian: " + showDate(m.dateOfMemory.value)] else [])
    + (if Truthy(m.timePeriod) then ["Giai đoạn: " + m.timePeriod.value] else [])
    + (if m.categories != [] then ["Chủ đề: " + Join(m.categories, ", ")] else [])
    + [rule + "\n", m.content, "\n"]
  }

  function ExportBody(ms: seq<LifeMemoir>, showDate: int -> string): seq<string> {
    if ms == [] then [] else ExportBody(ms[..|ms| - 1], showDate) + ExportLines(ms[|ms| - 1], showDate)
  }

  /** Every memoir's content is one of the export lines. */
  lemma {:induction false} ExportHoldsContents(ms: seq<LifeMemoir>, showDate: int -> string)
    ensures forall i :: 0 <= i < |ms| ==> ms[i].content in ExportBody(ms, showDate)
  {
    if ms != [] {
      var init := ms[..|ms| - 1];
      ExportHoldsContents(init, showDate);
      var lines := ExportLines(ms[|ms| - 1], showDate);
      var before := ExportBody(init, showDate);
      assert ExportBody(ms, showDate) == before + lines;
      forall i | 0 <= i < |ms| ensures ms[i].content in before + lines {
        if i < |init| {
          assert ms[i] == init[i];
          assert ms[i].content in before;
        } else {
          assert ms[i].content == lines[|lines| - 2];
        }
      }
    }
  }

  class MemoirDBService {
    var memoirs: seq<LifeMemoir>

    constructor ()
      ensures memoirs == []
    {
      memoirs := [];
    }

    /**
     * `create_memoir`: the new row is appended; when the database refuses the
     * insert (`succeeds` false) nothing is added and there is no row.
     */
    method CreateMemoir(id: string, userId: string, title: string, content: string, conversationId: Option<string>,
                        dateOfMemory: Option<int>, categories: Option<seq<string>>,
                        peopleMentioned: Option<seq<string>>, placesMentioned: Option<seq<string>>,
                        timePeriod: Option<string>, emotionalTone: Option<string>,
                        importanceScore: real, now: int, succeeds: bool) returns (r: Option<LifeMemoir>)
      modifies this
      ensures r.Some? <==> succeeds
      ensures succeeds ==> r.value == NewMemoir(id, userId, title, content, conversationId, dateOfMemory, categories,
                                                peopleMentioned, placesMentioned, timePeriod, emotionalTone,
                                                importanceScore, now) &&
                           memoirs == old(memoirs) + [r.value]
      ensures !succeeds ==> memoirs == old(memoirs)
    {
      if !succeeds {
        return None;
      }
      var m := NewMemoir(id, userId, title, content, conversationId, dateOfMemory, categories, peopleMentioned,
                         placesMentioned, timePeriod, emotionalTone, importanceScore, now);
      memoirs := memoirs + [m];
      r := Some(m);
    }

    /**
     * `get_memoir_categories`, `get_memoir_people`, `get_memoir_places`: the
     * values of one list column over the user's memoirs, without repetition,
     * in code-point order.
     */
    method GetDistinctTags(userId: string, column: TagColumn) returns (r: seq<string>)
      ensures StrictlySorted(r)
      ensures forall y :: y in r <==> exists i :: 0 <= i < |OfUser(memoirs, userId)| && y in Tags(OfUser(memoirs, userId)[i], column)
    {
      var mine := OfUser(memoirs, userId);
      var seen: seq<string> := [];
      for i := 0 to |mine|
        invariant forall y :: y in seen <==> exists j :: 0 <= j < i && y in Tags(mine[j], column)
      {
        seen := seen + Tags(mine[i], column);
      }
      SortedDistinctSpec(seen);
      r := SortedDistinct(seen);
    }

    /** `get_memoir_timeline`: the user's memoirs in date order, grouped by period in order of first appearance. */
    method GetMemoirTimeline(userId: string) returns (timeline: seq<TimelineEntry>)
      ensures timeline == Timeline(Chronological(OfUser(memoirs, userId)))
    {
      var ordered := Chronological(OfUser(memoirs, userId));
      var order, groups := GroupByPeriod(ordered);
      timeline := GroupsInOrder(ordered, order, groups);
    }

    /** `update_memoir`: the first row with the id takes the given values; false and no change without one. */
    method UpdateMemoir(memoirId: string, u: MemoirUpdate) returns (ok: bool)
      modifies this
      ensures ok <==> IndexOfMemoir(old(memoirs), memoirId) != -1
      ensures ok ==> var i := IndexOfMemoir(old(memoirs), memoirId);
                     memoirs == old(memoirs)[i := ApplyUpdate(old(memoirs)[i], u)]
      ensures !ok ==> memoirs == old(memoirs)
    {
      var i := IndexOfMemoir(memoirs, memoirId);
      if i == -1 {
        return false;
      }
      memoirs := memoirs[i := ApplyUpdate(memoirs[i], u)];
      return true;
    }

    /**
     * The counts of `get_memoir_stats`: the number of the user's memoirs, how
     * often each category occurs across them, and how many distinct
     * categories there are.
     */
    method GetMemoirStats(userId: string) returns (stats: MemoirStats)
      ensures var mine := OfUser(memoirs, userId);
              stats.totalMemoirs == |mine| &&
              Tally(stats.categoryDistribution, AllCategories(mine)) &&
              stats.categoriesCount == |stats.categoryDistribution|
    {
      var mine := OfUser(memoirs, userId);
      var counts: map<string, nat> := map[];
      for i := 0 to |mine|
        invariant Tally(counts, AllCategories(mine[..i]))
      {
        assert mine[..i + 1][..i] == mine[..i];
        counts := AddToTally(counts, mine[i].categories, AllCategories(mine[..i]));
      }
      assert mine[..|mine|] == mine;
      stats := MemoirStats(|mine|, counts, |counts|);
    }

    /** `export_memoirs_for_family`: the text export, in date order; any other format gives nothing. */
    function ExportMemoirsForFamily(userId: string, formatType: string, showDate: int -> string): (r: Option<string>)
      reads this
      ensures r.Some? <==> formatType == "text"
    {
      if formatType == "text" then
        Some(Join([ExportHeading] + ExportBody(Chronological(OfUser(memoirs, userId)), showDate), "\n"))
      else None
    }
  }
}
