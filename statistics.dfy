/**
 * The attendance statistics page (pages/statistiken/index.tsx): per-event
 * and per-singer attendance derived from the attendance records, the
 * per-voice-group split of each event, the absence counts and the table of
 * singers per voice group.
 */
module Statistics {
  import opened Seqs
  import opened VoiceGroups

  datatype Singer = Singer(id: string, firstName: string, lastName: string, voiceGroup: VoiceGroup)
  datatype Event = Event(id: string, summary: string, start: string)
  /** One `EventAttendance` record. */
  datatype Attendance = Attendance(eventId: string, singerId: string)

  datatype EventAttendance = EventAttendance(event: Event, singers: seq<Singer>, total: nat)
  datatype SingerAttendance = SingerAttendance(singer: Singer, events: seq<Event>, total: nat)
  datatype VoiceGroupBucket = VoiceGroupBucket(singers: seq<Singer>, voiceGroup: VoiceGroup)
  datatype EventRow = EventRow(count: nat, start: string, summary: string, id: string)
  datatype SingerRow = SingerRow(firstName: string, lastName: string, voiceGroup: VoiceGroup, absenceCount: int, id: string)

  /** There is a record of the singer at the event. */
  predicate Attended(data: seq<Attendance>, eventId: string, singerId: string) {
    exists i :: 0 <= i < |data| && data[i].eventId == eventId && data[i].singerId == singerId
  }

  /** `data.filter(d => d.eventId === eventId).map(d => d.singerId)` */
  function SingerIdsAt(data: seq<Attendance>, eventId: string): (r: seq<string>)
    ensures forall id :: id in r <==> Attended(data, eventId, id)
  {
    if data == [] then []
    else
      var rest := SingerIdsAt(data[1..], eventId);
      assert forall id :: Attended(data, eventId, id) <==>
        (data[0].eventId == eventId && data[0].singerId == id) || Attended(data[1..], eventId, id) by {
        forall id | Attended(data[1..], eventId, id)
          ensures Attended(data, eventId, id)
        {
          var i :| 0 <= i < |data[1..]| && data[1..][i].eventId == eventId && data[1..][i].singerId == id;
          assert data[i + 1] == data[1..][i];
        }
        forall id | Attended(data, eventId, id) && !(data[0].eventId == eventId && data[0].singerId == id)
          ensures Attended(data[1..], eventId, id)
        {
          var i :| 0 <= i < |data| && data[i].eventId == eventId && data[i].singerId == id;
          assert data[1..][i - 1] == data[i];
        }
      }
      if data[0].eventId == eventId then [data[0].singerId] + rest else rest
  }

  /** `data.filter(d => d.singerId === singerId).map(d => d.eventId)` */
  function EventIdsOf(data: seq<Attendance>, singerId: string): (r: seq<string>)
    ensures forall id :: id in r <==> Attended(data, id, singerId)
  {
    if data == [] then []
    else
      var rest := EventIdsOf(data[1..], singerId);
      assert forall id :: Attended(data, id, singerId) <==>
        (data[0].eventId == id && data[0].singerId == singerId) || Attended(data[1..], id, singerId) by {
        forall id | Attended(data[1..], id, singerId)
          ensures Attended(data, id, singerId)
        {
          var i :| 0 <= i < |data[1..]| && data[1..][i].eventId == id && data[1..][i].singerId == singerId;
          assert data[i + 1] == data[1..][i];
        }
        forall id | Attended(data, id, singerId) && !(data[0].eventId == id && data[0].singerId == singerId)
          ensures Attended(data[1..], id, singerId)
        {
          var i :| 0 <= i < |data| && data[i].eventId == id && data[i].singerId == singerId;
          assert data[1..][i - 1] == data[i];
        }
      }
      if data[0].singerId == singerId then [data[0].eventId] + rest else rest
  }

  /** One entry of `attendanceByEvent`: the singers with a record for the event. */
  function ForEvent(data: seq<Attendance>, singers: seq<Singer>, event: Event): (r: EventAttendance)
    ensures r.event == event && r.total == |r.singers| && IsSubsequence(r.singers, singers)
    ensures forall i :: 0 <= i < |singers| ==> (singers[i] in r.singers <==> Attended(data, event.id, singers[i].id))
    ensures forall i :: 0 <= i < |r.singers| ==> Attended(data, event.id, r.singers[i].id)
  {
    var ids := SingerIdsAt(data, event.id);
    var eventSingers := Filter(singers, (s: Singer) => s.id in ids);
    FilterIsSubsequence(singers, (s: Singer) => s.id in ids);
    EventAttendance(event, eventSingers, |eventSingers|)
  }

  /** `attendanceByEvent`: one entry per event, in event order. */
  function AttendanceByEvent(data: seq<Attendance>, events: seq<Event>, singers: seq<Singer>): (r: seq<EventAttendance>)
    ensures |r| == |events|
    ensures forall k :: 0 <= k < |r| ==> r[k] == ForEvent(data, singers, events[k])
  {
    seq(|events|, k requires 0 <= k < |events| => ForEvent(data, singers, events[k]))
  }

  /** One entry of `attendanceBySinger`: the events the singer has a record for. */
  function ForSinger(data: seq<Attendance>, events: seq<Event>, singer: Singer): (r: SingerAttendance)
    ensures r.singer == singer && r.total == |r.events| && IsSubsequence(r.events, events)
    ensures forall i :: 0 <= i < |events| ==> (events[i] in r.events <==> Attended(data, events[i].id, singer.id))
    ensures forall i :: 0 <= i < |r.events| ==> Attended(data, r.events[i].id, singer.id)
  {
    var ids := EventIdsOf(data, singer.id);
    var singerEvents := Filter(events, (e: Event) => e.id in ids);
    FilterIsSubsequence(events, (e: Event) => e.id in ids);
    SingerAttendance(singer, singerEvents, |singerEvents|)
  }

  /** `attendanceBySinger` */
  function AttendanceBySinger(data: seq<Attendance>, events: seq<Event>, singers: seq<Singer>): (r: seq<SingerAttendance>)
    ensures |r| == |singers|
    ensures forall k :: 0 <= k < |r| ==> r[k] == ForSinger(data, events, singers[k])
  {
    seq(|singers|, k requires 0 <= k < |singers| => ForSinger(data, events, singers[k]))
  }

  /** A record that is already present changes no event's total. */
  lemma DuplicateRecordsDoNotCount(data: seq<Attendance>, singers: seq<Singer>, event: Event, d: Attendance)
    requires d in data
    ensures ForEvent(data + [d], singers, event) == ForEvent(data, singers, event)
  {
    var ids := SingerIdsAt(data, event.id);
    var ids' := SingerIdsAt(data + [d], event.id);
    forall id
      ensures Attended(data + [d], event.id, id) <==> Attended(data, event.id, id)
    {
      if Attended(data + [d], event.id, id) {
        var i :| 0 <= i < |data + [d]| && (data + [d])[i].eventId == event.id && (data + [d])[i].singerId == id;
        if i == |data| {
          var j :| 0 <= j < |data| && data[j] == d;
          assert data[j].eventId == event.id && data[j].singerId == id;
        } else {
          assert data[i] == (data + [d])[i];
        }
      }
      if Attended(data, event.id, id) {
        var i :| 0 <= i < |data| && data[i].eventId == event.id && data[i].singerId == id;
        assert (data + [d])[i] == data[i];
      }
    }
    FilterCongruent(singers, (s: Singer) => s.id in ids', (s: Singer) => s.id in ids);
  }

  /** The ids of a list of singers are pairwise different (Prisma's `distinct: ['singerId']`). */
  predicate DistinctIds(singers: seq<Singer>) {
    forall i, j :: 0 <= i < j < |singers| ==> singers[i].id != singers[j].id
  }

  /** The singer ids among `singers` that have a record for the event. */
  function AttendingIds(data: seq<Attendance>, singers: seq<Singer>, eventId: string): set<string> {
    set i | 0 <= i < |singers| && Attended(data, eventId, singers[i].id) :: singers[i].id
  }

  /**
   * With singers listed once each, an event's total is the number of
   * different singers with a record for it: repeated records do not inflate it.
   */
  lemma {:induction false} TotalCountsDistinctSingers(data: seq<Attendance>, singers: seq<Singer>, event: Event)
    requires DistinctIds(singers)
    ensures ForEvent(data, singers, event).total == |AttendingIds(data, singers, event.id)|
  {
    var ids := SingerIdsAt(data, event.id);
    FilterCountsIds(singers, ids, data, event.id);
  }

  lemma {:induction false} FilterCountsIds(singers: seq<Singer>, ids: seq<string>, data: seq<Attendance>, eventId: string)
    requires DistinctIds(singers)
    requires forall id :: id in ids <==> Attended(data, eventId, id)
    ensures |Filter(singers, (s: Singer) => s.id in ids)| == |AttendingIds(data, singers, eventId)|
  {
    if singers != [] {
      var rest := singers[1..];
      assert DistinctIds(rest);
      FilterCountsIds(rest, ids, data, eventId);
      AttendingIdsStep(data, singers, eventId);
    }
  }

  lemma AttendingIdsStep(data: seq<Attendance>, singers: seq<Singer>, eventId: string)
    requires singers != [] && DistinctIds(singers)
    ensures singers[0].id !in AttendingIds(data, singers[1..], eventId)
    ensures AttendingIds(data, singers, eventId) ==
      (if Attended(data, eventId, singers[0].id) then {singers[0].id} else {}) + AttendingIds(data, singers[1..], eventId)
  {
    var rest := singers[1..];
    var a := AttendingIds(data, singers, eventId);
    var b := AttendingIds(data, rest, eventId);
    forall x | x in a && x != singers[0].id
      ensures x in b
    {
      var i :| 0 <= i < |singers| && Attended(data, eventId, singers[i].id) && singers[i].id == x;
      assert rest[i - 1] == singers[i];
    }
    forall x | x in b
      ensures x in a
    {
      var i :| 0 <= i < |rest| && Attended(data, eventId, rest[i].id) && rest[i].id == x;
      assert singers[i + 1] == rest[i];
    }
  }

  /** `s => s.voiceGroup === vg` */
  function InGroup(vg: VoiceGroup): Singer -> bool {
    (s: Singer) => s.voiceGroup == vg
  }

  /** `voiceGroups.map(vg => ({ singers: ea.singers.filter(s => s.voiceGroup === vg), voiceGroup: vg }))` */
  function Buckets(singers: seq<Singer>): (r: seq<VoiceGroupBucket>)
    ensures |r| == |AllVoiceGroups|
    ensures forall k :: 0 <= k < |r| ==> r[k].voiceGroup == AllVoiceGroups[k]
    ensures forall k :: 0 <= k < |r| ==> r[k].singers == Filter(singers, InGroup(AllVoiceGroups[k]))
  {
    seq(|AllVoiceGroups|, k requires 0 <= k < |AllVoiceGroups| =>
      VoiceGroupBucket(Filter(singers, InGroup(AllVoiceGroups[k])), AllVoiceGroups[k]))
  }

  /** `eventAttendanceByVoiceGroup` */
  function EventAttendanceByVoiceGroup(byEvent: seq<EventAttendance>): (r: seq<seq<VoiceGroupBucket>>)
    ensures |r| == |byEvent| && forall k :: 0 <= k < |r| ==> r[k] == Buckets(byEvent[k].singers)
  {
    seq(|byEvent|, k requires 0 <= k < |byEvent| => Buckets(byEvent[k].singers))
  }

  function BucketSizes(buckets: seq<VoiceGroupBucket>): nat {
    if buckets == [] then 0 else |buckets[0].singers| + BucketSizes(buckets[1..])
  }

  /** The number of voice groups in `gs` equal to `g`. */
  function Occurrences(gs: seq<VoiceGroup>, g: VoiceGroup): nat {
    if gs == [] then 0 else (if gs[0] == g then 1 else 0) + Occurrences(gs[1..], g)
  }

  function GroupSizes(singers: seq<Singer>, gs: seq<VoiceGroup>): nat {
    if gs == [] then 0 else |Filter(singers, InGroup(gs[0]))| + GroupSizes(singers, gs[1..])
  }

  lemma {:induction false} GroupSizesCons(x: Singer, rest: seq<Singer>, gs: seq<VoiceGroup>)
    ensures GroupSizes([x] + rest, gs) == GroupSizes(rest, gs) + Occurrences(gs, x.voiceGroup)
  {
    if gs != [] {
      GroupSizesCons(x, rest, gs[1..]);
      assert ([x] + rest)[1..] == rest;
    }
  }

  lemma {:induction false} GroupSizesAll(singers: seq<Singer>)
    ensures GroupSizes(singers, AllVoiceGroups) == |singers|
  {
    if singers != [] {
      GroupSizesAll(singers[1..]);
      assert singers == [singers[0]] + singers[1..];
      GroupSizesCons(singers[0], singers[1..], AllVoiceGroups);
      OccursOnce(singers[0].voiceGroup);
    } else {
      NoSingersNoSizes(AllVoiceGroups);
    }
  }

  lemma {:induction false} NoSingersNoSizes(gs: seq<VoiceGroup>)
    ensures GroupSizes([], gs) == 0
  {
    if gs != [] {
      NoSingersNoSizes(gs[1..]);
    }
  }

  /** The enum list names every voice group exactly once. */
  lemma OccursOnce(g: VoiceGroup)
    ensures Occurrences(AllVoiceGroups, g) == 1
  {
    AllVoiceGroupsListed(g);
    OccurrencesOfDistinct(AllVoiceGroups, g);
  }

  lemma {:induction false} OccurrencesOfDistinct(gs: seq<VoiceGroup>, g: VoiceGroup)
    requires forall i, j :: 0 <= i < j < |gs| ==> gs[i] != gs[j]
    ensures Occurrences(gs, g) == if g in gs then 1 else 0
  {
    if gs != [] {
      OccurrencesOfDistinct(gs[1..], g);
    }
  }

  /** Buckets filtered group by group hold as many singers as the groups select. */
  lemma {:induction false} BucketSizesAreGroupSizes(singers: seq<Singer>, buckets: seq<VoiceGroupBucket>, gs: seq<VoiceGroup>)
    requires |buckets| == |gs|
    requires forall k :: 0 <= k < |gs| ==> buckets[k].singers == Filter(singers, InGroup(gs[k]))
    ensures BucketSizes(buckets) == GroupSizes(singers, gs)
  {
    if gs != [] {
      BucketSizesAreGroupSizes(singers, buckets[1..], gs[1..]);
    }
  }

  /**
   * The buckets of an event partition its singers: each singer is in the
   * bucket of its own voice group and in no other, and the bucket sizes add up
   * to the event's total.
   */
  lemma BucketsPartition(singers: seq<Singer>)
    ensures BucketSizes(Buckets(singers)) == |singers|
    ensures forall i, k :: 0 <= i < |singers| && 0 <= k < |AllVoiceGroups| ==>
      (singers[i] in Buckets(singers)[k].singers <==> singers[i].voiceGroup == AllVoiceGroups[k])
  {
    BucketSizesAreGroupSizes(singers, Buckets(singers), AllVoiceGroups);
    GroupSizesAll(singers);
    forall i, k | 0 <= i < |singers| && 0 <= k < |AllVoiceGroups| && singers[i] in Buckets(singers)[k].singers
      ensures singers[i].voiceGroup == AllVoiceGroups[k]
    {
      var b := Buckets(singers)[k].singers;
      var j :| 0 <= j < |b| && b[j] == singers[i];
    }
  }

  /** `eventAttendanceRows` */
  function EventRows(byEvent: seq<EventAttendance>): (r: seq<EventRow>)
    ensures |r| == |byEvent|
    ensures forall k :: 0 <= k < |r| ==>
      (r[k].count == byEvent[k].total && r[k].id == byEvent[k].event.id
       && r[k].start == byEvent[k].event.start && r[k].summary == byEvent[k].event.summary)
  {
    seq(|byEvent|, k requires 0 <= k < |byEvent| =>
      EventRow(byEvent[k].total, byEvent[k].event.start, byEvent[k].event.summary, byEvent[k].event.id))
  }

  /** `a => a.singer.id`, the key the singer rows look attendance up by. */
  function AttendanceSingerId(): SingerAttendance -> string {
    (a: SingerAttendance) => a.singer.id
  }

  /** `singersAttendanceRows`: absences are the events minus the attended ones, found by singer id. */
  function SingerRows(allSingers: seq<Singer>, bySinger: seq<SingerAttendance>, eventCount: nat): (r: seq<SingerRow>)
    ensures |r| == |allSingers|
  {
    seq(|allSingers|, k requires 0 <= k < |allSingers| =>
      var s := allSingers[k];
      var attendanceCount := FindBy(bySinger, AttendanceSingerId(), s.id).GetOr(
        SingerAttendance(s, [], 0)).total;
      SingerRow(s.firstName, s.lastName, s.voiceGroup, eventCount - attendanceCount, s.id))
  }

  /**
   * Every singer's absence count lies between 0 and the number of events; a
   * singer without any attendance record is absent from every event, and one
   * with records is absent from exactly the events without a record.
   */
  lemma AbsenceRules(data: seq<Attendance>, events: seq<Event>, singers: seq<Singer>, allSingers: seq<Singer>, k: int)
    requires 0 <= k < |allSingers|
    ensures var row := SingerRows(allSingers, AttendanceBySinger(data, events, singers), |events|)[k];
      && 0 <= row.absenceCount <= |events|
      && row.id == allSingers[k].id
      && ((forall i :: 0 <= i < |singers| ==> singers[i].id != allSingers[k].id) ==> row.absenceCount == |events|)
      && (forall i :: (0 <= i < |singers| && singers[i].id == allSingers[k].id
                       && (forall j :: 0 <= j < i ==> singers[j].id != allSingers[k].id)) ==>
            row.absenceCount == |events| - |ForSinger(data, events, singers[i]).events|)
  {
    var bySinger := AttendanceBySinger(data, events, singers);
    var s := allSingers[k];
    var found := FindBy(bySinger, AttendanceSingerId(), s.id);
    FindAttendance(data, events, singers, s.id);
    assert SingerRows(allSingers, bySinger, |events|)[k].absenceCount == |events| - found.GetOr(SingerAttendance(s, [], 0)).total;
  }

  /** Looking a singer up among the attendance rows finds the row of the first singer with that id. */
  lemma FindAttendance(data: seq<Attendance>, events: seq<Event>, singers: seq<Singer>, id: string)
    ensures var found := FindBy(AttendanceBySinger(data, events, singers), AttendanceSingerId(), id);
      && (found.None? <==> forall i :: 0 <= i < |singers| ==> singers[i].id != id)
      && (found.Some? ==> found.value.total <= |events|)
      && (forall i :: (0 <= i < |singers| && singers[i].id == id && (forall j :: 0 <= j < i ==> singers[j].id != id)) ==>
            found == Some(ForSinger(data, events, singers[i])))
  {
    var bySinger := AttendanceBySinger(data, events, singers);
    var key := AttendanceSingerId();
    assert forall j :: 0 <= j < |bySinger| ==> key(bySinger[j]) == singers[j].id;
    forall i | 0 <= i < |singers| && singers[i].id == id && (forall j :: 0 <= j < i ==> singers[j].id != id)
      ensures FindBy(bySinger, key, id) == Some(ForSinger(data, events, singers[i]))
    {
      FindByFirst(bySinger, key, id, i);
    }
  }

  /** One row of the voice-group table: the group, its count and the row's index as id. */
  datatype GroupRow = GroupRow(voiceGroup: VoiceGroup, count: nat, id: nat)

  /**
   * The `singersByVoiceGroup` object, as its entries in insertion order (the
   * order `Object.entries` returns for string keys). Writing a key that is
   * present replaces its value in place; a new key goes to the end.
   */
  function Put(dict: seq<(VoiceGroup, nat)>, g: VoiceGroup, count: nat): (r: seq<(VoiceGroup, nat)>)
    ensures |r| == |dict| || |r| == |dict| + 1
  {
    if dict == [] then [(g, count)]
    else if dict[0].0 == g then [(g, count)] + dict[1..]
    else [dict[0]] + Put(dict[1..], g, count)
  }

  /** The value of a key, if present. */
  function Lookup(dict: seq<(VoiceGroup, nat)>, g: VoiceGroup): Option<nat> {
    if dict == [] then None
    else if dict[0].0 == g then Some(dict[0].1)
    else Lookup(dict[1..], g)
  }

  /** The dictionary after writing every group-by result, in order. */
  function PutAll(groups: seq<(VoiceGroup, nat)>): seq<(VoiceGroup, nat)> {
    if groups == [] then [] else Put(PutAll(groups[..|groups| - 1]), groups[|groups| - 1].0, groups[|groups| - 1].1)
  }

  lemma PutLookup(dict: seq<(VoiceGroup, nat)>, g: VoiceGroup, count: nat, h: VoiceGroup)
    ensures Lookup(Put(dict, g, count), h) == if h == g then Some(count) else Lookup(dict, h)
  {
    if h == g {
      PutLookupSame(dict, g, count);
    } else {
      PutLookupOther(dict, g, count, h);
    }
  }

  lemma {:induction false} PutLookupSame(dict: seq<(VoiceGroup, nat)>, g: VoiceGroup, count: nat)
    ensures Lookup(Put(dict, g, count), g) == Some(count)
  {
    if dict != [] && dict[0].0 != g {
      PutLookupSame(dict[1..], g, count);
      var r := Put(dict, g, count);
      assert r[1..] == Put(dict[1..], g, count);
    }
  }

  lemma {:induction false} PutLookupOther(dict: seq<(VoiceGroup, nat)>, g: VoiceGroup, count: nat, h: VoiceGroup)
    requires h != g
    ensures Lookup(Put(dict, g, count), h) == Lookup(dict, h)
  {
    if dict != [] {
      var r := Put(dict, g, count);
      if dict[0].0 == g {
        assert r[0].0 == g && r[1..] == dict[1..];
        assert Lookup(r, h) == Lookup(dict[1..], h);
      } else if dict[0].0 != h {
        PutLookupOther(dict[1..], g, count, h);
        assert r[0] == dict[0] && r[1..] == Put(dict[1..], g, count);
        assert Lookup(r, h) == Lookup(Put(dict[1..], g, count), h);
      } else {
        assert r[0] == dict[0];
      }
    }
  }

  /** Every group appears at most once. */
  predicate DistinctGroups(groups: seq<(VoiceGroup, nat)>) {
    forall i, j :: 0 <= i < j < |groups| ==> groups[i].0 != groups[j].0
  }

  lemma {:induction false} PutAbsentAppends(dict: seq<(VoiceGroup, nat)>, g: VoiceGroup, count: nat)
    requires forall i :: 0 <= i < |dict| ==> dict[i].0 != g
    ensures Put(dict, g, count) == dict + [(g, count)]
  {
    if dict != [] {
      PutAbsentAppends(dict[1..], g, count);
    }
  }

  /**
   * Each group maps to the count of its last group-by row, and groups without
   * a row are absent.
   */
  lemma {:induction false} PutAllLookup(groups: seq<(VoiceGroup, nat)>, g: VoiceGroup)
    ensures Lookup(PutAll(groups), g).None? <==> forall i :: 0 <= i < |groups| ==> groups[i].0 != g
    ensures forall i :: 0 <= i < |groups| && groups[i].0 == g && (forall j :: i < j < |groups| ==> groups[j].0 != g) ==>
      Lookup(PutAll(groups), g) == Some(groups[i].1)
  {
    if groups != [] {
      var n := |groups| - 1;
      var init := groups[..n];
      var last := groups[n];
      PutAllLookup(init, g);
      PutLookup(PutAll(init), last.0, last.1, g);
      assert PutAll(groups) == Put(PutAll(init), last.0, last.1);
      assert forall i :: 0 <= i < n ==> init[i] == groups[i];
      if last.0 == g {
        forall i | 0 <= i < |groups| && groups[i].0 == g && (forall j :: i < j < |groups| ==> groups[j].0 != g)
          ensures i == n
        {
        }
      }
    }
  }

  /**
   * When the group-by rows name every group at most once (as `groupBy`
   * returns them), the entries are those rows in their order.
   */
  lemma {:induction false} PutAllOfDistinct(groups: seq<(VoiceGroup, nat)>)
    requires DistinctGroups(groups)
    ensures PutAll(groups) == groups
  {
    if groups != [] {
      var init := groups[..|groups| - 1];
      var last := groups[|groups| - 1];
      assert DistinctGroups(init);
      PutAllOfDistinct(init);
      forall i | 0 <= i < |init|
        ensures init[i].0 != last.0
      {
        assert init[i] == groups[i];
      }
      PutAbsentAppends(init, last.0, last.1);
      assert init + [last] == groups;
    }
  }

  /** The `forEach` that copies the group-by rows into `singersByVoiceGroup`. */
  method BuildSingersByVoiceGroup(groups: seq<(VoiceGroup, nat)>) returns (dict: seq<(VoiceGroup, nat)>)
    ensures dict == PutAll(groups)
  {
    dict := [];
    var i := 0;
    while i < |groups|
      invariant 0 <= i <= |groups|
      invariant dict == PutAll(groups[..i])
    {
      assert groups[..i + 1][..i] == groups[..i];
      dict := Put(dict, groups[i].0, groups[i].1);
      i := i + 1;
    }
    assert groups[..i] == groups;
  }

  /** `singersByVoiceGroupRows`: one row per entry, its position as id. */
  function GroupRows(dict: seq<(VoiceGroup, nat)>): (r: seq<GroupRow>)
    ensures |r| == |dict|
    ensures forall k :: 0 <= k < |r| ==> r[k] == GroupRow(dict[k].0, dict[k].1, k)
  {
    seq(|dict|, k requires 0 <= k < |dict| => GroupRow(dict[k].0, dict[k].1, k))
  }

  /** Row ids are the list indices, hence pairwise different. */
  lemma GroupRowIdsAreIndices(dict: seq<(VoiceGroup, nat)>)
    ensures forall i, j :: 0 <= i < j < |GroupRows(dict)| ==> GroupRows(dict)[i].id != GroupRows(dict)[j].id
    ensures forall k :: 0 <= k < |GroupRows(dict)| ==> GroupRows(dict)[k].id == k
  {
  }
}
