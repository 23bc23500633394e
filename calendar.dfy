/**
 * The appointment store: the session's list of appointments, the external
 * (Google) calendar connection flag, the last synchronisation time and the
 * synchronisation status, with the operations that create, update, delete,
 * look up and filter appointments and that connect, disconnect and sync.
 *
 * Dates are integer millisecond timestamps in local wall-clock time, and the
 * clock (`Date.now()`, `new Date()`) is an explicit `now` parameter.
 */
module Calendar {
  import opened Wrappers
  import Decimal

  /** Milliseconds in a calendar day. */
  const MsPerDay: nat := 86_400_000

  datatype AppointmentType = InPerson | Virtual | Phone
  datatype Status = Scheduled | Completed | Cancelled
  datatype SyncStatus = Idle | Syncing | Success | Error

  /** One appointment record. `kind` is the source's `type` field. */
  datatype Appointment = Appointment(
    id: string,
    patientId: Option<string>,
    therapistId: Option<string>,
    patientName: Option<string>,
    therapistName: Option<string>,
    date: int,
    startTime: string,
    endTime: string,
    duration: string,
    kind: AppointmentType,
    status: Status,
    location: Option<string>,
    notes: Option<string>,
    avatar: Option<string>,
    googleEventId: Option<string>,
    createdAt: int,
    updatedAt: int)

  /**
   * A `Partial<Appointment>`: `None` means the key is absent. For the optional
   * fields `Some(None)` is a key that is present with the value `undefined`.
   */
  datatype Patch = Patch(
    id: Option<string>,
    patientId: Option<Option<string>>,
    therapistId: Option<Option<string>>,
    patientName: Option<Option<string>>,
    therapistName: Option<Option<string>>,
    date: Option<int>,
    startTime: Option<string>,
    endTime: Option<string>,
    duration: Option<string>,
    kind: Option<AppointmentType>,
    status: Option<Status>,
    location: Option<Option<string>>,
    notes: Option<Option<string>>,
    avatar: Option<Option<string>>,
    googleEventId: Option<Option<string>>,
    createdAt: Option<int>,
    updatedAt: Option<int>)

  /** The patch with no keys at all (`{}`). */
  const NoChanges := Patch(None, None, None, None, None, None, None, None, None,
                           None, None, None, None, None, None, None, None)

  /** The patch that carries every field of `a`, as `{...a}` does. */
  function AllFieldsOf(a: Appointment): (p: Patch) {
    Patch(Some(a.id), Some(a.patientId), Some(a.therapistId), Some(a.patientName),
          Some(a.therapistName), Some(a.date), Some(a.startTime), Some(a.endTime),
          Some(a.duration), Some(a.kind), Some(a.status), Some(a.location), Some(a.notes),
          Some(a.avatar), Some(a.googleEventId), Some(a.createdAt), Some(a.updatedAt))
  }

  /**
   * `{...base, ...p}`: every key present in `p` replaces the field of `base`,
   * whatever its value; every absent key keeps the field of `base`.
   */
  function Merge(base: Appointment, p: Patch): (r: Appointment)
    ensures r.id == p.id.GetOr(base.id)
    ensures r.patientId == p.patientId.GetOr(base.patientId)
    ensures r.therapistId == p.therapistId.GetOr(base.therapistId)
    ensures r.patientName == p.patientName.GetOr(base.patientName)
    ensures r.therapistName == p.therapistName.GetOr(base.therapistName)
    ensures r.date == p.date.GetOr(base.date)
    ensures r.startTime == p.startTime.GetOr(base.startTime)
    ensures r.endTime == p.endTime.GetOr(base.endTime)
    ensures r.duration == p.duration.GetOr(base.duration)
    ensures r.kind == p.kind.GetOr(base.kind)
    ensures r.status == p.status.GetOr(base.status)
    ensures r.location == p.location.GetOr(base.location)
    ensures r.notes == p.notes.GetOr(base.notes)
    ensures r.avatar == p.avatar.GetOr(base.avatar)
    ensures r.googleEventId == p.googleEventId.GetOr(base.googleEventId)
    ensures r.createdAt == p.createdAt.GetOr(base.createdAt)
    ensures r.updatedAt == p.updatedAt.GetOr(base.updatedAt)
  {
    Appointment(
      p.id.GetOr(base.id),
      p.patientId.GetOr(base.patientId),
      p.therapistId.GetOr(base.therapistId),
      p.patientName.GetOr(base.patientName),
      p.therapistName.GetOr(base.therapistName),
      p.date.GetOr(base.date),
      p.startTime.GetOr(base.startTime),
      p.endTime.GetOr(base.endTime),
      p.duration.GetOr(base.duration),
      p.kind.GetOr(base.kind),
      p.status.GetOr(base.status),
      p.location.GetOr(base.location),
      p.notes.GetOr(base.notes),
      p.avatar.GetOr(base.avatar),
      p.googleEventId.GetOr(base.googleEventId),
      p.createdAt.GetOr(base.createdAt),
      p.updatedAt.GetOr(base.updatedAt))
  }

  /** Spreading an empty patch changes nothing. */
  lemma MergeNoChanges(a: Appointment)
    ensures Merge(a, NoChanges) == a
  {
  }

  /** Spreading a patch that carries every field yields exactly the patch's record. */
  lemma MergeAllFields(base: Appointment, a: Appointment)
    ensures Merge(base, AllFieldsOf(a)) == a
  {
  }

  /** Spreading the same patch twice is the same as spreading it once. */
  lemma MergeIdempotent(a: Appointment, p: Patch)
    ensures Merge(Merge(a, p), p) == Merge(a, p)
  {
  }

  /** The id `apt-${Date.now()}` that a new appointment receives unless one is supplied. */
  function FreshId(now: nat): (id: string)
    ensures |id| > 4 && id[..4] == "apt-"
    ensures Decimal.IsDigits(id[4..]) && Decimal.DigitsValue(id[4..]) == now
  {
    Decimal.NatToStringRoundTrip(now);
    assert ("apt-" + Decimal.NatToString(now))[4..] == Decimal.NatToString(now);
    "apt-" + Decimal.NatToString(now)
  }

  /** Distinct clock readings give distinct generated ids. */
  lemma FreshIdInjective(t1: nat, t2: nat)
    ensures FreshId(t1) == FreshId(t2) ==> t1 == t2
  {
    if FreshId(t1) == FreshId(t2) {
      assert FreshId(t1)[4..] == Decimal.NatToString(t1);
      assert FreshId(t2)[4..] == Decimal.NatToString(t2);
      Decimal.NatToStringInjective(t1, t2);
    }
  }

  /** The default record `createAppointment` builds before spreading its input over it. */
  function CreateDefaults(now: nat): (r: Appointment)
    ensures r.id == FreshId(now) && r.date == now && r.createdAt == now && r.updatedAt == now
    ensures r.patientId == Some("patient-1") && r.therapistId == Some("therapist-1")
    ensures r.patientName == Some("New Patient") && r.therapistName == Some("Dr. Sarah Johnson")
    ensures r.startTime == "10:00" && r.endTime == "10:50" && r.duration == "50"
    ensures r.kind == InPerson && r.status == Scheduled
    ensures r.location == Some("") && r.notes == Some("") && r.avatar == Some("")
    ensures r.googleEventId == None
  {
    Appointment(FreshId(now), Some("patient-1"), Some("therapist-1"), Some("New Patient"),
                Some("Dr. Sarah Johnson"), now, "10:00", "10:50", "50", InPerson, Scheduled,
                Some(""), Some(""), Some(""), None, now, now)
  }

  /**
   * The record `createAppointment(data)` builds at time `now`. Each default
   * applies only where `data` lacks the key; every key of `data` wins, even a
   * falsy one, because `data` is spread last.
   */
  function NewAppointment(data: Patch, now: nat): (r: Appointment)
    ensures r.id == if data.id.Some? then data.id.value else FreshId(now)
    ensures r.duration == data.duration.GetOr("50")
    ensures r.kind == data.kind.GetOr(InPerson)
    ensures r.status == data.status.GetOr(Scheduled)
    ensures r.startTime == data.startTime.GetOr("10:00")
    ensures r.endTime == data.endTime.GetOr("10:50")
    ensures r.patientId == data.patientId.GetOr(Some("patient-1"))
    ensures r.therapistId == data.therapistId.GetOr(Some("therapist-1"))
    ensures r.date == data.date.GetOr(now)
    ensures r.patientName == data.patientName.GetOr(Some("New Patient"))
    ensures r.therapistName == data.therapistName.GetOr(Some("Dr. Sarah Johnson"))
    ensures r.location == data.location.GetOr(Some(""))
    ensures r.notes == data.notes.GetOr(Some(""))
    ensures r.avatar == data.avatar.GetOr(Some(""))
    ensures r.createdAt == data.createdAt.GetOr(now)
    ensures r.updatedAt == data.updatedAt.GetOr(now)
    ensures r.googleEventId == data.googleEventId.GetOr(None)
  {
    Merge(CreateDefaults(now), data)
  }

  /** When the input supplies every field, the created record is the input itself. */
  lemma NewAppointmentInputWins(a: Appointment, now: nat)
    ensures NewAppointment(AllFieldsOf(a), now) == a
  {
    MergeAllFields(CreateDefaults(now), a);
  }

  // ---------------------------------------------------------------------------
  // Order-preserving filters

  /** The conditions the store filters by. */
  datatype Selector =
    | DateIs(t: int)                 // the exact timestamp `t`
    | SameDay(day: int)              // the calendar day `day`
    | Between(start: int, end: int)  // `start <= date <= end`
    | IdIsNot(id: string)            // any id but `id`

  predicate Keeps(keep: Selector, a: Appointment) {
    match keep
    case DateIs(t) => a.date == t
    case SameDay(day) => DayOf(a.date) == day
    case Between(start, end) => start <= a.date <= end
    case IdIsNot(id) => a.id != id
  }

  /** `s.filter(keep)`. */
  function Filter(s: seq<Appointment>, keep: Selector): (r: seq<Appointment>)
    ensures |r| <= |s|
    ensures forall a :: a in r <==> a in s && Keeps(keep, a)
  {
    if s == [] then []
    else (if Keeps(keep, s[0]) then [s[0]] else []) + Filter(s[1..], keep)
  }

  /** Filtering distributes over concatenation, so it keeps the original order. */
  lemma {:induction false} FilterConcat(s: seq<Appointment>, t: seq<Appointment>, keep: Selector)
    ensures Filter(s + t, keep) == Filter(s, keep) + Filter(t, keep)
    decreases |s|
  {
    if s != [] {
      assert (s + t)[1..] == s[1..] + t;
      FilterConcat(s[1..], t, keep);
    } else {
      assert s + t == t;
    }
  }

  /** Each record occurs in the filtered list as often as in the list, if kept, and not at all otherwise. */
  lemma {:induction false} FilterCount(s: seq<Appointment>, keep: Selector, a: Appointment)
    ensures multiset(Filter(s, keep))[a] == if Keeps(keep, a) then multiset(s)[a] else 0
    decreases |s|
  {
    if s != [] {
      var head := if Keeps(keep, s[0]) then [s[0]] else [];
      assert multiset(Filter(s, keep)) == multiset(head) + multiset(Filter(s[1..], keep));
      assert s == [s[0]] + s[1..];
      assert multiset(s) == multiset{s[0]} + multiset(s[1..]);
      FilterCount(s[1..], keep, a);
    }
  }

  /** A filter whose condition holds of every record keeps the whole list. */
  lemma {:induction false} FilterKeepsAll(s: seq<Appointment>, keep: Selector)
    requires forall a :: a in s ==> Keeps(keep, a)
    ensures Filter(s, keep) == s
    decreases |s|
  {
    if s != [] {
      FilterKeepsAll(s[1..], keep);
      assert s == [s[0]] + s[1..];
    }
  }

  /** Two conditions that agree on every record of the list select the same records. */
  lemma {:induction false} FilterAgree(s: seq<Appointment>, k1: Selector, k2: Selector)
    requires forall a :: a in s ==> Keeps(k1, a) == Keeps(k2, a)
    ensures Filter(s, k1) == Filter(s, k2)
    decreases |s|
  {
    if s != [] {
      FilterAgree(s[1..], k1, k2);
    }
  }

  // ---------------------------------------------------------------------------
  // Sorting by date

  predicate SortedByDate(s: seq<Appointment>) {
    forall i, j :: 0 <= i < j < |s| ==> s[i].date <= s[j].date
  }

  /** The records of `s` whose timestamp is exactly `t`, in order. */
  function At(s: seq<Appointment>, t: int): (r: seq<Appointment>) {
    Filter(s, DateIs(t))
  }

  /** Inserts `a` before the first record dated strictly after it. */
  function InsertByDate(s: seq<Appointment>, a: Appointment): (r: seq<Appointment>)
    ensures multiset(r) == multiset(s) + multiset{a}
  {
    if s == [] then [a]
    else if a.date < s[0].date then [a] + s
    else
      assert s == [s[0]] + s[1..];
      [s[0]] + InsertByDate(s[1..], a)
  }

  lemma {:induction false} InsertByDateSorted(s: seq<Appointment>, a: Appointment)
    requires SortedByDate(s)
    ensures SortedByDate(InsertByDate(s, a))
    decreases |s|
  {
    if s == [] {
    } else if a.date < s[0].date {
      forall x | x in s ensures a.date <= x.date {
        var i :| 0 <= i < |s| && s[i] == x;
      }
      SortedCons(a, s);
    } else {
      var r := InsertByDate(s[1..], a);
      assert SortedByDate(r) by {
        InsertByDateSorted(s[1..], a);
      }
      forall x | x in r ensures s[0].date <= x.date {
        assert x in multiset(r);
        assert x in multiset(s[1..]) || x == a;
      }
      SortedCons(s[0], r);
    }
  }

  /** Records dated elsewhere than `t` are ignored by `At(_, t)`. */
  lemma {:induction false} AtEmpty(s: seq<Appointment>, t: int)
    requires forall x :: x in s ==> x.date != t
    ensures At(s, t) == []
    decreases |s|
  {
    if s != [] {
      AtEmpty(s[1..], t);
    }
  }

  /** `At` of a one-record list. */
  lemma AtSingle(a: Appointment, t: int)
    ensures At([a], t) == if a.date == t then [a] else []
  {
    assert [a][1..] == [];
  }

  /** `At` of a list that starts with `a`. */
  lemma AtCons(a: Appointment, s: seq<Appointment>, t: int)
    ensures At([a] + s, t) == (if a.date == t then [a] else []) + At(s, t)
  {
    FilterConcat([a], s, DateIs(t));
    AtSingle(a, t);
  }

  /** Inserting into a sorted list puts `a` after every record with the same timestamp. */
  lemma {:induction false} InsertByDateStable(s: seq<Appointment>, a: Appointment, t: int)
    requires SortedByDate(s)
    ensures At(InsertByDate(s, a), t) == At(s, t) + (if a.date == t then [a] else [])
    decreases |s|
  {
    if s == [] {
      AtSingle(a, t);
    } else if a.date < s[0].date {
      AtCons(a, s, t);
      if a.date == t {
        AtEmpty(s, t);
      }
    } else {
      var rest := InsertByDate(s[1..], a);
      assert InsertByDate(s, a) == [s[0]] + rest;
      InsertByDateStable(s[1..], a, t);
      AtCons(s[0], rest, t);
      AtCons(s[0], s[1..], t);
      assert [s[0]] + s[1..] == s;
    }
  }

  /** `s.sort((a, b) => a.date - b.date)`: a stable sort by date (insertion sort). */
  function SortByDate(s: seq<Appointment>): (r: seq<Appointment>)
    ensures multiset(r) == multiset(s)
  {
    if s == [] then []
    else
      assert s == s[..|s| - 1] + [s[|s| - 1]];
      InsertByDate(SortByDate(s[..|s| - 1]), s[|s| - 1])
  }

  lemma {:induction false} SortByDateSorted(s: seq<Appointment>)
    ensures SortedByDate(SortByDate(s))
    decreases |s|
  {
    if s != [] {
      SortByDateSorted(s[..|s| - 1]);
      InsertByDateSorted(SortByDate(s[..|s| - 1]), s[|s| - 1]);
    }
  }

  /** `At` of a list that ends with `x`. */
  lemma AtSnoc(p: seq<Appointment>, x: Appointment, t: int)
    ensures At(p + [x], t) == At(p, t) + (if x.date == t then [x] else [])
  {
    FilterConcat(p, [x], DateIs(t));
    AtSingle(x, t);
  }

  /** Stability: for every timestamp, the records carrying it keep their relative order. */
  lemma {:induction false} SortByDateStable(s: seq<Appointment>, t: int)
    ensures At(SortByDate(s), t) == At(s, t)
    decreases |s|
  {
    if s != [] {
      var p, x := s[..|s| - 1], s[|s| - 1];
      assert s == p + [x];
      SortByDateStable(p, t);
      SortByDateSorted(p);
      InsertByDateStable(SortByDate(p), x, t);
      AtSnoc(p, x, t);
    }
  }

  /** Sorting an already sorted list leaves it as it is. */
  lemma {:induction false} SortByDateOfSorted(s: seq<Appointment>)
    requires SortedByDate(s)
    ensures SortByDate(s) == s
    decreases |s|, 1
  {
    if s != [] {
      var p, x := s[..|s| - 1], s[|s| - 1];
      assert s == p + [x];
      assert SortByDate(p + [x]) == p + [x] by {
        SortedInit(s);
        SortByDateOfSortedSnoc(p, x);
      }
    }
  }

  /** Appending a record dated no earlier than a sorted list leaves both sorting and the list unchanged. */
  lemma {:induction false} SortByDateOfSortedSnoc(p: seq<Appointment>, x: Appointment)
    requires SortedByDate(p)
    requires forall i :: 0 <= i < |p| ==> p[i].date <= x.date
    ensures SortByDate(p + [x]) == p + [x]
    decreases |p| + 1, 0
  {
    SortByDateOfSorted(p);
    InsertAtEnd(p, x);
    assert (p + [x])[..|p + [x]| - 1] == p;
  }

  /** Dropping the last record of a sorted list leaves it sorted and no later than that record. */
  lemma SortedInit(s: seq<Appointment>)
    requires SortedByDate(s) && s != []
    ensures SortedByDate(s[..|s| - 1])
    ensures forall i :: 0 <= i < |s| - 1 ==> s[i].date <= s[|s| - 1].date
  {
  }

  /** A record dated no earlier than every record of `s` is inserted at the end. */
  lemma {:induction false} InsertAtEnd(s: seq<Appointment>, x: Appointment)
    requires forall i :: 0 <= i < |s| ==> s[i].date <= x.date
    ensures InsertByDate(s, x) == s + [x]
    decreases |s|
  {
    if s != [] {
      InsertAtEnd(s[1..], x);
      assert s == [s[0]] + s[1..];
    }
  }

  /**
   * The list `createAppointment` stores: the old records plus the new one,
   * sorted ascending by date, with the new record after every existing record
   * of equal date and the existing records of each date in their old order.
   */
  lemma CreateOrder(prev: seq<Appointment>, a: Appointment)
    ensures SortedByDate(SortByDate(prev + [a]))
    ensures multiset(SortByDate(prev + [a])) == multiset(prev) + multiset{a}
    ensures At(SortByDate(prev + [a]), a.date) == At(prev, a.date) + [a]
    ensures forall t :: t != a.date ==> At(SortByDate(prev + [a]), t) == At(prev, t)
  {
    SortByDateSorted(prev + [a]);
    forall t | true
      ensures At(SortByDate(prev + [a]), t) == At(prev, t) + (if a.date == t then [a] else [])
    {
      SortByDateStable(prev + [a], t);
      FilterConcat(prev, [a], DateIs(t));
      assert At([a], t) == (if a.date == t then [a] else []) + At([], t);
    }
  }

  /** When the list was already sorted, creation inserts the new record after all records not dated later. */
  lemma CreateIntoSorted(prev: seq<Appointment>, a: Appointment)
    requires SortedByDate(prev)
    ensures SortByDate(prev + [a]) == InsertByDate(prev, a)
  {
    var s := prev + [a];
    assert s[..|s| - 1] == prev;
    SortByDateOfSorted(prev);
  }

  // ---------------------------------------------------------------------------
  // Lookups and record-wise rewrites

  /** Index of the first record with id `id`, or `|s|` when there is none. */
  function FirstIndex(s: seq<Appointment>, id: string): (k: nat)
    ensures k <= |s|
    ensures forall j :: 0 <= j < k ==> s[j].id != id
    ensures k < |s| ==> s[k].id == id
  {
    if s == [] || s[0].id == id then 0 else 1 + FirstIndex(s[1..], id)
  }

  /** `s.find(apt => apt.id === id)`: the first record with that id, if any. */
  function FindById(s: seq<Appointment>, id: string): (r: Option<Appointment>)
    ensures r.None? <==> forall a :: a in s ==> a.id != id
    ensures r.Some? ==> r.value in s && r.value.id == id
    ensures r.Some? ==> exists i :: 0 <= i < |s| && s[i] == r.value && forall j :: 0 <= j < i ==> s[j].id != id
  {
    var k := FirstIndex(s, id);
    if k < |s| then Some(s[k]) else None
  }

  /** `s.map(apt => apt.id === id ? {...apt, ...p, updatedAt: now} : apt)`. */
  function UpdateWhere(s: seq<Appointment>, id: string, p: Patch, now: nat): (r: seq<Appointment>)
    ensures |r| == |s|
  {
    seq(|s|, i requires 0 <= i < |s| => if s[i].id == id then Merge(s[i], p).(updatedAt := now) else s[i])
  }

  /** Only the records with the given id change, and each of them becomes the merge with a fresh `updatedAt`. */
  lemma UpdateWhereEffect(s: seq<Appointment>, id: string, p: Patch, now: nat)
    ensures forall i :: 0 <= i < |s| && s[i].id != id ==> UpdateWhere(s, id, p, now)[i] == s[i]
    ensures forall i :: 0 <= i < |s| && s[i].id == id ==>
      UpdateWhere(s, id, p, now)[i] == Merge(s[i], p).(updatedAt := now)
  {
  }

  /** Updating an id that no record carries leaves the list as it was. */
  lemma UpdateWhereMissing(s: seq<Appointment>, id: string, p: Patch, now: nat)
    requires forall a :: a in s ==> a.id != id
    ensures UpdateWhere(s, id, p, now) == s
  {
  }

  /**
   * The update does not re-sort: a patch that moves a date can leave the list
   * out of date order.
   */
  lemma UpdateMayBreakDateOrder(a: Appointment, b: Appointment)
    requires a.id == "a" && b.id == "b" && a.date == 1 && b.date == 2
    ensures SortedByDate([a, b])
    ensures !SortedByDate(UpdateWhere([a, b], "a", NoChanges.(date := Some(3)), 0))
  {
    var r := UpdateWhere([a, b], "a", NoChanges.(date := Some(3)), 0);
    assert r[0].date == 3 && r[1].date == 2;
  }

  /** `s.map(apt => apt.id === id ? {...apt, googleEventId: "google-event-" + id} : apt)`. */
  function MirrorGoogleId(s: seq<Appointment>, id: string): (r: seq<Appointment>)
    ensures |r| == |s|
  {
    seq(|s|, i requires 0 <= i < |s| =>
      if s[i].id == id then s[i].(googleEventId := Some("google-event-" + id)) else s[i])
  }

  /** Mirroring stamps the event id on the matching records only and changes nothing else. */
  lemma MirrorGoogleIdEffect(s: seq<Appointment>, id: string)
    ensures forall i :: 0 <= i < |s| ==>
      var r := MirrorGoogleId(s, id)[i];
      r.(googleEventId := s[i].googleEventId) == s[i] &&
      r.googleEventId == if s[i].id == id then Some("google-event-" + id) else s[i].googleEventId
  {
  }

  /** `s.map(apt => ({...apt, googleEventId: undefined}))`. */
  function ClearGoogleIds(s: seq<Appointment>): (r: seq<Appointment>)
    ensures |r| == |s|
  {
    seq(|s|, i requires 0 <= i < |s| => Merge(s[i], NoChanges.(googleEventId := Some(None))))
  }

  /** Disconnecting clears every event id and keeps every other field and the order. */
  lemma ClearGoogleIdsEffect(s: seq<Appointment>)
    ensures forall i :: 0 <= i < |s| ==> ClearGoogleIds(s)[i].googleEventId == None
    ensures forall i :: 0 <= i < |s| ==> ClearGoogleIds(s)[i] == s[i].(googleEventId := None)
  {
  }

  /** `s.filter(apt => apt.id !== id)`. */
  function RemoveId(s: seq<Appointment>, id: string): (r: seq<Appointment>)
    ensures forall a :: a in r <==> a in s && a.id != id
  {
    Filter(s, IdIsNot(id))
  }

  /** Deleting an id that no record carries changes nothing. */
  lemma RemoveIdMissing(s: seq<Appointment>, id: string)
    requires forall a :: a in s ==> a.id != id
    ensures RemoveId(s, id) == s
  {
    FilterKeepsAll(s, IdIsNot(id));
  }

  /** A filter keeps a list sorted by date. */
  lemma {:induction false} FilterSorted(s: seq<Appointment>, keep: Selector)
    requires SortedByDate(s)
    ensures SortedByDate(Filter(s, keep))
    decreases |s|
  {
    if s != [] {
      var rest := Filter(s[1..], keep);
      assert SortedByDate(rest) by {
        FilterSorted(s[1..], keep);
      }
      forall x | x in rest ensures s[0].date <= x.date {
        var i :| 0 <= i < |s[1..]| && s[1..][i] == x;
        assert s[i + 1] == x;
      }
      if Keeps(keep, s[0]) {
        SortedCons(s[0], rest);
      }
    }
  }

  /** A record dated no later than every record of a sorted list can go in front of it. */
  lemma SortedCons(a: Appointment, r: seq<Appointment>)
    requires SortedByDate(r)
    requires forall x :: x in r ==> a.date <= x.date
    ensures SortedByDate([a] + r)
  {
    forall i, j | 0 <= i < j < |[a] + r| ensures ([a] + r)[i].date <= ([a] + r)[j].date {
      assert ([a] + r)[j] == r[j - 1];
      if i > 0 {
        assert ([a] + r)[i] == r[i - 1];
      }
    }
  }

  /** Rewrites that leave dates alone keep a sorted list sorted. */
  lemma RewritesKeepOrder(s: seq<Appointment>, id: string)
    requires SortedByDate(s)
    ensures SortedByDate(MirrorGoogleId(s, id))
    ensures SortedByDate(ClearGoogleIds(s))
    ensures SortedByDate(RemoveId(s, id))
  {
    FilterSorted(s, IdIsNot(id));
  }

  // ---------------------------------------------------------------------------
  // Date queries

  /** The calendar day of a timestamp (`toDateString` ignores the time of day). */
  function DayOf(t: int): (d: int)
    ensures d * MsPerDay <= t < d * MsPerDay + MsPerDay
  {
    t / MsPerDay
  }

  lemma DayOfBounds(t: int, d: int)
    ensures DayOf(t) == d <==> d * MsPerDay <= t <= d * MsPerDay + MsPerDay - 1
  {
  }

  /** `getAppointmentsByDate(date)`: the records on the same calendar day as `date`, in order. */
  function ByDate(s: seq<Appointment>, date: int): (r: seq<Appointment>)
    ensures forall a :: a in r <==> a in s && DayOf(a.date) == DayOf(date)
  {
    Filter(s, SameDay(DayOf(date)))
  }

  /** `getAppointmentsByDateRange(start, end)`: the records with `start <= date <= end`, in order. */
  function ByDateRange(s: seq<Appointment>, start: int, end: int): (r: seq<Appointment>)
    ensures forall a :: a in r <==> a in s && start <= a.date <= end
  {
    Filter(s, Between(start, end))
  }

  /** The day query is the range query over the first to the last millisecond of that day. */
  lemma ByDateIsDayRange(s: seq<Appointment>, date: int)
    ensures ByDate(s, date) == ByDateRange(s, DayOf(date) * MsPerDay, DayOf(date) * MsPerDay + MsPerDay - 1)
  {
    var d := DayOf(date);
    forall a | a in s
      ensures (DayOf(a.date) == d) == (d * MsPerDay <= a.date <= d * MsPerDay + MsPerDay - 1)
    {
      DayOfBounds(a.date, d);
    }
    FilterAgree(s, SameDay(d), Between(d * MsPerDay, d * MsPerDay + MsPerDay - 1));
  }

  /**
   * Both queries keep the relative order: querying a concatenation
   * concatenates the answers, and a date-sorted store gives date-sorted answers.
   */
  lemma QueriesPreserveOrder(s: seq<Appointment>, t: seq<Appointment>, date: int, start: int, end: int)
    ensures ByDate(s + t, date) == ByDate(s, date) + ByDate(t, date)
    ensures ByDateRange(s + t, start, end) == ByDateRange(s, start, end) + ByDateRange(t, start, end)
    ensures SortedByDate(s) ==> SortedByDate(ByDate(s, date)) && SortedByDate(ByDateRange(s, start, end))
  {
    FilterConcat(s, t, SameDay(DayOf(date)));
    FilterConcat(s, t, Between(start, end));
    if SortedByDate(s) {
      FilterSorted(s, SameDay(DayOf(date)));
      FilterSorted(s, Between(start, end));
    }
  }

  // ---------------------------------------------------------------------------
  // The store

  class CalendarStore {
    var appointments: seq<Appointment>
    var isGoogleConnected: bool
    var lastSyncTime: Option<int>
    var syncStatus: SyncStatus
    var error: Option<string>

    /** The provider's initial state. */
    constructor ()
      ensures appointments == [] && !isGoogleConnected && lastSyncTime == None
      ensures syncStatus == Idle && error == None
    {
      appointments := [];
      isGoogleConnected := false;
      lastSyncTime := None;
      syncStatus := Idle;
      error := None;
    }

    /** `loadAppointments`: replaces the list with the records the loader produced. */
    method LoadAppointments(loaded: seq<Appointment>)
      modifies this
      ensures appointments == loaded && error == None
      ensures isGoogleConnected == old(isGoogleConnected) && lastSyncTime == old(lastSyncTime)
      ensures syncStatus == old(syncStatus)
    {
      error := None;
      appointments := loaded;
    }

    /**
     * `checkGoogleConnection`: restores the connection flag and, when connected
     * and a stored time exists, the last sync time.
     */
    method CheckGoogleConnection(storedConnected: bool, storedLastSync: Option<int>)
      modifies this
      ensures isGoogleConnected == storedConnected
      ensures lastSyncTime == if storedConnected && storedLastSync.Some? then storedLastSync else old(lastSyncTime)
      ensures appointments == old(appointments) && syncStatus == old(syncStatus) && error == old(error)
    {
      isGoogleConnected := storedConnected;
      if storedConnected && storedLastSync.Some? {
        lastSyncTime := storedLastSync;
      }
    }

    /**
     * `syncAppointmentWithGoogle`: when connected, stamps
     * `"google-event-" + record.id` on the records with that id.
     */
    method SyncAppointmentWithGoogle(record: Appointment)
      modifies this
      ensures appointments == if isGoogleConnected then MirrorGoogleId(old(appointments), record.id)
                              else old(appointments)
      ensures isGoogleConnected == old(isGoogleConnected) && lastSyncTime == old(lastSyncTime)
      ensures syncStatus == old(syncStatus) && error == old(error)
    {
      if !isGoogleConnected {
        return;
      }
      appointments := MirrorGoogleId(appointments, record.id);
    }

    /**
     * `createAppointment(data)`: appends the new record, stable-sorts by date
     * and, when connected, mirrors it. Returns the record as built, before
     * mirroring.
     */
    method CreateAppointment(data: Patch, now: nat) returns (created: Appointment)
      modifies this
      ensures created == NewAppointment(data, now)
      ensures appointments == if isGoogleConnected
                              then MirrorGoogleId(SortByDate(old(appointments) + [created]), created.id)
                              else SortByDate(old(appointments) + [created])
      ensures SortedByDate(appointments)
      ensures |appointments| == |old(appointments)| + 1
      ensures error == None && isGoogleConnected == old(isGoogleConnected)
      ensures lastSyncTime == old(lastSyncTime) && syncStatus == old(syncStatus)
    {
      error := None;
      created := NewAppointment(data, now);
      var sorted := SortByDate(appointments + [created]);
      assert SortedByDate(sorted) && |sorted| == |appointments| + 1 by {
        SortByDateSorted(appointments + [created]);
        assert |multiset(sorted)| == |multiset(appointments + [created])|;
      }
      assert SortedByDate(MirrorGoogleId(sorted, created.id)) by {
        RewritesKeepOrder(sorted, created.id);
      }
      appointments := sorted;
      SyncAppointmentWithGoogle(created);
    }

    /**
     * `updateAppointment(id, data)`: merges `data` into the records with that
     * id and refreshes their `updatedAt`, without re-sorting; an unknown id
     * fails with "Appointment not found" and changes no record. The returned
     * record is the old record merged with `data` (its `updatedAt` is not
     * refreshed).
     */
    method UpdateAppointment(id: string, data: Patch, now: nat) returns (result: Result<Appointment, string>)
      modifies this
      ensures FindById(old(appointments), id).None? ==>
        && result == Failure("Appointment not found")
        && appointments == old(appointments)
        && error == Some("Failed to update appointment")
      ensures FindById(old(appointments), id).Some? ==>
        var merged := Merge(FindById(old(appointments), id).value, data);
        && result == Result.Success(merged)
        && appointments == (if isGoogleConnected
                            then MirrorGoogleId(UpdateWhere(old(appointments), id, data, now), merged.id)
                            else UpdateWhere(old(appointments), id, data, now))
        && error == None
      ensures |appointments| == |old(appointments)|
      ensures isGoogleConnected == old(isGoogleConnected) && lastSyncTime == old(lastSyncTime)
      ensures syncStatus == old(syncStatus)
    {
      error := None;
      var before := appointments;
      appointments := UpdateWhere(appointments, id, data, now);
      var found := FindById(before, id);
      if found.None? {
        UpdateWhereMissing(before, id, data, now);
        error := Some("Failed to update appointment");
        result := Failure("Appointment not found");
        return;
      }
      var merged := Merge(found.value, data);
      SyncAppointmentWithGoogle(merged);
      result := Result.Success(merged);
    }

    /**
     * `deleteAppointment(id)`: removes every record with that id; an unknown id
     * is a silent no-op. Returns the external event id whose remote deletion is
     * attempted: only when the record exists, the integration is connected and
     * the record carries a non-empty event id.
     */
    method DeleteAppointment(id: string) returns (remoteDeleted: Option<string>)
      modifies this
      ensures appointments == RemoveId(old(appointments), id)
      ensures (forall a :: a in old(appointments) ==> a.id != id) ==> appointments == old(appointments)
      ensures remoteDeleted ==
        (var found := FindById(old(appointments), id);
         if found.Some? && isGoogleConnected && found.value.googleEventId.Some?
            && found.value.googleEventId.value != ""
         then found.value.googleEventId else None)
      ensures error == None && isGoogleConnected == old(isGoogleConnected)
      ensures lastSyncTime == old(lastSyncTime) && syncStatus == old(syncStatus)
    {
      error := None;
      var found := FindById(appointments, id);
      remoteDeleted := None;
      if found.Some? && isGoogleConnected && found.value.googleEventId.Some? && found.value.googleEventId.value != "" {
        remoteDeleted := found.value.googleEventId;
      }
      if forall a :: a in appointments ==> a.id != id {
        RemoveIdMissing(appointments, id);
      }
      appointments := RemoveId(appointments, id);
    }

    /**
     * The first half of `syncWithGoogle`, run with the connection flag its
     * closure holds: when that flag is false nothing happens; otherwise the
     * status becomes 'syncing' and the error is cleared.
     */
    method BeginSync(connectedFlag: bool) returns (started: bool)
      modifies this
      ensures started == connectedFlag
      ensures started ==> syncStatus == Syncing && error == None
      ensures !started ==> syncStatus == old(syncStatus) && error == old(error)
      ensures appointments == old(appointments) && isGoogleConnected == old(isGoogleConnected)
      ensures lastSyncTime == old(lastSyncTime)
    {
      started := connectedFlag;
      if !connectedFlag {
        return;
      }
      syncStatus := Syncing;
      error := None;
    }

    /** The second half of `syncWithGoogle`, after the simulated delay: records the sync time and reports success. */
    method CompleteSync(now: nat)
      modifies this
      ensures lastSyncTime == Some(now) && syncStatus == SyncStatus.Success
      ensures appointments == old(appointments) && isGoogleConnected == old(isGoogleConnected)
      ensures error == old(error)
    {
      lastSyncTime := Some(now);
      syncStatus := SyncStatus.Success;
    }

    /** `syncWithGoogle` with the flag its closure holds: idle -> syncing -> success when the flag is set. */
    method SyncWithFlag(connectedFlag: bool, now: nat)
      modifies this
      ensures connectedFlag ==> lastSyncTime == Some(now) && syncStatus == SyncStatus.Success && error == None
      ensures !connectedFlag ==> lastSyncTime == old(lastSyncTime) && syncStatus == old(syncStatus)
                                 && error == old(error)
      ensures appointments == old(appointments) && isGoogleConnected == old(isGoogleConnected)
    {
      var started := BeginSync(connectedFlag);
      if started {
        CompleteSync(now);
      }
    }

    /** `syncWithGoogle()`: does nothing when disconnected, otherwise syncs at time `now`. */
    method SyncWithGoogle(now: nat)
      modifies this
      ensures old(isGoogleConnected) ==> lastSyncTime == Some(now) && syncStatus == SyncStatus.Success && error == None
      ensures !old(isGoogleConnected) ==> lastSyncTime == old(lastSyncTime) && syncStatus == old(syncStatus)
                                          && error == old(error)
      ensures appointments == old(appointments) && isGoogleConnected == old(isGoogleConnected)
    {
      SyncWithFlag(isGoogleConnected, now);
    }

    /** The timer three seconds after a successful sync: the status returns to 'idle'. */
    method ResetSyncStatus()
      modifies this
      ensures syncStatus == Idle
      ensures appointments == old(appointments) && isGoogleConnected == old(isGoogleConnected)
      ensures lastSyncTime == old(lastSyncTime) && error == old(error)
    {
      syncStatus := Idle;
    }

    /**
     * `connectGoogle()` as written: the initial `syncWithGoogle()` is the one
     * captured before the flag was set, so when connecting from the
     * disconnected state it sees `false` and does nothing.
     */
    method ConnectGoogleAsWritten(now: nat)
      modifies this
      ensures isGoogleConnected && error == None
      ensures old(isGoogleConnected) ==> lastSyncTime == Some(now) && syncStatus == SyncStatus.Success
      ensures !old(isGoogleConnected) ==> lastSyncTime == old(lastSyncTime) && syncStatus == old(syncStatus)
      ensures appointments == old(appointments)
    {
      error := None;
      var seen := isGoogleConnected;
      isGoogleConnected := true;
      SyncWithFlag(seen, now);
    }

    /** `connectGoogle()` as intended: sets the flag, then runs one full sync pass. */
    method ConnectGoogle(now: nat)
      modifies this
      ensures isGoogleConnected && error == None
      ensures lastSyncTime == Some(now) && syncStatus == SyncStatus.Success
      ensures appointments == old(appointments)
    {
      error := None;
      isGoogleConnected := true;
      SyncWithGoogle(now);
    }

    /** `disconnectGoogle()`: clears the flag, the last sync time and every record's event id. */
    method DisconnectGoogle()
      modifies this
      ensures !isGoogleConnected && lastSyncTime == None && error == None
      ensures appointments == ClearGoogleIds(old(appointments))
      ensures syncStatus == old(syncStatus)
    {
      error := None;
      isGoogleConnected := false;
      lastSyncTime := None;
      appointments := ClearGoogleIds(appointments);
    }
  }

  /** Connecting from a fresh store, as written, leaves the store never synced. */
  method ConnectSkipsInitialSync(now: nat) returns (lastSync: Option<int>, status: SyncStatus)
    ensures lastSync == None && status == Idle
  {
    var store := new CalendarStore();
    store.ConnectGoogleAsWritten(now);
    lastSync, status := store.lastSyncTime, store.syncStatus;
  }

  /** Connecting from a fresh store, as intended, records one successful sync at `now`. */
  method ConnectRunsInitialSync(now: nat) returns (lastSync: Option<int>, status: SyncStatus)
    ensures lastSync == Some(now) && status == SyncStatus.Success
  {
    var store := new CalendarStore();
    store.ConnectGoogle(now);
    lastSync, status := store.lastSyncTime, store.syncStatus;
  }
}
