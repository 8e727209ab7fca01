/**
 * The patients' doctor list: every doctor with their profile, the open slots
 * grouped by doctor, the slots offered for the chosen date, and the booking
 * step that records an appointment and then closes the slot.
 */
module DoctorsList {
  import opened Seqs
  import opened Schema

  // ---------------------------------------------------------------------------
  // The doctor cards: `doctors` joined with their owners' `profiles`

  /** The profile columns a doctor's card shows. */
  datatype DoctorInfo = DoctorInfo(fullName: string, avatarUrl: Option<string>)

  /** What a card shows when the doctor's profile cannot be found. */
  const UnknownDoctor := DoctorInfo("Unknown", None)

  /** A `doctors` row together with its profile columns. */
  datatype DoctorCard = DoctorCard(doctor: Doctor, profile: DoctorInfo)

  /** `doctorsData.map(d => d.user_id)`. */
  function DoctorUserIds(doctors: seq<Doctor>): (r: seq<Option<UserId>>)
    ensures |r| == |doctors|
    ensures forall i :: 0 <= i < |doctors| ==> r[i] == Some(doctors[i].userId)
  {
    seq(|doctors|, i requires 0 <= i < |doctors| => Some(doctors[i].userId))
  }

  /** `profilesData?.find(p => p.id === doctor.user_id) || { full_name: "Unknown", avatar_url: null }`. */
  function DoctorProfileOf(profiles: seq<Profile>, d: Doctor): (r: DoctorInfo)
    ensures (forall p :: p in profiles ==> p.id != d.userId) ==> r == UnknownDoctor
    ensures (exists p :: p in profiles && p.id == d.userId) ==>
      exists i :: 0 <= i < |profiles| && profiles[i].id == d.userId &&
        r == DoctorInfo(profiles[i].fullName, profiles[i].avatarUrl) &&
        forall j :: 0 <= j < i ==> profiles[j].id != d.userId
  {
    match Find(profiles, IsProfileOf(Some(d.userId)))
    case None => UnknownDoctor
    case Some(p) => DoctorInfo(p.fullName, p.avatarUrl)
  }

  /** `doctorsData.map(doctor => ({ ...doctor, profiles: ... }))`. */
  function JoinDoctors(doctors: seq<Doctor>, profiles: seq<Profile>): (r: seq<DoctorCard>)
    ensures |r| == |doctors|
    ensures forall i :: 0 <= i < |doctors| ==>
      r[i].doctor == doctors[i] && r[i].profile == DoctorProfileOf(profiles, doctors[i])
  {
    seq(|doctors|, i requires 0 <= i < |doctors| => DoctorCard(doctors[i], DoctorProfileOf(profiles, doctors[i])))
  }

  /**
   * Fetching only the owners' profiles changes nothing: every card gets the
   * profile the whole `profiles` table would give it.
   */
  lemma JoinDoctorsSeesWholeTable(doctors: seq<Doctor>, table: seq<Profile>)
    ensures JoinDoctors(doctors, ProfilesIn(table, DoctorUserIds(doctors))) == JoinDoctors(doctors, table)
  {
    var ids := DoctorUserIds(doctors);
    forall i | 0 <= i < |doctors|
      ensures DoctorProfileOf(ProfilesIn(table, ids), doctors[i]) == DoctorProfileOf(table, doctors[i])
    {
      assert ids[i] == Some(doctors[i].userId);
      ProfilesInKeepsLookups(table, ids, Some(doctors[i].userId));
    }
  }

  // ---------------------------------------------------------------------------
  // Open slots, grouped by doctor

  /** The row filter `is_available = true`. */
  function IsOpen(): Slot -> bool
  {
    (s: Slot) => s.isAvailable
  }

  /** `from("time_slots").select("*").eq("is_available", true)`. */
  function AvailableSlots(slots: seq<Slot>): (r: seq<Slot>)
    ensures forall s :: s in r <==> s in slots && s.isAvailable
    ensures forall i :: 0 <= i < |r| ==> r[i].isAvailable
    ensures forall s :: multiset(r)[s] == if s.isAvailable then multiset(slots)[s] else 0
    ensures Subsequence(r, slots)
  {
    FilterIsSubsequence(slots, IsOpen());
    FilterMultiset(slots, IsOpen());
    var r := Filter(slots, IsOpen());
    assert forall i :: 0 <= i < |r| ==> r[i] in r;
    r
  }

  /** The doctors that own at least one of `slots`. */
  function DoctorIdsOf(slots: seq<Slot>): set<DoctorId>
  {
    set s | s in slots :: s.doctorId
  }

  /** What the `reduce` builds: for every doctor with a slot, that doctor's slots in input order. */
  function Buckets(slots: seq<Slot>): map<DoctorId, seq<Slot>>
  {
    map d | d in DoctorIdsOf(slots) :: Filter(slots, OfDoctor(d))
  }

  /** The bucket of `d`, or the empty one when `d` has none yet. */
  function BucketOr(m: map<DoctorId, seq<Slot>>, d: DoctorId): seq<Slot>
  {
    if d in m then m[d] else []
  }

  lemma DoctorIdsSnoc(slots: seq<Slot>, x: Slot)
    ensures DoctorIdsOf(slots + [x]) == DoctorIdsOf(slots) + {x.doctorId}
  {
    assert x in slots + [x];
    assert forall s :: s in slots + [x] <==> s in slots || s == x;
  }

  /** One step of the `reduce`: `slot` is pushed onto its doctor's bucket, which is made on first use. */
  function Push(acc: map<DoctorId, seq<Slot>>, slot: Slot): map<DoctorId, seq<Slot>>
  {
    acc[slot.doctorId := BucketOr(acc, slot.doctorId) + [slot]]
  }

  /** The `reduce` itself: `Push` folded over the slots from the left, starting from `{}`. */
  function Grouped(slots: seq<Slot>): map<DoctorId, seq<Slot>>
  {
    if slots == [] then map[] else Push(Grouped(slots[..|slots| - 1]), slots[|slots| - 1])
  }

  lemma BucketsSnoc(slots: seq<Slot>, x: Slot)
    ensures Buckets(slots + [x]) == Push(Buckets(slots), x)
  {
    var b, b' := Buckets(slots), Buckets(slots + [x]);
    var expected := Push(b, x);
    DoctorIdsSnoc(slots, x);
    assert b'.Keys == expected.Keys;
    forall d | d in b'
      ensures b'[d] == expected[d]
    {
      FilterSnoc(slots, x, OfDoctor(d));
      if d !in b {
        FilterNone(slots, OfDoctor(d));
      }
    }
  }

  /** The `reduce` builds the buckets: each doctor with a slot gets exactly their slots, in input order. */
  lemma {:induction false} GroupedIsBuckets(slots: seq<Slot>)
    ensures Grouped(slots) == Buckets(slots)
  {
    if slots != [] {
      var s, x := slots[..|slots| - 1], slots[|slots| - 1];
      assert slots == s + [x];
      GroupedIsBuckets(s);
      BucketsSnoc(s, x);
    }
  }

  /** `slotsData.reduce(...)` with its accumulator updated in place. */
  method GroupByDoctor(slots: seq<Slot>) returns (acc: map<DoctorId, seq<Slot>>)
    ensures acc == Buckets(slots)
  {
    acc := map[];
    var i := 0;
    while i < |slots|
      invariant 0 <= i <= |slots|
      invariant acc == Grouped(slots[..i])
    {
      var slot := slots[i];
      if slot.doctorId !in acc {
        acc := acc[slot.doctorId := []];
      }
      acc := acc[slot.doctorId := acc[slot.doctorId] + [slot]];
      assert slots[..i + 1][..i] == slots[..i];
      i := i + 1;
    }
    assert slots[..i] == slots;
    GroupedIsBuckets(slots);
  }

  /**
   * Each slot lands in exactly the bucket of its doctor, as often as it
   * occurs, each bucket keeps input order, and there is no empty bucket.
   */
  lemma BucketsPartition(slots: seq<Slot>)
    ensures forall d :: d in Buckets(slots) <==> exists s :: s in slots && s.doctorId == d
    ensures forall d, s :: d in Buckets(slots) ==> (s in Buckets(slots)[d] <==> s in slots && s.doctorId == d)
    ensures forall d, s :: d in Buckets(slots) ==>
      multiset(Buckets(slots)[d])[s] == if s.doctorId == d then multiset(slots)[s] else 0
    ensures forall d :: d in Buckets(slots) ==> Subsequence(Buckets(slots)[d], slots) && Buckets(slots)[d] != []
  {
    var b := Buckets(slots);
    forall d | d in b
      ensures multiset(b[d]) == multiset(Filter(slots, OfDoctor(d)))
      ensures Subsequence(b[d], slots) && b[d] != []
    {
      FilterIsSubsequence(slots, OfDoctor(d));
      var s :| s in slots && s.doctorId == d;
      assert s in b[d];
    }
    forall d, s: Slot | d in b
      ensures multiset(b[d])[s] == if s.doctorId == d then multiset(slots)[s] else 0
    {
      FilterMultiset(slots, OfDoctor(d));
    }
  }

  /** Any one key of a non-empty map. */
  ghost function AnyKey(m: map<DoctorId, seq<Slot>>): DoctorId
    requires m.Keys != {}
  {
    var d :| d in m.Keys; d
  }

  /** The number of slots summed over all buckets. */
  ghost function BucketTotal(m: map<DoctorId, seq<Slot>>): nat
    decreases |m.Keys|
  {
    if m.Keys == {} then 0
    else
      var d := AnyKey(m);
      assert (m - {d}).Keys == m.Keys - {d};
      |m[d]| + BucketTotal(m - {d})
  }

  /** The total does not depend on which bucket is counted first. */
  lemma {:induction false} BucketTotalRemove(m: map<DoctorId, seq<Slot>>, d: DoctorId)
    requires d in m
    ensures BucketTotal(m) == |m[d]| + BucketTotal(m - {d})
    decreases |m.Keys|
  {
    var e := AnyKey(m);
    if e != d {
      assert (m - {e}).Keys == m.Keys - {e};
      assert (m - {d}).Keys == m.Keys - {d};
      BucketTotalRemove(m - {e}, d);
      BucketTotalRemove(m - {d}, e);
      assert (m - {e}) - {d} == (m - {d}) - {e};
    }
  }

  /** Pushing one slot onto a bucket adds one to the total. */
  lemma BucketTotalPush(b: map<DoctorId, seq<Slot>>, x: Slot)
    ensures BucketTotal(Push(b, x)) == BucketTotal(b) + 1
  {
    var m, k := Push(b, x), x.doctorId;
    BucketTotalRemove(m, k);
    assert m - {k} == b - {k};
    if k in b {
      BucketTotalRemove(b, k);
    } else {
      assert b - {k} == b;
    }
  }

  /** Grouping neither loses nor duplicates a slot: the buckets hold as many slots as the input. */
  lemma {:induction false} BucketsCount(slots: seq<Slot>)
    ensures BucketTotal(Buckets(slots)) == |slots|
  {
    if slots != [] {
      var s, x := slots[..|slots| - 1], slots[|slots| - 1];
      assert slots == s + [x];
      BucketsCount(s);
      BucketsSnoc(s, x);
      BucketTotalPush(Buckets(s), x);
    }
  }

  // ---------------------------------------------------------------------------
  // The slots offered for the chosen date

  /** The filter `slot.day_of_week === dayOfWeek`. */
  function OnDay(weekday: Weekday): Slot -> bool
  {
    (s: Slot) => s.dayOfWeek == weekday
  }

  /** `getAvailableSlotsForDay(doctorId)` for a date falling on `weekday`. */
  function SlotsForDay(buckets: map<DoctorId, seq<Slot>>, doctorId: DoctorId, weekday: Weekday): (r: seq<Slot>)
    ensures doctorId !in buckets ==> r == []
    ensures doctorId in buckets ==>
      && Subsequence(r, buckets[doctorId])
      && (forall s :: s in r <==> s in buckets[doctorId] && s.dayOfWeek == weekday)
      && (forall s :: multiset(r)[s] == if s.dayOfWeek == weekday then multiset(buckets[doctorId])[s] else 0)
  {
    if doctorId in buckets then
      FilterIsSubsequence(buckets[doctorId], OnDay(weekday));
      FilterMultiset(buckets[doctorId], OnDay(weekday));
      Filter(buckets[doctorId], OnDay(weekday))
    else []
  }

  /**
   * End to end: after a fetch, a slot is offered for a doctor on a weekday
   * exactly when it is a row of `time_slots` that is open, belongs to that
   * doctor and falls on that weekday.
   */
  lemma Offered(table: seq<Slot>, doctorId: DoctorId, weekday: Weekday, s: Slot)
    ensures s in SlotsForDay(Buckets(AvailableSlots(table)), doctorId, weekday) <==>
      s in table && s.isAvailable && s.doctorId == doctorId && s.dayOfWeek == weekday
  {
    var open := AvailableSlots(table);
    BucketsPartition(open);
    if s in table && s.isAvailable && s.doctorId == doctorId {
      assert s in open;
    }
  }

  /** Once a slot's flag is cleared, no doctor is offered it on any day. */
  lemma BookedSlotNotOffered(table: seq<Slot>, id: SlotId)
    ensures forall doctorId, weekday: Weekday, s ::
      s in SlotsForDay(Buckets(AvailableSlots(WithAvailability(table, id, false))), doctorId, weekday) ==> s.id != id
  {
    var after := WithAvailability(table, id, false);
    forall doctorId, weekday: Weekday, s | s in SlotsForDay(Buckets(AvailableSlots(after)), doctorId, weekday)
      ensures s.id != id
    {
      Offered(after, doctorId, weekday, s);
      var i :| 0 <= i < |after| && after[i] == s;
      assert after[i].id == table[i].id;
    }
  }

  // ---------------------------------------------------------------------------
  // The page

  /** The date picked in the booking dialog: the instant stored with the appointment and its weekday. */
  datatype SelectedDate = SelectedDate(at: Instant, weekday: Weekday)

  /** Which of the three reads of `fetchDoctors` come back with an error (the slot read: without data). */
  datatype FetchFaults = FetchFaults(doctorsFail: bool, profilesFail: bool, slotsFail: bool)

  /** How `handleBookAppointment` ends. */
  datatype Booking = NoDoctorSelected | BookingFailed | SlotUpdateFailed | Booked

  const ConsultationType := "consultation"
  const ScheduledStatus := "scheduled"

  class DoctorsPage {
    const db: Database
    /** The signed-in account, as `supabase.auth.getUser()` reports it. */
    const user: Option<UserId>
    var doctors: seq<DoctorCard>
    var timeSlots: map<DoctorId, seq<Slot>>
    var selectedDoctor: Option<DoctorCard>
    var selectedDate: SelectedDate
    var isLoading: bool

    /** Between two handlers the store is consistent and no booking is in flight. */
    ghost predicate Valid()
      reads this, db
    {
      db.Valid() && !isLoading
    }

    /** The page as first rendered; `today` is `new Date()`. */
    constructor (db: Database, user: Option<UserId>, today: SelectedDate)
      requires db.Valid()
      ensures Valid()
      ensures this.db == db && this.user == user && selectedDate == today
      ensures doctors == [] && timeSlots == map[] && selectedDoctor == None
    {
      this.db, this.user := db, user;
      doctors, timeSlots, selectedDoctor, selectedDate := [], map[], None, today;
      isLoading := false;
    }

    /** The cards a successful fetch shows. */
    ghost function Cards(): seq<DoctorCard>
      reads db
    {
      JoinDoctors(db.doctors, ProfilesIn(db.profiles, DoctorUserIds(db.doctors)))
    }

    /** The buckets a successful fetch shows. */
    ghost function OpenBuckets(): map<DoctorId, seq<Slot>>
      reads db
    {
      Buckets(AvailableSlots(db.slots))
    }

    /**
     * `fetchDoctors`: an error on the doctors or the profiles read stops it
     * before anything is shown; missing slot data keeps the old buckets.
     */
    method FetchDoctors(faults: FetchFaults)
      modifies this`doctors, this`timeSlots
      ensures doctors == if faults.doctorsFail || faults.profilesFail then old(doctors) else Cards()
      ensures timeSlots == if faults.doctorsFail || faults.profilesFail || faults.slotsFail then old(timeSlots)
                           else OpenBuckets()
    {
      if faults.doctorsFail {
        return;
      }
      var doctorsData := db.doctors;
      var userIds := DoctorUserIds(doctorsData);
      if faults.profilesFail {
        return;
      }
      var profilesData := ProfilesIn(db.profiles, userIds);
      doctors := JoinDoctors(doctorsData, profilesData);
      if faults.slotsFail {
        return;
      }
      var slotsData := AvailableSlots(db.slots);
      timeSlots := GroupByDoctor(slotsData);
    }

    /** The page's load: only a signed-in account gets the list fetched. */
    method CheckAuthAndFetchDoctors(faults: FetchFaults) returns (signedIn: bool)
      modifies this`doctors, this`timeSlots
      ensures signedIn <==> user.Some?
      ensures !signedIn ==> doctors == old(doctors) && timeSlots == old(timeSlots)
      ensures signedIn ==>
        && doctors == (if faults.doctorsFail || faults.profilesFail then old(doctors) else Cards())
        && timeSlots == (if faults.doctorsFail || faults.profilesFail || faults.slotsFail then old(timeSlots)
                         else OpenBuckets())
    {
      if user.None? {
        return false;
      }
      FetchDoctors(faults);
      signedIn := true;
    }

    /** "View Schedule" on a card. */
    method SelectDoctor(card: DoctorCard)
      modifies this`selectedDoctor
      ensures selectedDoctor == Some(card)
    {
      selectedDoctor := Some(card);
    }

    /** The dialog's date input. */
    method SelectDate(date: SelectedDate)
      modifies this`selectedDate
      ensures selectedDate == date
    {
      selectedDate := date;
    }

    /**
     * `handleBookAppointment(slot)`: record a "consultation" appointment for
     * the selected doctor and date, then close the slot, then refresh the
     * list. The two writes are not one transaction: when the second fails the
     * appointment stays and the slot stays open.
     */
    method BookAppointment(slot: Slot, insertFails: bool, updateFails: bool, refresh: FetchFaults)
      returns (outcome: Booking)
      requires Valid()
      modifies db, this`isLoading, this`selectedDoctor, this`doctors, this`timeSlots
      ensures Valid()
      ensures outcome == if old(selectedDoctor).None? then NoDoctorSelected
                         else if insertFails then BookingFailed
                         else if updateFails then SlotUpdateFailed
                         else Booked
      ensures outcome in {NoDoctorSelected, BookingFailed} ==>
        db.appointments == old(db.appointments) && db.slots == old(db.slots)
      ensures outcome in {SlotUpdateFailed, Booked} ==>
        db.appointments == old(db.appointments) + [Appointment(
          old(db.nextId), user, old(selectedDoctor).value.doctor.id, slot.id, old(selectedDate).at,
          ConsultationType, ScheduledStatus, old(selectedDoctor).value.profile.fullName)]
      ensures outcome == SlotUpdateFailed ==> db.slots == old(db.slots)
      ensures outcome == Booked ==> db.slots == WithAvailability(old(db.slots), slot.id, false)
      ensures outcome != Booked ==>
        selectedDoctor == old(selectedDoctor) && doctors == old(doctors) && timeSlots == old(timeSlots)
      ensures outcome == Booked ==>
        && selectedDoctor == None
        && doctors == (if refresh.doctorsFail || refresh.profilesFail then old(doctors) else Cards())
        && timeSlots == (if refresh.doctorsFail || refresh.profilesFail || refresh.slotsFail then old(timeSlots)
                         else OpenBuckets())
      ensures outcome == Booked && !refresh.doctorsFail && !refresh.profilesFail && !refresh.slotsFail ==>
        forall doctorId, weekday: Weekday, s :: s in SlotsForDay(timeSlots, doctorId, weekday) ==> s.id != slot.id
      ensures !isLoading
    {
      if selectedDoctor.None? {
        return NoDoctorSelected;
      }
      var doctor := selectedDoctor.value;
      isLoading := true;
      var inserted := db.InsertAppointment(user, doctor.doctor.id, slot.id, selectedDate.at,
                                           ConsultationType, ScheduledStatus, doctor.profile.fullName, insertFails);
      if !inserted {
        isLoading := false;
        return BookingFailed;
      }
      var closed := db.UpdateSlotAvailability(slot.id, false, updateFails);
      if !closed {
        isLoading := false;
        return SlotUpdateFailed;
      }
      isLoading := false;
      selectedDoctor := None;
      FetchDoctors(refresh);
      BookedSlotNotOffered(old(db.slots), slot.id);
      outcome := Booked;
    }
  }
}
