/**
 * The rows of the backend tables the two pages use (`time_slots`,
 * `appointments`, `doctors`, `profiles`, `user_roles`) and the data store that
 * holds them. The store's writes are the only mutations; every write may fail,
 * and the caller is told whether it did.
 */
module Schema {
  import opened Seqs

  // Row identifiers. The backend hands out fresh ones on insert.
  type SlotId = nat
  type DoctorId = nat
  type UserId = nat
  type AppointmentId = nat

  /** Day of the week, 0 = Sunday, as JavaScript's `Date.getDay()` numbers it. */
  type Weekday = d: int | 0 <= d < 7

  const MinutesPerDay := 1440

  /** A `time` column value, as minutes since midnight. */
  type TimeOfDay = t: int | 0 <= t < 1440

  /** A `timestamp` column value; only its order matters here. */
  type Instant = int

  /** A row of `time_slots`: one weekly availability interval of one doctor. */
  datatype Slot = Slot(
    id: SlotId,
    doctorId: DoctorId,
    dayOfWeek: Weekday,
    startTime: TimeOfDay,
    endTime: TimeOfDay,
    isAvailable: bool)

  /** A row of `appointments`. `userId` is `None` when no user was signed in. */
  datatype Appointment = Appointment(
    id: AppointmentId,
    userId: Option<UserId>,
    doctorId: DoctorId,
    timeSlotId: SlotId,
    appointmentDate: Instant,
    appointmentType: string,
    status: string,
    providerName: string)

  /** A row of `doctors`, owned by the account `userId`. */
  datatype Doctor = Doctor(
    id: DoctorId,
    userId: UserId,
    specialization: string,
    qualification: string,
    experienceYears: int,
    about: Option<string>)

  /** A row of `profiles`; its `id` is the account's user id. */
  datatype Profile = Profile(
    id: UserId,
    fullName: string,
    phone: Option<string>,
    avatarUrl: Option<string>)

  /** A row of `user_roles`. */
  datatype UserRole = UserRole(userId: UserId, role: string)

  ghost predicate UniqueIds(slots: seq<Slot>)
  {
    forall i, j :: 0 <= i < j < |slots| ==> slots[i].id != slots[j].id
  }

  lemma UniqueIdsSubsequence(r: seq<Slot>, slots: seq<Slot>)
    requires Subsequence(r, slots) && UniqueIds(slots)
    ensures UniqueIds(r)
  {
    var ix :| IsEmbedding(ix, r, slots);
    forall i, j | 0 <= i < j < |r|
      ensures r[i].id != r[j].id
    {
      assert ix[i] < ix[j];
    }
  }

  /** The row filter keeping the rows whose id is not `id`, named so that every use denotes the same function. */
  function OtherThan(id: SlotId): Slot -> bool
  {
    (s: Slot) => s.id != id
  }

  /** `delete().eq("id", id)` on `time_slots`. */
  function WithoutSlot(slots: seq<Slot>, id: SlotId): (r: seq<Slot>)
    ensures forall s :: s in r <==> s in slots && s.id != id
    ensures forall s :: multiset(r)[s] == if s.id != id then multiset(slots)[s] else 0
    ensures Subsequence(r, slots)
  {
    FilterIsSubsequence(slots, OtherThan(id));
    FilterMultiset(slots, OtherThan(id));
    Filter(slots, OtherThan(id))
  }

  lemma OtherRowsKept(rows: seq<Slot>, id: SlotId)
    requires forall k :: 0 <= k < |rows| ==> rows[k].id != id
    ensures Filter(rows, OtherThan(id)) == rows
  {
    forall x | x in rows
      ensures OtherThan(id)(x)
    {
    }
    FilterAll(rows, OtherThan(id));
  }

  /** With unique ids, deleting an id that is present removes that one row and nothing else. */
  lemma WithoutSlotRemovesOne(slots: seq<Slot>, i: nat)
    requires UniqueIds(slots) && i < |slots|
    ensures WithoutSlot(slots, slots[i].id) == slots[..i] + slots[i + 1..]
  {
    var id := slots[i].id;
    var before, after := slots[..i], slots[i + 1..];
    OtherRowsKept(before, id);
    OtherRowsKept(after, id);
    assert slots == before + [slots[i]] + after;
    FilterDropsOne(before, slots[i], after, OtherThan(id));
  }

  /** `update({ is_available: available }).eq("id", id)` on `time_slots`. */
  function WithAvailability(slots: seq<Slot>, id: SlotId, available: bool): (r: seq<Slot>)
    ensures |r| == |slots|
    ensures forall i :: 0 <= i < |slots| ==> r[i].(isAvailable := slots[i].isAvailable) == slots[i]
    ensures forall i :: 0 <= i < |slots| ==> r[i].isAvailable == if slots[i].id == id then available else slots[i].isAvailable
  {
    seq(|slots|, i requires 0 <= i < |slots| =>
      if slots[i].id == id then slots[i].(isAvailable := available) else slots[i])
  }

  /** Setting a flag changes no id: unique ids stay unique and stay below `bound`. */
  lemma AvailabilityKeepsIds(slots: seq<Slot>, id: SlotId, available: bool, bound: nat)
    requires UniqueIds(slots) && forall s :: s in slots ==> s.id < bound
    ensures UniqueIds(WithAvailability(slots, id, available))
    ensures forall s :: s in WithAvailability(slots, id, available) ==> s.id < bound
  {
    var r := WithAvailability(slots, id, available);
    assert forall i :: 0 <= i < |r| ==> r[i].id == slots[i].id && slots[i] in slots;
  }

  /**
   * Flipping a slot whose flag is `current` and then flipping it back, as
   * the availability switch does on two clicks, restores the table.
   */
  lemma ToggleTwiceRestores(slots: seq<Slot>, id: SlotId, current: bool)
    requires forall s :: s in slots && s.id == id ==> s.isAvailable == current
    ensures WithAvailability(WithAvailability(slots, id, !current), id, current) == slots
  {
    var once := WithAvailability(slots, id, !current);
    var twice := WithAvailability(once, id, current);
    forall i | 0 <= i < |slots|
      ensures twice[i] == slots[i]
    {
      assert once[i].id == slots[i].id;
      if slots[i].id == id {
        assert slots[i] in slots;
      }
    }
  }

  /** The row filter `doctor_id = doctorId` on `time_slots`. */
  function OfDoctor(doctorId: DoctorId): Slot -> bool
  {
    (s: Slot) => s.doctorId == doctorId
  }

  /** The match `p.id === userId` between a profile and a (possibly missing) user id. */
  function IsProfileOf(userId: Option<UserId>): Profile -> bool
  {
    (p: Profile) => Some(p.id) == userId
  }

  /** The row filter `id in userIds` on `profiles`; a missing id matches no row. */
  function IdIn(userIds: seq<Option<UserId>>): Profile -> bool
  {
    (p: Profile) => Some(p.id) in userIds
  }

  /** The `profiles` query `.in("id", userIds)`. */
  function ProfilesIn(profiles: seq<Profile>, userIds: seq<Option<UserId>>): (r: seq<Profile>)
    ensures forall p :: p in r <==> p in profiles && Some(p.id) in userIds
  {
    Filter(profiles, IdIn(userIds))
  }

  /**
   * Asking the `in` query only for the ids one is going to look up loses no
   * match: the first profile found for such an id is the one the whole table gives.
   */
  lemma ProfilesInKeepsLookups(profiles: seq<Profile>, userIds: seq<Option<UserId>>, userId: Option<UserId>)
    requires userId in userIds
    ensures Find(ProfilesIn(profiles, userIds), IsProfileOf(userId)) == Find(profiles, IsProfileOf(userId))
  {
    FindInFiltered(profiles, IdIn(userIds), IsProfileOf(userId));
  }

  /** The backend. Lookup tables this core never writes are constants. */
  class Database {
    var slots: seq<Slot>
    var appointments: seq<Appointment>
    /** Every id handed out so far is below this one. */
    var nextId: nat
    const doctors: seq<Doctor>
    const profiles: seq<Profile>
    const roles: seq<UserRole>

    ghost predicate Valid()
      reads this
    {
      && UniqueIds(slots)
      && (forall s :: s in slots ==> s.id < nextId)
      && (forall a :: a in appointments ==> a.id < nextId)
      && (forall i, j :: 0 <= i < j < |appointments| ==> appointments[i].id != appointments[j].id)
    }

    constructor (doctors: seq<Doctor>, profiles: seq<Profile>, roles: seq<UserRole>)
      ensures Valid()
      ensures this.doctors == doctors && this.profiles == profiles && this.roles == roles
      ensures slots == [] && appointments == [] && nextId == 0
    {
      this.doctors, this.profiles, this.roles := doctors, profiles, roles;
      slots, appointments, nextId := [], [], 0;
    }

    /** `insert` into `time_slots`; a new slot is always available. */
    method InsertSlot(doctorId: DoctorId, dayOfWeek: Weekday, startTime: TimeOfDay, endTime: TimeOfDay, fails: bool)
      returns (ok: bool)
      requires Valid()
      modifies this
      ensures Valid()
      ensures ok == !fails
      ensures slots == if ok then old(slots) + [Slot(old(nextId), doctorId, dayOfWeek, startTime, endTime, true)]
                       else old(slots)
      ensures ok ==> forall s :: s in old(slots) ==> s.id != old(nextId)
      ensures nextId == if ok then old(nextId) + 1 else old(nextId)
      ensures appointments == old(appointments)
    {
      ok := !fails;
      if ok {
        slots := slots + [Slot(nextId, doctorId, dayOfWeek, startTime, endTime, true)];
        nextId := nextId + 1;
      }
    }

    /** `delete().eq("id", id)` on `time_slots`. */
    method DeleteSlot(id: SlotId, fails: bool) returns (ok: bool)
      requires Valid()
      modifies this
      ensures Valid()
      ensures ok == !fails
      ensures slots == if ok then WithoutSlot(old(slots), id) else old(slots)
      ensures appointments == old(appointments) && nextId == old(nextId)
    {
      ok := !fails;
      if ok {
        var rest := WithoutSlot(slots, id);
        UniqueIdsSubsequence(rest, slots);
        slots := rest;
      }
    }

    /** `update({ is_available: available }).eq("id", id)` on `time_slots`. */
    method UpdateSlotAvailability(id: SlotId, available: bool, fails: bool) returns (ok: bool)
      requires Valid()
      modifies this
      ensures Valid()
      ensures ok == !fails
      ensures slots == if ok then WithAvailability(old(slots), id, available) else old(slots)
      ensures appointments == old(appointments) && nextId == old(nextId)
    {
      ok := !fails;
      if ok {
        AvailabilityKeepsIds(slots, id, available, nextId);
        slots := WithAvailability(slots, id, available);
      }
    }

    /** `insert` into `appointments`. */
    method InsertAppointment(userId: Option<UserId>, doctorId: DoctorId, timeSlotId: SlotId, appointmentDate: Instant,
                             appointmentType: string, status: string, providerName: string, fails: bool)
      returns (ok: bool)
      requires Valid()
      modifies this
      ensures Valid()
      ensures ok == !fails
      ensures appointments ==
        if ok then old(appointments) + [Appointment(old(nextId), userId, doctorId, timeSlotId, appointmentDate,
                                                    appointmentType, status, providerName)]
        else old(appointments)
      ensures nextId == if ok then old(nextId) + 1 else old(nextId)
      ensures slots == old(slots)
    {
      ok := !fails;
      if ok {
        appointments := appointments + [Appointment(nextId, userId, doctorId, timeSlotId, appointmentDate,
                                                    appointmentType, status, providerName)];
        nextId := nextId + 1;
      }
    }
  }
}
