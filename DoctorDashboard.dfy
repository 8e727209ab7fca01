/**
 * The doctor's dashboard: the signed-in doctor's weekly slots and booked
 * appointments, and the handlers that add, delete and switch slots.
 */
module DoctorDashboard {
  import opened Seqs
  import opened Decimal
  import opened Schema

  /** Day names indexed by day number, 0 = Sunday. */
  const DaysOfWeek: seq<string> := ["Sunday", "Monday", "Tuesday", "Wednesday", "Thursday", "Friday", "Saturday"]

  /** The values of the day selector's options, one per index of `DaysOfWeek`, written out. */
  function DayValues(): (r: seq<string>)
    ensures |r| == |DaysOfWeek|
  {
    ["0", "1", "2", "3", "4", "5", "6"]
  }

  /** Each option's value is its index's `idx.toString()`. */
  lemma DayValuesAreIndexNumerals()
    ensures forall i :: 0 <= i < |DaysOfWeek| ==> DayValues()[i] == Show(i)
  {
    forall i | 0 <= i < |DaysOfWeek|
      ensures DayValues()[i] == Show(i)
    {
      assert Show(i) == [DigitChar(i)];
    }
  }

  /**
   * Whatever option is chosen, `parseInt` turns its value back into the index
   * of a name in `DaysOfWeek`.
   */
  lemma DayValuesDecode(v: string)
    requires v in DayValues()
    ensures Parse(v).Some? && Parse(v).value < |DaysOfWeek|
    ensures DayValues()[Parse(v).value] == v
  {
    var i :| 0 <= i < |DayValues()| && DayValues()[i] == v;
    DayValuesAreIndexNumerals();
    ParseShow(i);
  }

  // ---------------------------------------------------------------------------
  // The slot listing: `eq("doctor_id", id).order("day_of_week").order("start_time")`

  /** One number that orders slots by day and then by start time. */
  function SlotKey(s: Slot): int
  {
    s.dayOfWeek * MinutesPerDay + s.startTime
  }

  /** The order `order("day_of_week").order("start_time")` asks for. */
  ghost predicate InWeeklyOrder(slots: seq<Slot>)
  {
    forall i, j :: 0 <= i < j < |slots| ==>
      slots[i].dayOfWeek < slots[j].dayOfWeek ||
      (slots[i].dayOfWeek == slots[j].dayOfWeek && slots[i].startTime <= slots[j].startTime)
  }

  lemma SlotKeyOrder(a: Slot, b: Slot)
    ensures SlotKey(a) <= SlotKey(b) <==>
      a.dayOfWeek < b.dayOfWeek || (a.dayOfWeek == b.dayOfWeek && a.startTime <= b.startTime)
    ensures SlotKey(a) == SlotKey(b) <==> a.dayOfWeek == b.dayOfWeek && a.startTime == b.startTime
  {
  }

  /** The doctor's slots as the dashboard lists them. */
  function ListSlots(slots: seq<Slot>, doctorId: DoctorId): seq<Slot>
  {
    SortBy(Filter(slots, OfDoctor(doctorId)), SlotKey)
  }

  /**
   * The listing holds exactly the doctor's rows, each as often as the table
   * does, in the order `order("day_of_week").order("start_time")` asks for.
   */
  lemma ListSlotsSpec(slots: seq<Slot>, doctorId: DoctorId)
    ensures forall s :: s in ListSlots(slots, doctorId) <==> s in slots && s.doctorId == doctorId
    ensures forall s :: multiset(ListSlots(slots, doctorId))[s] ==
                        (if s.doctorId == doctorId then multiset(slots)[s] else 0)
    ensures InWeeklyOrder(ListSlots(slots, doctorId))
  {
    var mine := Filter(slots, OfDoctor(doctorId));
    FilterMultiset(slots, OfDoctor(doctorId));
    var r := SortBy(mine, SlotKey);
    assert forall s :: s in r <==> s in multiset(mine);
    forall i, j | 0 <= i < j < |r|
      ensures r[i].dayOfWeek < r[j].dayOfWeek || (r[i].dayOfWeek == r[j].dayOfWeek && r[i].startTime <= r[j].startTime)
    {
      SlotKeyOrder(r[i], r[j]);
    }
  }

  lemma ListSlotsHas(slots: seq<Slot>, doctorId: DoctorId, s: Slot)
    requires s in slots && s.doctorId == doctorId
    ensures s in ListSlots(slots, doctorId)
  {
    ListSlotsSpec(slots, doctorId);
  }

  /**
   * The listing does not depend on the order rows were inserted in: the same
   * rows in any order list the same sequence of (day, start time) pairs.
   */
  lemma ListSlotsOrderIndependent(t1: seq<Slot>, t2: seq<Slot>, doctorId: DoctorId)
    requires multiset(t1) == multiset(t2)
    ensures |ListSlots(t1, doctorId)| == |ListSlots(t2, doctorId)|
    ensures forall i :: 0 <= i < |ListSlots(t1, doctorId)| ==>
      ListSlots(t1, doctorId)[i].dayOfWeek == ListSlots(t2, doctorId)[i].dayOfWeek &&
      ListSlots(t1, doctorId)[i].startTime == ListSlots(t2, doctorId)[i].startTime
  {
    var m1, m2 := Filter(t1, OfDoctor(doctorId)), Filter(t2, OfDoctor(doctorId));
    FilterMultiset(t1, OfDoctor(doctorId));
    FilterMultiset(t2, OfDoctor(doctorId));
    assert multiset(m1) == multiset(m2) by {
      forall x
        ensures multiset(m1)[x] == multiset(m2)[x]
      {
      }
    }
    SortByOrderIndependent(m1, m2, SlotKey);
    var l1, l2 := ListSlots(t1, doctorId), ListSlots(t2, doctorId);
    assert l1 == SortBy(m1, SlotKey) && l2 == SortBy(m2, SlotKey);
    forall i | 0 <= i < |l1|
      ensures l1[i].dayOfWeek == l2[i].dayOfWeek && l1[i].startTime == l2[i].startTime
    {
      assert KeysOf(l1, SlotKey)[i] == KeysOf(l2, SlotKey)[i];
      SlotKeyOrder(l1[i], l2[i]);
    }
  }

  // ---------------------------------------------------------------------------
  // Who is asking: `user_roles` and the `doctors` row of the account

  /** The row filter `user_id = userId` on `user_roles`. */
  function RolesOf(userId: UserId): UserRole -> bool
  {
    (r: UserRole) => r.userId == userId
  }

  /** `roles.some(r => r.role === "doctor")` over the account's `user_roles` rows. */
  function IsDoctor(roles: seq<UserRole>, userId: UserId): (r: bool)
    ensures r <==> exists row :: row in roles && row.userId == userId && row.role == "doctor"
  {
    Find(Filter(roles, RolesOf(userId)), (row: UserRole) => row.role == "doctor").Some?
  }

  /** The row filter `user_id = userId` on `doctors`. */
  function OwnedBy(userId: UserId): Doctor -> bool
  {
    (d: Doctor) => d.userId == userId
  }

  /**
   * `from("doctors").eq("user_id", user?.id).single()`: the account's doctor
   * row when there is exactly one, and nothing otherwise (no user, no row, or
   * more than one row).
   */
  function DoctorOfUser(doctors: seq<Doctor>, user: Option<UserId>): (r: Option<Doctor>)
    ensures r.Some? ==> user.Some? && r.value in doctors && r.value.userId == user.value
    ensures r.Some? <==> user.Some? && |Filter(doctors, OwnedBy(user.value))| == 1
  {
    match user
    case None => None
    case Some(u) =>
      var rows := Filter(doctors, OwnedBy(u));
      if |rows| == 1 then assert rows[0] in rows; Some(rows[0]) else None
  }

  /** When the account owns exactly one doctor row, the lookup returns that row. */
  lemma DoctorOfUserFindsOnlyRow(doctors: seq<Doctor>, i: nat)
    requires i < |doctors|
    requires forall j :: 0 <= j < |doctors| && j != i ==> doctors[j].userId != doctors[i].userId
    ensures DoctorOfUser(doctors, Some(doctors[i].userId)) == Some(doctors[i])
  {
    var owned := OwnedBy(doctors[i].userId);
    var before, after := doctors[..i], doctors[i + 1..];
    assert doctors == before + [doctors[i]] + after;
    assert Filter(before, owned) == [] by {
      assert forall x :: x in before ==> !owned(x) by {
        forall x | x in before
          ensures !owned(x)
        {
          var k :| 0 <= k < |before| && before[k] == x;
          assert x == doctors[k];
        }
      }
      FilterNone(before, owned);
    }
    assert Filter(after, owned) == [] by {
      assert forall x :: x in after ==> !owned(x) by {
        forall x | x in after
          ensures !owned(x)
        {
          var k :| 0 <= k < |after| && after[k] == x;
          assert x == doctors[i + 1 + k];
        }
      }
      FilterNone(after, owned);
    }
    assert Filter([doctors[i]], owned) == [doctors[i]] by {
      assert [doctors[i]][1..] == [];
    }
    FilterConcat(before, [doctors[i]], owned);
    FilterConcat(before + [doctors[i]], after, owned);
  }

  // ---------------------------------------------------------------------------
  // The appointment listing and its profile join

  /** The patient columns the dashboard shows next to an appointment. */
  datatype PatientInfo = PatientInfo(fullName: string, phone: Option<string>)

  /** What is shown when the patient's profile cannot be found. */
  const UnknownPatient := PatientInfo("Unknown", None)

  /** An appointment row together with its patient's profile columns. */
  datatype AppointmentView = AppointmentView(appointment: Appointment, patient: PatientInfo)

  /** The row filter `doctor_id = doctorId` on `appointments`. */
  function ForDoctor(doctorId: DoctorId): Appointment -> bool
  {
    (a: Appointment) => a.doctorId == doctorId
  }

  function AppointmentDate(a: Appointment): int
  {
    a.appointmentDate
  }

  /** `from("appointments").eq("doctor_id", doctorId).order("appointment_date")`. */
  function AppointmentsByDate(appointments: seq<Appointment>, doctorId: DoctorId): seq<Appointment>
  {
    SortBy(Filter(appointments, ForDoctor(doctorId)), AppointmentDate)
  }

  /** The listing holds exactly the doctor's appointments, each as often as the table does, earliest first. */
  lemma AppointmentsByDateSpec(appointments: seq<Appointment>, doctorId: DoctorId)
    ensures forall a :: multiset(AppointmentsByDate(appointments, doctorId))[a] ==
                        (if a.doctorId == doctorId then multiset(appointments)[a] else 0)
    ensures var r := AppointmentsByDate(appointments, doctorId);
      forall i, j :: 0 <= i < j < |r| ==> r[i].appointmentDate <= r[j].appointmentDate
  {
    FilterMultiset(appointments, ForDoctor(doctorId));
  }

  /** `appointmentsData.map(a => a.user_id)`. */
  function PatientIds(appointments: seq<Appointment>): (r: seq<Option<UserId>>)
    ensures |r| == |appointments|
    ensures forall i :: 0 <= i < |appointments| ==> r[i] == appointments[i].userId
  {
    seq(|appointments|, i requires 0 <= i < |appointments| => appointments[i].userId)
  }

  /**
   * `profilesData?.find(p => p.id === appointment.user_id) || { full_name: "Unknown", phone: null }`;
   * `profiles` is `None` when the profile query returned no data.
   */
  function PatientOf(profiles: Option<seq<Profile>>, a: Appointment): (r: PatientInfo)
    ensures (profiles.None? || forall p :: p in profiles.value ==> Some(p.id) != a.userId) ==> r == UnknownPatient
    ensures profiles.Some? && (exists p :: p in profiles.value && Some(p.id) == a.userId) ==>
      exists i :: 0 <= i < |profiles.value| && Some(profiles.value[i].id) == a.userId &&
        r == PatientInfo(profiles.value[i].fullName, profiles.value[i].phone) &&
        forall j :: 0 <= j < i ==> Some(profiles.value[j].id) != a.userId
  {
    match profiles
    case None => UnknownPatient
    case Some(ps) =>
      match Find(ps, IsProfileOf(a.userId))
      case None => UnknownPatient
      case Some(p) => PatientInfo(p.fullName, p.phone)
  }

  /** `appointmentsData.map(appointment => ({ ...appointment, profiles: ... }))`. */
  function JoinPatients(appointments: seq<Appointment>, profiles: Option<seq<Profile>>): (r: seq<AppointmentView>)
    ensures |r| == |appointments|
    ensures forall i :: 0 <= i < |appointments| ==>
      r[i].appointment == appointments[i] && r[i].patient == PatientOf(profiles, appointments[i])
  {
    seq(|appointments|, i requires 0 <= i < |appointments| =>
      AppointmentView(appointments[i], PatientOf(profiles, appointments[i])))
  }

  /**
   * Fetching only the profiles of the listed patients changes nothing: each
   * appointment gets the patient the whole `profiles` table would give it.
   */
  lemma JoinPatientsSeesWholeTable(appointments: seq<Appointment>, table: seq<Profile>)
    ensures JoinPatients(appointments, Some(ProfilesIn(table, PatientIds(appointments)))) ==
            JoinPatients(appointments, Some(table))
  {
    var ids := PatientIds(appointments);
    forall i | 0 <= i < |appointments|
      ensures PatientOf(Some(ProfilesIn(table, ids)), appointments[i]) == PatientOf(Some(table), appointments[i])
    {
      assert ids[i] == appointments[i].userId;
      ProfilesInKeepsLookups(table, ids, appointments[i].userId);
    }
  }

  /**
   * The slot listing after `fetchTimeSlots` for the account whose doctor row
   * is `me`: reloaded when there is a row and the query succeeds, kept otherwise.
   */
  function SlotsAfterFetch(me: Option<Doctor>, slots: seq<Slot>, previous: seq<Slot>, fails: bool): seq<Slot>
  {
    if me.Some? && !fails then ListSlots(slots, me.value.id) else previous
  }

  /**
   * The appointment listing after `fetchAppointments`: the doctor's
   * appointments by date, joined with the patients' profiles (with no profile
   * data when that query fails); kept when there is no row or the first query fails.
   */
  function AppointmentsAfterFetch(me: Option<Doctor>, appointments: seq<Appointment>, profiles: seq<Profile>,
                                  previous: seq<AppointmentView>, fails: bool, patientsFail: bool)
    : seq<AppointmentView>
  {
    if me.Some? && !fails then
      var mine := AppointmentsByDate(appointments, me.value.id);
      JoinPatients(mine, if patientsFail then None else Some(ProfilesIn(profiles, PatientIds(mine))))
    else previous
  }

  // ---------------------------------------------------------------------------
  // The page

  /** The "Add Time Slot" form: the selector's value and the two time inputs. */
  datatype SlotForm = SlotForm(dayOfWeek: string, startTime: TimeOfDay, endTime: TimeOfDay)

  /** The form's initial state: Sunday, 09:00 to 09:30. */
  const InitialForm := SlotForm("0", 9 * 60, 9 * 60 + 30)

  /** How `checkAuthAndFetchData` ends. */
  datatype Access = SignInRequired | AccessDenied | Granted

  /** Which of the reads made while loading the dashboard come back with an error. */
  datatype LoadFaults = LoadFaults(
    rolesFail: bool,
    profileFails: bool,
    slotsFail: bool,
    appointmentsFail: bool,
    patientsFail: bool)

  class Dashboard {
    const db: Database
    /** The signed-in account, as `supabase.auth.getUser()` reports it. */
    const user: Option<UserId>
    var doctorProfile: Option<Doctor>
    var timeSlots: seq<Slot>
    var appointments: seq<AppointmentView>
    var newSlot: SlotForm

    ghost predicate Valid()
      reads this, db
    {
      db.Valid() && newSlot.dayOfWeek in DayValues()
    }

    constructor (db: Database, user: Option<UserId>)
      requires db.Valid()
      ensures Valid()
      ensures this.db == db && this.user == user
      ensures doctorProfile == None && timeSlots == [] && appointments == [] && newSlot == InitialForm
    {
      this.db, this.user := db, user;
      doctorProfile, timeSlots, appointments := None, [], [];
      newSlot := InitialForm;
      assert DayValues()[0] == "0";
    }

    /** The day `parseInt(newSlot.day_of_week)` yields. */
    function SelectedDay(): Weekday
      reads this
      requires newSlot.dayOfWeek in DayValues()
    {
      DayValuesDecode(newSlot.dayOfWeek);
      Parse(newSlot.dayOfWeek).value
    }

    /** The selector's `onValueChange`; it only ever passes one of its option values. */
    method SelectDay(value: string)
      requires Valid() && value in DayValues()
      modifies this`newSlot
      ensures Valid()
      ensures newSlot == old(newSlot).(dayOfWeek := value)
      ensures DayValues()[SelectedDay()] == value
    {
      newSlot := newSlot.(dayOfWeek := value);
      DayValuesDecode(value);
    }

    method SetStartTime(t: TimeOfDay)
      requires Valid()
      modifies this`newSlot
      ensures Valid() && newSlot == old(newSlot).(startTime := t)
    {
      newSlot := newSlot.(startTime := t);
    }

    method SetEndTime(t: TimeOfDay)
      requires Valid()
      modifies this`newSlot
      ensures Valid() && newSlot == old(newSlot).(endTime := t)
    {
      newSlot := newSlot.(endTime := t);
    }

    /** The account's doctor row, looked up afresh by every handler. */
    function Me(): Option<Doctor>
    {
      DoctorOfUser(db.doctors, user)
    }

    method FetchDoctorProfile(fails: bool)
      modifies this`doctorProfile
      ensures doctorProfile == if Me().Some? && !fails then Me() else old(doctorProfile)
    {
      var doctor := DoctorOfUser(db.doctors, user);
      if doctor.None? || fails {
        return;
      }
      doctorProfile := doctor;
    }

    method FetchTimeSlots(fails: bool)
      modifies this`timeSlots
      ensures timeSlots == SlotsAfterFetch(Me(), db.slots, old(timeSlots), fails)
    {
      var doctor := DoctorOfUser(db.doctors, user);
      if doctor.None? {
        return;
      }
      if !fails {
        timeSlots := ListSlots(db.slots, doctor.value.id);
      }
    }

    method FetchAppointments(fails: bool, patientsFail: bool)
      modifies this`appointments
      ensures appointments == AppointmentsAfterFetch(Me(), db.appointments, db.profiles, old(appointments), fails, patientsFail)
    {
      var doctor := DoctorOfUser(db.doctors, user);
      if doctor.None? {
        return;
      }
      if fails {
        return;
      }
      var mine := AppointmentsByDate(db.appointments, doctor.value.id);
      var userIds := PatientIds(mine);
      var profilesData := if patientsFail then None else Some(ProfilesIn(db.profiles, userIds));
      appointments := JoinPatients(mine, profilesData);
    }

    /** The page's load: doctors only; everyone else gets no slot or appointment data. */
    method CheckAuthAndFetchData(faults: LoadFaults) returns (access: Access)
      modifies this`doctorProfile, this`timeSlots, this`appointments
      ensures access == if user.None? then SignInRequired
                        else if faults.rolesFail || !IsDoctor(db.roles, user.value) then AccessDenied
                        else Granted
      ensures access != Granted ==>
        doctorProfile == old(doctorProfile) && timeSlots == old(timeSlots) && appointments == old(appointments)
      ensures access == Granted ==>
        && doctorProfile == (if Me().Some? && !faults.profileFails then Me() else old(doctorProfile))
        && timeSlots == SlotsAfterFetch(Me(), db.slots, old(timeSlots), faults.slotsFail)
        && appointments == AppointmentsAfterFetch(Me(), db.appointments, db.profiles, old(appointments), faults.appointmentsFail, faults.patientsFail)
    {
      if user.None? {
        return SignInRequired;
      }
      var isDoctor := !faults.rolesFail && IsDoctor(db.roles, user.value);
      if !isDoctor {
        return AccessDenied;
      }
      FetchDoctorProfile(faults.profileFails);
      FetchTimeSlots(faults.slotsFail);
      FetchAppointments(faults.appointmentsFail, faults.patientsFail);
      access := Granted;
    }

    /**
     * `handleAddTimeSlot`: insert the form's slot for the account's doctor
     * row, available, then reload the listing. Without a doctor row nothing happens.
     */
    method AddTimeSlot(insertFails: bool, refreshFails: bool) returns (added: bool)
      requires Valid()
      modifies db, this`timeSlots
      ensures Valid()
      ensures added <==> Me().Some? && !insertFails
      ensures added ==>
        db.slots == old(db.slots) + [Slot(old(db.nextId), Me().value.id, SelectedDay(), newSlot.startTime, newSlot.endTime, true)]
      ensures added ==> timeSlots == SlotsAfterFetch(Me(), db.slots, old(timeSlots), refreshFails)
      ensures added && !refreshFails ==> db.slots[|db.slots| - 1] in timeSlots
      ensures !added ==> db.slots == old(db.slots) && timeSlots == old(timeSlots)
      ensures db.appointments == old(db.appointments)
    {
      var doctor := DoctorOfUser(db.doctors, user);
      if doctor.None? {
        return false;
      }
      var day := SelectedDay();
      ghost var row := Slot(db.nextId, doctor.value.id, day, newSlot.startTime, newSlot.endTime, true);
      added := db.InsertSlot(doctor.value.id, day, newSlot.startTime, newSlot.endTime, insertFails);
      if !added {
        return;
      }
      assert db.slots[|db.slots| - 1] == row;
      FetchTimeSlots(refreshFails);
      ListSlotsHas(db.slots, doctor.value.id, row);
    }

    /** `handleDeleteTimeSlot`: delete every row with this id, then reload the listing. */
    method DeleteTimeSlot(id: SlotId, deleteFails: bool, refreshFails: bool) returns (deleted: bool)
      requires Valid()
      modifies db, this`timeSlots
      ensures Valid()
      ensures deleted == !deleteFails
      ensures db.slots == if deleted then WithoutSlot(old(db.slots), id) else old(db.slots)
      ensures timeSlots == if deleted then SlotsAfterFetch(Me(), db.slots, old(timeSlots), refreshFails) else old(timeSlots)
      ensures db.appointments == old(db.appointments)
    {
      deleted := db.DeleteSlot(id, deleteFails);
      if !deleted {
        return;
      }
      FetchTimeSlots(refreshFails);
    }

    /**
     * `handleToggleSlotAvailability(id, isAvailable)`: store the negation of
     * the flag the switch showed, then reload the listing.
     */
    method ToggleSlotAvailability(id: SlotId, isAvailable: bool, updateFails: bool, refreshFails: bool)
      returns (updated: bool)
      requires Valid()
      modifies db, this`timeSlots
      ensures Valid()
      ensures updated == !updateFails
      ensures db.slots == if updated then WithAvailability(old(db.slots), id, !isAvailable) else old(db.slots)
      ensures timeSlots == if updated then SlotsAfterFetch(Me(), db.slots, old(timeSlots), refreshFails) else old(timeSlots)
      ensures db.appointments == old(db.appointments)
    {
      updated := db.UpdateSlotAvailability(id, !isAvailable, updateFails);
      if !updated {
        return;
      }
      FetchTimeSlots(refreshFails);
    }
  }
}
