/**
 * One session over one store, in three steps: a patient is refused the
 * dashboard; the doctor adds a Monday slot on the dashboard; the patient
 * opens the doctor list, sees that slot offered for Monday, books it, and the
 * refreshed list no longer offers it.
 * The assertions are what the operations' contracts let a caller conclude.
 */
module Scenario {
  import opened Seqs
  import opened Schema
  import DoctorDashboard
  import DoctorsList

  /** The store at the start: one doctor (account 7), one patient (account 8), no slots yet. */
  method NewStore() returns (db: Database)
    ensures fresh(db) && db.Valid()
    ensures db.doctors == [Doctor(0, 7, "Cardiology", "MD", 12, None)]
    ensures db.profiles == [Profile(7, "Dr. Rao", None, None), Profile(8, "Asha", Some("555-0100"), None)]
    ensures db.roles == [UserRole(7, "doctor"), UserRole(8, "patient")]
    ensures db.slots == [] && db.appointments == [] && db.nextId == 0
  {
    var rao := Doctor(0, 7, "Cardiology", "MD", 12, None);
    db := new Database([rao], [Profile(7, "Dr. Rao", None, None), Profile(8, "Asha", Some("555-0100"), None)],
                       [UserRole(7, "doctor"), UserRole(8, "patient")]);
  }

  /** The patient (account 8) opens the dashboard and is turned away; the store is only read. */
  method PatientDenied(db: Database)
    requires db.Valid() && db.roles == [UserRole(7, "doctor"), UserRole(8, "patient")]
  {
    var view := new DoctorDashboard.Dashboard(db, Some(8));
    var denied := view.CheckAuthAndFetchData(DoctorDashboard.LoadFaults(false, false, false, false, false));
    assert Filter(db.roles, DoctorDashboard.RolesOf(8)) == [UserRole(8, "patient")];
    assert denied == DoctorDashboard.AccessDenied;
    assert view.timeSlots == [] && view.appointments == [];
  }

  /**
   * The doctor (account 7) adds a Monday 09:00-09:30 slot on the dashboard,
   * which the refreshed listing shows.
   */
  method DoctorAddsSlot(db: Database)
    requires db.Valid() && db.doctors == [Doctor(0, 7, "Cardiology", "MD", 12, None)]
    requires db.slots == [] && db.nextId == 0
    modifies db
    ensures db.Valid() && db.slots == [Slot(0, 0, 1, 540, 570, true)] && db.appointments == old(db.appointments)
  {
    var dash := new DoctorDashboard.Dashboard(db, Some(7));
    assert Filter(db.doctors, DoctorDashboard.OwnedBy(7)) == db.doctors;
    assert dash.Me() == Some(db.doctors[0]);
    assert DoctorDashboard.DayValues()[1] == "1";
    dash.SelectDay("1");
    assert dash.SelectedDay() == 1;
    var added := dash.AddTimeSlot(false, false);
    assert added;
    assert db.slots == [Slot(0, 0, 1, 540, 570, true)];
    assert db.slots[0] in dash.timeSlots;
  }

  /** The patient opens the list on a Monday, with one open Monday slot in the store. */
  method OpenList(db: Database) returns (page: DoctorsList.DoctorsPage)
    requires db.Valid() && |db.doctors| == 1 && db.slots == [Slot(0, 0, 1, 540, 570, true)]
    ensures fresh(page) && page.Valid() && page.db == db && page.user == Some(8)
    ensures page.selectedDate.weekday == 1 && |page.doctors| == 1
    ensures Slot(0, 0, 1, 540, 570, true) in DoctorsList.SlotsForDay(page.timeSlots, 0, 1)
  {
    page := new DoctorsList.DoctorsPage(db, Some(8), DoctorsList.SelectedDate(0, 1));
    var signedIn := page.CheckAuthAndFetchDoctors(DoctorsList.FetchFaults(false, false, false));
    assert signedIn;
    DoctorsList.Offered(db.slots, 0, 1, db.slots[0]);
  }

  /** The patient books the slot the doctor added, and the refreshed list no longer offers it. */
  method PatientBooksSlot(db: Database)
    requires db.Valid() && |db.doctors| == 1 && db.slots == [Slot(0, 0, 1, 540, 570, true)]
    modifies db
  {
    var page := OpenList(db);
    page.SelectDoctor(page.doctors[0]);
    var booking := page.BookAppointment(db.slots[0], false, false, DoctorsList.FetchFaults(false, false, false));
    assert booking == DoctorsList.Booked;
    assert db.appointments[|db.appointments| - 1].timeSlotId == 0;
    assert db.appointments[|db.appointments| - 1].userId == Some(8);
    assert forall s :: s in DoctorsList.SlotsForDay(page.timeSlots, 0, 1) ==> s.id != 0;
    assert !page.isLoading && page.selectedDoctor == None;
  }

  /** The three steps in order, on the same store. */
  method Session() {
    var db := NewStore();
    PatientDenied(db);
    DoctorAddsSlot(db);
    PatientBooksSlot(db);
  }
}
