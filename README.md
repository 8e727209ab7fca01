# Doctor time slots and booking, modelled in Dafny

This project models the scheduling core of a small appointment-booking web
application. Two pages make up that core:

- **The doctor's dashboard** (`src/pages/DoctorDashboard.tsx`). A signed-in doctor keeps
  a table of weekly time slots, each with a day of the week, a start time, an
  end time and an `is_available` flag. The doctor adds, deletes and switches
  slots, and sees their booked appointments with each patient's name and phone.
- **The patients' doctor list** (`src/pages/DoctorsList.tsx`). Patients see every
  doctor with their profile. The page groups the open slots by doctor, offers
  the slots of one doctor that fall on the weekday of the chosen date, and
  books one. Booking records a "consultation" appointment and then marks the
  slot unavailable.

The backend tables (`time_slots`, `appointments`, `doctors`, `profiles`,
`user_roles`) are sequences of rows held by one `Database` object. Its four
writes (insert a slot, delete a slot, set a slot's flag, insert an
appointment) are its only mutations. Every read or write whose failure the
page code tests takes a `fails` flag, except the lookup of the account's
doctor row (see "## Left out"), so each error path of the pages is
reproduced. The two pages are classes whose fields are the pages' state
variables. Their methods are the page handlers and change those fields and
the store.

Modules, one file each:

- `Seqs`: the list operations the pages rely on. These are JavaScript's
  `filter` and `find`, and the `order(...)` of a query (a stable insertion
  sort by an integer key). Each comes with the facts the pages need:
  membership, multiplicity, relative order, first match, and that the sorted
  keys do not depend on the input order. The sorted rows themselves can
  depend on it, since rows with equal keys keep their input order.
- `Decimal`: `idx.toString()` and `parseInt` on the day selector's values, with
  the round trip between them.
- `Schema`: the rows, the pure table updates (`WithoutSlot`, `WithAvailability`),
  the shared query filters, and the `Database` class.
- `DoctorDashboard`: the day selector, the slot listing, the role gate, the
  account's doctor row, the appointment listing with its patient join, and the
  `Dashboard` class with its handlers.
- `DoctorsList`: the doctor and profile join, the open-slot query, the
  group-by-doctor `reduce`, the per-day view, and the `DoctorsPage` class with
  the booking handler.
- `Scenario`: one session of both pages over one store, in three steps. A
  patient is refused the dashboard. The doctor adds a Monday slot on the
  dashboard. The patient then opens the doctor list on that store, books that
  slot, and no longer sees it offered.

Modelling choices:

- Row ids are natural numbers. The store hands out a fresh id on every insert
  from a counter. `Database.Valid()` keeps slot ids and appointment ids unique
  and below the counter.
- A `time` column is a number of minutes since midnight, 0 to 1439. The
  listing orders by the single key `day * 1440 + start`, which orders exactly
  as day and then start time (`SlotKeyOrder`).
- The signed-in account is an `Option<UserId>` given to each page when it is
  built. The appointment date is an opaque `Instant`, carried together with
  its weekday, 0 to 6 with 0 = Sunday.
- The handlers run one after another. Each one calls the fetch functions the
  source calls, at the same point.

Three behaviours of the code that the model keeps as they are:

- The code does not check `start < end` before inserting a slot
  (src/pages/DoctorDashboard.tsx:175-181), and neither does `AddTimeSlot`.
- The two writes of `handleBookAppointment` are separate, the flag update is
  unconditional, and nothing is rolled back (src/pages/DoctorsList.tsx:131-165).
  `BookAppointment` states this: when the second write fails, the appointment
  stays and the slot stays open.
- Booking consumes the weekly slot row itself. `BookedSlotNotOffered` shows
  that a booked slot is then offered on no weekday at all, not only on the
  booked date.

## Model

| member | source | states |
|---|---|---|
| Seqs.Filter | src/pages/DoctorsList.tsx:179 | The result holds exactly the elements that satisfy the predicate, and it is never longer than the input. |
| Seqs.FilterMultiset | src/pages/DoctorDashboard.tsx:116-119 | Each element that satisfies the predicate is kept as many times as it occurs. Every other element is dropped entirely. |
| Seqs.FilterIsSubsequence | src/pages/DoctorsList.tsx:179 | Filtering only drops elements; the survivors keep their relative order. |
| Seqs.Find | src/pages/DoctorDashboard.tsx:156 | `find` returns nothing exactly when no element matches. Otherwise it returns the element at the first matching position. |
| Seqs.FindInFiltered | src/pages/DoctorDashboard.tsx:147-156 | Searching only among pre-filtered elements finds the same first match, provided every match passes the pre-filter. |
| Seqs.SortBy | src/pages/DoctorDashboard.tsx:120-121 | `order(key)` returns a sequence ascending by the key, with the same elements as many times each. |
| Seqs.SortByOrderIndependent | src/pages/DoctorDashboard.tsx:116-121 | Two arrangements of the same rows sort to the same sequence of keys. |
| Decimal.Show | src/pages/DoctorDashboard.tsx:300 | `idx.toString()` is a non-empty string of decimal digits with no leading zero. |
| Decimal.Parse | src/pages/DoctorDashboard.tsx:177 | `parseInt` yields a number exactly when the string is non-empty and all digits; otherwise it yields NaN. |
| Decimal.ParseShow | src/pages/DoctorDashboard.tsx:177 | Reading back a written number with `parseInt` gives that number again. |
| Schema.WithoutSlot | src/pages/DoctorDashboard.tsx:201-204 | Deleting by id removes every row with that id. The other rows are all kept, as many times each as before, in their original relative order. |
| Schema.WithoutSlotRemovesOne | src/pages/DoctorDashboard.tsx:201-204 | With unique ids, deleting the id of row i removes exactly row i and leaves the rows before and after it as they were. |
| Schema.WithAvailability | src/pages/DoctorDashboard.tsx:224-227 | The table keeps its length and order, and no field other than the flag changes. The flag of the rows with that id is set to the given value. |
| Schema.AvailabilityKeepsIds | src/pages/DoctorDashboard.tsx:224-227 | Setting a flag keeps ids unique and below the id counter. |
| Schema.ToggleTwiceRestores | src/pages/DoctorDashboard.tsx:223-227 | Switching a slot to the negation of its shown flag and then switching it back restores the table. |
| Schema.ProfilesIn | src/pages/DoctorDashboard.tsx:148-151 | The `in("id", ids)` query returns exactly the profiles whose id is one of the given ids. A missing id matches no profile. |
| Schema.ProfilesInKeepsLookups | src/pages/DoctorDashboard.tsx:147-156 | For any listed id, looking it up among the fetched profiles finds what the whole table would give. |
| Schema.Database.InsertSlot | src/pages/DoctorDashboard.tsx:175-181 | A successful insert appends one available row with a fresh id, leaves the existing rows as they are and advances the id counter by one. A failed insert changes nothing, the counter included. |
| Schema.Database.DeleteSlot | src/pages/DoctorDashboard.tsx:201-204 | A successful delete applies `WithoutSlot`; a failed one changes nothing. Appointments are untouched, and ids stay unique. |
| Schema.Database.UpdateSlotAvailability | src/pages/DoctorsList.tsx:152-155 | A successful update applies `WithAvailability`; a failed one changes nothing. Appointments are untouched. |
| Schema.Database.InsertAppointment | src/pages/DoctorsList.tsx:131-139 | A successful insert appends one row with a fresh id and the given columns and advances the id counter by one. A failed insert changes nothing, the counter included. Slots are untouched. |
| DoctorDashboard.DayValues | src/pages/DoctorDashboard.tsx:299-301 | The selector has one option value for each of the seven day names. |
| DoctorDashboard.DayValuesAreIndexNumerals | src/pages/DoctorDashboard.tsx:299-301 | Each option value is the decimal numeral of its index. |
| DoctorDashboard.DayValuesDecode | src/pages/DoctorDashboard.tsx:294-301 | `parseInt` of any option value is the index of a day name, and it names that same option. |
| DoctorDashboard.SlotKeyOrder | src/pages/DoctorDashboard.tsx:120-121 | The single listing key orders slots as day of week first and start time second. |
| DoctorDashboard.ListSlotsSpec | src/pages/DoctorDashboard.tsx:116-121 | The listing holds exactly the doctor's rows, each as often as the table does, ordered by day and then start time. |
| DoctorDashboard.ListSlotsHas | src/pages/DoctorDashboard.tsx:116-121 | Every row of the doctor appears in the listing. |
| DoctorDashboard.ListSlotsOrderIndependent | src/pages/DoctorDashboard.tsx:116-121 | However the rows were inserted, the listing has the same length and the same day and start time at every position. |
| DoctorDashboard.IsDoctor | src/pages/DoctorDashboard.tsx:70-76 | The gate passes exactly when some `user_roles` row of the account has role "doctor". |
| DoctorDashboard.DoctorOfUser | src/pages/DoctorDashboard.tsx:108-114 | `.single()` yields a row exactly when an account is signed in and owns exactly one doctor row. The row yielded belongs to that account. |
| DoctorDashboard.DoctorOfUserFindsOnlyRow | src/pages/DoctorDashboard.tsx:92-96 | When no other doctor row has the same owner, the lookup returns that row. |
| DoctorDashboard.AppointmentsByDateSpec | src/pages/DoctorDashboard.tsx:138-142 | The listing holds exactly the doctor's appointments, each as often as the table does, with the earliest date first. |
| DoctorDashboard.PatientIds | src/pages/DoctorDashboard.tsx:147 | The id list has one entry per appointment, in order: that appointment's user id. |
| DoctorDashboard.PatientOf | src/pages/DoctorDashboard.tsx:156-159 | With no profile data, or no profile matching the user id, the patient is "Unknown" with no phone. Otherwise it is the first matching profile's name and phone. |
| DoctorDashboard.JoinPatients | src/pages/DoctorDashboard.tsx:154-160 | The join has the same length and order as the appointments. Each entry keeps its appointment and carries that appointment's patient. |
| DoctorDashboard.JoinPatientsSeesWholeTable | src/pages/DoctorDashboard.tsx:147-160 | Joining against only the fetched profiles gives the same result as joining against the whole `profiles` table. |
| DoctorDashboard.Dashboard.constructor | src/pages/DoctorDashboard.tsx:46-54 | The page starts with no profile, slots or appointments. The form starts at day "0", 09:00 to 09:30. |
| DoctorDashboard.Dashboard.SelectDay | src/pages/DoctorDashboard.tsx:294 | Choosing an option changes only the form's day. The day the form then yields is the index of that option. |
| DoctorDashboard.Dashboard.SetStartTime | src/pages/DoctorDashboard.tsx:311 | The start time input changes only the form's start time. |
| DoctorDashboard.Dashboard.SetEndTime | src/pages/DoctorDashboard.tsx:319 | The end time input changes only the form's end time. |
| DoctorDashboard.Dashboard.FetchDoctorProfile | src/pages/DoctorDashboard.tsx:90-104 | The profile is set to the account's single doctor row. With no such row, or when the query fails, it is left alone. |
| DoctorDashboard.Dashboard.FetchTimeSlots | src/pages/DoctorDashboard.tsx:106-126 | The slot list is replaced by the doctor's listing. With no doctor row, or when the query fails, it is kept. |
| DoctorDashboard.Dashboard.FetchAppointments | src/pages/DoctorDashboard.tsx:128-163 | The appointment list is replaced by the doctor's appointments by date, joined with patients; a failed profile read gives "Unknown" patients. With no doctor row, or a failed appointment read, the list is kept. |
| DoctorDashboard.Dashboard.CheckAuthAndFetchData | src/pages/DoctorDashboard.tsx:62-88 | With no account the result is sign-in; without a "doctor" role (or when the role read fails) it is access denied. In both cases no page state changes. Otherwise all three fetches run. |
| DoctorDashboard.Dashboard.AddTimeSlot | src/pages/DoctorDashboard.tsx:165-198 | A slot is added exactly when the account has a doctor row and the insert succeeds. The added row is the form's day, start and end, for that doctor, available, appended after the unchanged rows. After a good refresh the listing shows it. Otherwise nothing changes. |
| DoctorDashboard.Dashboard.DeleteTimeSlot | src/pages/DoctorDashboard.tsx:200-221 | On success the table loses every row with the id and the listing is refetched. On failure nothing changes. |
| DoctorDashboard.Dashboard.ToggleSlotAvailability | src/pages/DoctorDashboard.tsx:223-239 | On success the row gets the negation of the flag that was shown and the listing is refetched. On failure nothing changes. |
| DoctorsList.DoctorUserIds | src/pages/DoctorsList.tsx:80 | The id list has one entry per doctor, in order: the doctor's owner id. |
| DoctorsList.DoctorProfileOf | src/pages/DoctorsList.tsx:98-101 | With no profile for the owner, the card shows "Unknown" with no avatar. Otherwise it shows the first matching profile's name and avatar. |
| DoctorsList.JoinDoctors | src/pages/DoctorsList.tsx:96-102 | The cards have the same length and order as the doctors. Each card keeps its doctor row and carries that doctor's profile. |
| DoctorsList.JoinDoctorsSeesWholeTable | src/pages/DoctorsList.tsx:80-102 | Joining against only the owners' fetched profiles gives the same cards as joining against the whole table. |
| DoctorsList.AvailableSlots | src/pages/DoctorsList.tsx:107-110 | Every slot kept is available. Exactly the available rows are kept, as many times each as in the table, in their order. |
| DoctorsList.BucketsSnoc | src/pages/DoctorsList.tsx:113-118 | Grouping one more slot equals pushing that slot onto its doctor's bucket, which is created when missing. |
| DoctorsList.GroupedIsBuckets | src/pages/DoctorsList.tsx:113-119 | The `reduce` of pushes builds, for each doctor with a slot, exactly that doctor's slots in input order. |
| DoctorsList.GroupByDoctor | src/pages/DoctorsList.tsx:113-119 | The loop that updates the accumulator in place builds exactly those buckets. |
| DoctorsList.BucketsPartition | src/pages/DoctorsList.tsx:113-119 | A bucket exists exactly for each doctor with a slot. Each slot is in exactly its own doctor's bucket, as many times as in the input. Each bucket is non-empty and keeps input order. |
| DoctorsList.BucketsCount | src/pages/DoctorsList.tsx:113-119 | The buckets together hold exactly as many slots as the input. |
| DoctorsList.SlotsForDay | src/pages/DoctorsList.tsx:177-180 | A doctor with no bucket gets an empty list. Otherwise the list holds exactly the bucket's slots on that weekday, as many times each as the bucket does, in bucket order. |
| DoctorsList.Offered | src/pages/DoctorsList.tsx:177-179 | After a fetch, a slot is offered for a doctor on a weekday exactly when it is an open row of that doctor on that weekday. |
| DoctorsList.BookedSlotNotOffered | src/pages/DoctorsList.tsx:152-155 | Once a slot's flag is cleared, no doctor is offered a slot with that id on any weekday. |
| DoctorsList.DoctorsPage.constructor | src/pages/DoctorsList.tsx:38-42 | The page starts with no doctors, no buckets, no selection, today's date, and no booking in flight. |
| DoctorsList.DoctorsPage.FetchDoctors | src/pages/DoctorsList.tsx:64-122 | A failed doctors or profiles read changes nothing. Otherwise the cards are the join. The buckets are the grouping of the open slots unless the slot read returns no data, in which case the old buckets are kept. |
| DoctorsList.DoctorsPage.CheckAuthAndFetchDoctors | src/pages/DoctorsList.tsx:50-62 | The list is fetched exactly when an account is signed in; otherwise nothing changes. |
| DoctorsList.DoctorsPage.SelectDoctor | src/pages/DoctorsList.tsx:230 | "View Schedule" selects that card. |
| DoctorsList.DoctorsPage.SelectDate | src/pages/DoctorsList.tsx:250 | The date input sets the selected date. |
| DoctorsList.DoctorsPage.BookAppointment | src/pages/DoctorsList.tsx:124-175 | See the three cases below this table. The loading flag is down on every exit. |

`DoctorsList.DoctorsPage.BookAppointment` has three cases:

- With no doctor selected, nothing changes.
- If the insert fails, neither table changes. Otherwise exactly one
  appointment is appended. Its columns are the account, the selected doctor,
  the slot id, the selected instant, "consultation", "scheduled" and the
  doctor's shown name.
- If the flag update then fails, the slot table stays as it was. Otherwise the
  slot is closed, the selection is cleared and the list is refetched. After a
  good refetch the slot is offered on no weekday.

## Left out

- Rendering, dialogs, toasts, `console.error` and navigation (`navigate("/auth")`, `navigate("/")`) are presentation only. Their places in the handlers are the early returns the model has.
- The backend client and network are replaced by the in-memory `Database`. `supabase.auth.getUser()` becomes the account each page is built with, and the handlers re-read the same account.
- Concurrency is not modelled. The handlers' un-awaited fetches and two patients booking at once are not represented; handlers run one after another. No conditional (compare-and-swap) flag update is added, because the code has none.
- Date handling (`new Date()`, `getDay()` and its time zone, `toISOString()`, `format`) is not modelled. The chosen date is an opaque instant with its weekday given alongside it.
- Time values are minutes, not `"HH:MM"` strings. The display cut `slice(0, 5)` is not modelled.
- Row ids are numbers from a counter, not generated UUID strings.
- Decimal.Parse: models `parseInt` only on strings that are entirely digits, and yields no number otherwise. JavaScript's acceptance of leading spaces, signs and trailing junk is not modelled, because only the selector's own option values reach it.
- DoctorDashboard.ListSlotsOrderIndependent: states that the day and start time agree at each position, not that the rows themselves do. The order of rows with equal day and start time is not fixed by the query. The model's sort keeps input order among them.
- DoctorsList.DoctorsPage.FetchDoctors: the `doctors` query has no `order`. The model returns the rows in table order.
- Where a read leaves the order of rows open, the model fixes one: input (table) order. This covers three reads. In the slot listing, rows with equal day and start time keep table order (src/pages/DoctorDashboard.tsx:116-121). In the appointment listing, appointments with equal `appointment_date` keep table order (src/pages/DoctorDashboard.tsx:138-142), which `DoctorDashboard.Dashboard.FetchAppointments` then pins exactly. The unordered open-slot read returns the table order, so that is the order within each doctor's bucket (src/pages/DoctorsList.tsx:107-110).
- The lookup of the account's doctor row in `fetchTimeSlots`, `fetchAppointments` and `handleAddTimeSlot` has no failure flag of its own. The code tests it with `if (!doctor) return` (src/pages/DoctorDashboard.tsx:114, 136, 173). The delete and toggle handlers make no lookup. `fetchDoctorProfile` tests the lookup's `error`, and its model does take a flag. A failed lookup and a missing row take the same exit in the code, and the model takes that exit only when the account owns no row or several.
- Profiles and doctor rows carry only the columns the pages read: name, phone and avatar for profiles, and the listed columns for doctors. The `isEditingProfile` state is never used by the handlers and is not modelled.
- DoctorsList.DoctorsPage.BookAppointment: accepts any slot, as the code does. That the slot belongs to the selected doctor and is open comes only from the view that offers it (`DoctorsList.Offered`).
