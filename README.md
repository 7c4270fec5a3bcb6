# Vaccine scheduler: a Dafny model of the command handlers

The scheduler is a command-line program. Patients and caregivers register and
log in. A caregiver offers dates and adds vaccine doses. A patient reserves a
date and a vaccine. Both can list their appointments. Every handler in
`src/main/scheduler/Scheduler.java` reads and writes four database tables
(Patients/Caregivers, Availabilities, Vaccines, Appointments) and two static
session fields. This project keeps that state in memory, in one class, and
proves what each handler does to it.

Files (all modules are passed to Dafny together):

- `wrappers.dfy`: `Option`.
- `ordering.dfy`: the lexicographic string order used by the `ORDER BY`
  queries, and its properties. It is a strict total order, a non-empty set has
  a unique first element, and a strictly sorted listing of a set is unique.
  `SortedElements` produces that listing.
- `passwords.dfy`: the password-strength rule of `create_patient` and
  `create_caregiver`.
- `tables.dfy`: the table rows as datatypes, plus the pure rules over them:
  - `CaregiversOn`: who is free on a date;
  - `ChooseCaregiver`: the `TOP 1 ... ORDER BY Username` query;
  - `DosesOf`: an unknown vaccine reads as 0;
  - `Restock`: the `add_doses` update;
  - `Listing`: the `show_appointments` filter.

  It also holds the as-written caregiver selection for the finding below.
- `scheduler.dfy`: class `Scheduler`. Its fields are the tables, the next
  appointment id and the two session fields `currentCaregiver` and
  `currentPatient`. `Valid()` holds the invariant at `Scheduler.java:19`: at
  most one of the two session fields is set. It also requires appointment ids
  to be increasing and below the next id. One method per command handler
  returns an `Outcome` in place of the printed line.
- `scenarios.dfy`: client methods that run whole command sessions. They show
  that:
  - with one caregiver "carol" and 5 doses, the reservation gets id 1 and
    "carol", and leaves 4 doses;
  - 0 doses with a caregiver free, no caregiver free with doses in stock, or
    neither, refuses the reservation with exactly the reasons that apply and
    changes nothing;
  - of "bob" and "carol", "bob" is chosen;
  - a last dose is not given out twice;
  - offering the same date twice leaves one slot.

Apart from the one corrected defect under "## Findings" (how `reserve` reads
an empty caregiver name), the model follows the code as written, including
where it is looser than a design for this program would be:

- `reserve` does three unguarded writes, in the code's order. It inserts the
  appointment, then deletes the availability row, then decrements the dose.
  There is no transaction and no rollback.
- A negative `add_doses` count is not refused.
- A vaccine whose stock is negative passes the `doses == 0` check.
- A patient and a caregiver may share a username, because each `create_*`
  checks only its own table.

External pieces become parameters:

- `Date.valueOf` becomes the constant `parseDate`.
- `Integer.parseInt` becomes the constant `parseCount`.
- Both are fixed when the `Scheduler` is constructed.
- The credential check of `PatientGetter` and `CaregiverGetter` becomes the
  `accepts` argument of the login methods.

## Model

| member | source | states |
|---|---|---|
| `Ordering.Less` | src/main/scheduler/Scheduler.java:299-300 | the order of `ORDER BY Username` and `ORDER BY Name` (also used at 358): a proper prefix comes first, otherwise the first differing character decides, by code point |
| `Ordering.LessIrreflexive` | src/main/scheduler/Scheduler.java:358 | no username sorts before itself |
| `Ordering.LessTransitive` | src/main/scheduler/Scheduler.java:358 | the `ORDER BY Username` order is transitive |
| `Ordering.LessTotal` | src/main/scheduler/Scheduler.java:358 | any two different usernames are ordered one way or the other |
| `Ordering.LessAsymmetric` | src/main/scheduler/Scheduler.java:358 | two usernames are never each before the other |
| `Ordering.EmptyIsFirst` | src/main/scheduler/Scheduler.java:372-382 | the empty username sorts before every other one (the fact behind the finding) |
| `Ordering.LeastExists` | src/main/scheduler/Scheduler.java:358-375 | every non-empty set of usernames has a first one, so `TOP 1` returns a row whenever some caregiver is free |
| `Ordering.LeastUnique` | src/main/scheduler/Scheduler.java:358 | that first username is unique, so the selection is deterministic |
| `Ordering.SortedElements` | src/main/scheduler/Scheduler.java:299-318 | an `ORDER BY` query over a set of keys yields each key exactly once, in strictly increasing order |
| `Ordering.SortedUnique` | src/main/scheduler/Scheduler.java:299-318 | two strictly sorted listings with the same elements are equal, so the query output is determined by the table alone |
| `Passwords.IsStrong` | src/main/scheduler/Scheduler.java:109-111 | at least 8 characters, with an ASCII upper-case letter, an ASCII lower-case letter, an ASCII digit and one of `! @ # ?` among them (the line-terminator behaviour of `.` and `$` is admitted under "## Left out") |
| `Passwords.StrongExample` | src/main/scheduler/Scheduler.java:109-111 | `Abcdefg1!` meets the strength rule |
| `Passwords.WeakExamples` | src/main/scheduler/Scheduler.java:109-111 | a password with all four classes but 7 characters fails; passwords of 8 or more without an upper-case letter, a lower-case letter, a digit, or one of `! @ # ?` fail (`$` does not count) |
| `Tables.CaregiversOn` | src/main/scheduler/Scheduler.java:299-305 | the usernames with an Availabilities row on the requested date (`WHERE Time = ?`, also at 358-366): a username is in it exactly when that (date, username) row exists |
| `Tables.ChooseCaregiver` | src/main/scheduler/Scheduler.java:358-384 | no caregiver is chosen exactly when nobody is free on the date; otherwise the chosen one is free on it, sorts before every other free caregiver, and is the same caregiver the as-written selection picks |
| `Tables.SelectedAsWritten` | src/main/scheduler/Scheduler.java:372-375 | as written, the selected username is `""` when the query has no row, otherwise the first free caregiver |
| `Tables.AsWrittenNoCaregiverWhen` | src/main/scheduler/Scheduler.java:372-384 | as written, "No caregiver is available!" is reported exactly when nobody is free OR a caregiver named `""` is free |
| `Tables.EmptyNameHidesOtherCaregivers` | src/main/scheduler/Scheduler.java:372-389 | with caregivers `""` and `bob` free, the code as written reports no caregiver although `bob` is free |
| `Tables.DosesOf` | src/main/scheduler/Scheduler.java:377-380 | the dose count `reserve` reads: the vaccine's count when it has a row, 0 when it has none |
| `Tables.Restock` | src/main/scheduler/Scheduler.java:476-494 | `add_doses name n` adds `name` to the table, sets it to the old count (0 when unknown) plus `n`, and changes no other vaccine |
| `Tables.RestockAdds` | src/main/scheduler/Scheduler.java:486-489 | adding `a` doses and then `b` equals adding `a + b` |
| `Tables.RestockKeepsNonNegative` | src/main/scheduler/Scheduler.java:476-494 | adding a non-negative count keeps every dose count non-negative |
| `Tables.RecordKeepsIds` | src/main/scheduler/Scheduler.java:395-405 | recording an appointment under the next id keeps ids strictly increasing and below the new next id (never reused) |
| `Tables.Listing` | src/main/scheduler/Scheduler.java:507-545 | the lines printed for a user: one per appointment whose Caregiver (for a caregiver) or Patient (for a patient) column is that user, showing id, vaccine, date and the other party; ledger order is one of the orders the unordered queries may return |
| `Tables.ListingHasExactly` | src/main/scheduler/Scheduler.java:507-545 | a listing line appears exactly when some appointment of the user produces it: a caregiver's lines name the patient, a patient's lines name the caregiver |
| `Scheduling.Registration` | src/main/scheduler/Scheduler.java:93-117 | a user is created exactly when there are 3 tokens, the name is free and the password is strong; otherwise the first failing check, in that order, is reported |
| `Scheduling.Login` | src/main/scheduler/Scheduler.java:213-241 | login succeeds exactly when nobody is logged in, there are 3 tokens and the credentials are accepted; an open session is reported before the token count |
| `Scheduling.Scheduler.Valid` | src/main/scheduler/Scheduler.java:18-22 | at most one of `currentCaregiver` and `currentPatient` is set; appointment ids increase along the ledger and are below the next id |
| `Scheduling.Scheduler.constructor` | src/main/scheduler/Scheduler.java:18-22 | the program starts with nobody logged in, and the invariant holds |
| `Scheduling.Scheduler.CreatePatient` | src/main/scheduler/Scheduler.java:93-131 | the outcome is the registration decision over the Patients table; only a created patient is added |
| `Scheduling.Scheduler.CreateCaregiver` | src/main/scheduler/Scheduler.java:133-171 | the same over the Caregivers table; only a created caregiver is added |
| `Scheduling.Scheduler.LoginPatient` | src/main/scheduler/Scheduler.java:213-242 | the login decision; on success the patient session is set, otherwise nothing changes; at most one user stays logged in |
| `Scheduling.Scheduler.LoginCaregiver` | src/main/scheduler/Scheduler.java:244-273 | the same for the caregiver session |
| `Scheduling.Scheduler.Logout` | src/main/scheduler/Scheduler.java:554-569 | extra tokens, or nobody logged in, leave the session unchanged; otherwise both session fields are cleared |
| `Scheduling.Scheduler.UploadAvailability` | src/main/scheduler/Scheduler.java:426-449 | without a logged-in caregiver, with a token count other than 2, or with a bad date, nothing changes; otherwise the (date, caregiver) slot is added |
| `Scheduling.Scheduler.AddDoses` | src/main/scheduler/Scheduler.java:455-496 | with no logged-in caregiver or a token count other than 3, nothing changes; otherwise the vaccine table is restocked, and non-negative stock stays non-negative for a non-negative count |
| `Scheduling.Scheduler.Reserve` | src/main/scheduler/Scheduler.java:328-424 | see below |
| `Scheduling.Scheduler.SearchCaregiverSchedule` | src/main/scheduler/Scheduler.java:275-326 | needs a logged-in user, 2 tokens and a valid date; lists exactly the caregivers free on the date, in strictly increasing username order, then every vaccine with its dose count, in strictly increasing name order; changes nothing |
| `Scheduling.Scheduler.ShowAppointments` | src/main/scheduler/Scheduler.java:498-552 | needs a logged-in user and ignores extra tokens; a logged-in caregiver gets their own listing (checked first), a patient gets theirs; changes nothing |

What `Scheduling.Scheduler.Reserve` states:

- It is refused, with nothing changed, in these cases, checked in this order:
  - a caregiver is logged in;
  - nobody is logged in;
  - the token count is not 3;
  - the date does not parse.
- With no free caregiver, or 0 doses (an unknown vaccine counts as 0), it
  reports both reasons together and changes nothing.
- Otherwise it changes exactly three things and nothing else:
  - it appends one appointment (next id, patient, first free caregiver,
    vaccine, date);
  - it removes that caregiver's slot, so there is one row fewer;
  - it takes exactly one dose of that vaccine.
- Non-negative stock stays non-negative.

## Findings

| source | as written | input that shows it | evidently intended | confidence | as-written member | corrected member |
|---|---|---|---|---|---|---|
| src/main/scheduler/Scheduler.java:372-389 | the chosen caregiver starts as `""`, and `caregiver.isEmpty()` is read as "no caregiver is available" | caregivers `""` and `bob` both free on 2024-06-01. `""` is registered with `create_caregiver  Abcdefg1!` (two spaces), because `split(" ")` yields an empty token. `reserve 2024-06-01 pfizer` with doses in stock then prints "No caregiver is available!" and aborts | report "no caregiver" only when the query returns no row, and otherwise book the first caregiver, even one named `""` | not executed; medium (assumes the Caregivers table accepts an empty username) | `Tables.EmptyNameHidesOtherCaregivers` | `Tables.ChooseCaregiver` |

`Scheduling.Scheduler.Reserve` uses `Tables.ChooseCaregiver`, which returns
an `Option` in place of the `""` marker.

## Left out

- Scheduling.Scheduler.Reserve: models the corrected caregiver selection, not
  the `""` marker of lines 372-389. When a caregiver named `""` is free on the
  date (and doses are in stock), the source reports "No caregiver is
  available!" and writes nothing, while `Reserve` books the first free
  caregiver, which is `""`. The as-written behaviour is stated separately by
  `Tables.SelectedAsWritten` and `Tables.AsWrittenNoCaregiverWhen`.

- JDBC plumbing is not modelled: `ConnectionManager`, prepared statements and
  result-set cursors. The tables are plain in-memory values.
- Every `SQLException` path is left out. That includes the
  `usernameExists*` methods returning `true` on a database error.
- Messages are `Outcome` values. The exact console wording is not modelled.
- Atomicity, rollback and concurrency are not modelled. The program handles
  one command at a time. Its three `reserve` writes can only fail part-way
  through on an `SQLException`, which is not modelled.
- Salt and hash generation (`Util`) and the credential lookup of
  `PatientGetter`/`CaregiverGetter` are code this model cannot see. Login
  success is the `accepts` argument of the login methods. Nothing ties it to
  the stored users.
- `Date.valueOf` parsing and leniency are not modelled. A date is whatever
  the `parseDate` constant returns.
- `Integer.parseInt` becomes `parseCount`. In the source a non-numeric count
  throws an uncaught exception that ends the program. The model reports
  `InvalidCount` and changes nothing.
- The `main` loop is not modelled: `readLine`, `split(" ")`, dispatch on
  the first token, and `quit`. A command is its token sequence.
- Username and vaccine-name comparisons use ordinal character order and exact
  equality. The database collation (which may ignore case) is not modelled.
- Appointment ids come from a database identity column that is not part of
  this model. The model assumes a counter that starts at 1 and grows by one
  per appointment.
- `Caregiver.uploadAvailability` is not part of this model. Uploading a
  date already offered is modelled as a set insert, which is a modelling
  choice.
- `Vaccine.increaseAvailableDoses` and `decreaseAvailableDoses` are not
  part of this model. They are taken as plain addition and subtraction, with
  no guards and no 32-bit overflow.
- The tables start empty at construction. Data kept by the database between
  runs is not modelled.
- `cancel` (451-453) is an empty stub in the source and has no model.
- `show_appointments` queries have no `ORDER BY`, so the source promises no
  order. `Scheduling.Scheduler.ShowAppointments` returns the lines in ledger
  order. That is one of the orders the database may return, not the only one.
  A caller should rely only on which lines appear (`Tables.ListingHasExactly`),
  not on their order.
- `Passwords.IsStrong` reads the regular expression's `.` as matching every
  character. In Java, `.` and `$` treat `\u0085`, `\u2028` and `\u2029` as
  line terminators. `readLine` already removes `\n` and `\r`, so only
  passwords containing those three characters are judged differently.
