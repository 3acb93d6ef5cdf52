# MedicineClash in Dafny

A model of the three classes of the MedicineClash repository: a `Patient` keeps a roster
of `Medicine`s, each `Medicine` keeps a fixed name and the `Prescription`s dispensed for
it, and a `Prescription` is a mutable pair of a dispense date and a supply count.
`Patient.clash(names, daysBack)` is meant to report the days on which the named
medicines overlapped. The code as it stands does three things. It validates its
arguments in a fixed order, and each rule throws its own message. It answers an empty
list when the roster or the name list has at most one entry. Otherwise it returns a
one-element list holding today's date. The model follows that code.

Modules, one per source file, plus two of support:

- `JavaTypes` (`java_types.dfy`): Java `null` as `Option`, Java `int` as `int32`,
  `LocalDate` as `Date` (a day number), and `Collection.contains` as a first-match scan.
- `Prescriptions` (`prescription.dfy`): class `Prescription`, fields updated in place by
  the setters.
- `Medicines` (`medicine.dfy`): class `Medicine`, a `const` name and a
  `seq<Prescription?>` that `AddPrescription` appends to.
- `Patients` (`patient.dfy`): class `Patient`, a `seq<Medicine?>` that `AddMedicine`
  appends to, and `Clash`, a function that only reads the roster. The error precedence
  is proved against an independent description: which rules the arguments break, and
  the order in which the rules are checked.
- `Scenarios` (`scenarios.dfy`): client methods that build the rosters of the unit tests
  and prove, from the class contracts alone, what `clash` answers for them.

`LocalDate.now()` is not read: `today` is a parameter of `Clash`. Java `null` is kept
wherever the code accepts it, except the dispense date: a `null` name list, `null`
entries in it, a `null` medicine name, and `null` elements added to either list.

Where the unit tests in src/test/java/PatientTest.java expect more than the code does,
the model follows the code:

- The tests at PatientTest.java:149-150, :171-172 and :190-191 expect an
  interval-intersection algorithm: clash days clipped to the window and counted across
  the named medicines. The code has none. An accepted query with at least two medicines
  and two names answers `[today]`, whatever the prescriptions are.
- The test at PatientTest.java:100-106 expects an empty answer for a window of zero
  days. The code has no such case: `clash(names, 0)` answers like any other
  non-negative window.

The model also keeps these behaviours of the code:

- A negative window is reported before any problem with the names, so the name errors
  are reported only when `daysBack` is not negative.
- The names may be any `Collection<String>`. The model takes every collection as a
  sequence in its iteration order, and a `Set` as a sequence without repeats, so that
  `size()` counts what the collection holds.
- A `Prescription` is mutable and accepts any supply count, including zero and negative
  ones.

Six unit tests pass their names as `List.of(...)`: PatientTest.java:105, :113, :130,
:149, :171 and :190. On such an immutable list the call `contains(null)` at
src/main/java/Patient.java:34 throws `NullPointerException`, so each of these tests ends
there, before any answer is computed. The scenarios `ZeroWindowStillAnswersToday` and
`SharedPrescriptionDateNotReported` prove what the code answers for the same names in a
list that allows a `null` lookup, such as `Arrays.asList`: `[today]`, where the tests
expect an empty list or yesterday's date.

## Model

| member | source | states |
|---|---|---|
| `JavaTypes.IndexOf` | src/main/java/Patient.java:29-37 | the first position holding the sought element, or -1 exactly when no element equals it |
| `JavaTypes.Contains` | src/main/java/Patient.java:29-37 | true exactly when some element of the list equals the sought one (`""` or `null`) |
| `Prescriptions.Prescription.constructor` | src/main/java/Prescription.java:25-28 | both fields hold exactly the arguments; the default supply of 30 is overwritten; no argument is rejected |
| `Prescriptions.Prescription.GetDispenseDate` | src/main/java/Prescription.java:9-11 | returns the dispense date currently stored |
| `Prescriptions.Prescription.SetDispenseDate` | src/main/java/Prescription.java:13-15 | the date becomes the argument, the getter then returns it, and the supply count is unchanged |
| `Prescriptions.Prescription.GetDaysSupply` | src/main/java/Prescription.java:17-19 | returns the supply count currently stored |
| `Prescriptions.Prescription.SetDaysSupply` | src/main/java/Prescription.java:21-23 | any `int` becomes the supply count, the getter then returns it, and the dispense date is unchanged |
| `Medicines.Medicine.constructor` | src/main/java/Medicine.java:10-12 | the name is the argument and the prescription list is empty |
| `Medicines.Medicine.GetName` | src/main/java/Medicine.java:14-16 | returns the constructor's argument; the name is a `const`, so no method changes it |
| `Medicines.Medicine.AddPrescription` | src/main/java/Medicine.java:18-20 | appends exactly the argument at the end, earlier entries unchanged, with no check for `null` or repeats; afterwards the medicine has prescriptions |
| `Medicines.Medicine.GetPrescriptions` | src/main/java/Medicine.java:22-24 | returns the prescriptions in the order they were added |
| `Medicines.Medicine.HasPrescriptions` | src/main/java/Medicine.java:26-28 | true exactly when the prescription list is non-empty |
| `Patients.Patient.constructor` | src/main/java/Patient.java:6 | a new patient has an empty roster |
| `Patients.Patient.AddMedicine` | src/main/java/Patient.java:8-10 | appends exactly the argument at the end and leaves earlier entries unchanged |
| `Patients.Patient.Clash` | src/main/java/Patient.java:19-44 | a negative window gives the negative-window error; otherwise a `null` list gives the null-list error; otherwise a list holding `""` gives the empty-string error; otherwise a list holding `null` gives the null-entry error; an error occurs exactly when some rule is broken; an accepted query answers an empty list exactly when the roster or the name list has at most one entry, and otherwise only `today`; the roster is only read |
| `Patients.Patient.ClashDefault` | src/main/java/Patient.java:15-17 | equals `Clash` with a window of 90 for every name list, so it never reports a negative window |
| `Patients.MessagesDistinguishRules` | src/main/java/Patient.java:20-37 | no two validation rules share a message |
| `Patients.ClashReportsFirstBrokenRule` | src/main/java/Patient.java:20-37 | the answer is accepted exactly when no rule is broken; an error's message is that of the broken rule checked first, in the order window, null list, empty string, null entry |
| `Patients.EmptyStringWinsOverNull` | src/main/java/Patient.java:29-37 | with a non-negative window, a list holding both `""` and `null` gets the empty-string error |
| `Patients.ClashIgnoresDetails` | src/main/java/Patient.java:39-43 | accepted queries on rosters of equal size with name lists of equal length get the same answer, whatever the window, names, medicines or prescriptions |
| `Scenarios.ClashOnEmptyRosterIsEmpty` | src/test/java/PatientTest.java:25-28 | a fresh patient asked about one name gets an empty list, not `null` |
| `Scenarios.TwoMedicinesClash` | src/test/java/PatientTest.java:30-43 | two medicines sharing a prescription, both named: the answer is non-empty and is `[today]` |
| `Scenarios.SingleMedicineNeverClashes` | src/test/java/PatientTest.java:62-66 | with one medicine on the roster, every accepted name list gets an empty list |
| `Scenarios.NullNameListRejected` | src/test/java/PatientTest.java:68-74 | a `null` name list gets "Medicine Names is null." |
| `Scenarios.BadNameEntriesRejected` | src/test/java/PatientTest.java:76-90 | `[""]` and `[null]` get their own two messages |
| `Scenarios.NegativeWindowRejected` | src/test/java/PatientTest.java:92-98 | a window of -1 gets "daysBack cannot be negative." |
| `Scenarios.ZeroWindowStillAnswersToday` | src/test/java/PatientTest.java:100-106 | a zero window with two medicines and two names answers `[today]`, not the empty list the test expects |
| `Scenarios.SharedPrescriptionDateNotReported` | src/test/java/PatientTest.java:134-151 | a shared prescription dispensed yesterday: the answer is `[today]` and does not hold yesterday, which the test expects it to |
| `Scenarios.DuplicatePrescriptionsKept` | src/main/java/Medicine.java:18-20 | the same prescription added twice is kept twice, the name is unchanged, and the medicine has prescriptions |
| `Scenarios.SettersChangeOneFieldEach` | src/main/java/Prescription.java:13-23 | after each setter, both getters return the last value stored in their own field |

## Left out

- The interval-intersection clash algorithm that the tests at PatientTest.java:149-150, :171-172 and :190-191 expect. It does not exist in the code, which answers `[today]`.
- `LocalDate.now()`: a clock read, replaced by the `today` parameter. No calendar arithmetic is modelled.
- The exception class. The code throws `IllegalArgumentException` and the tests expect `AssertionError`. The model keeps only the error/answer distinction and the message.
- JavaTypes.Contains: models `contains` as a plain scan for an equal element. Collections that do not permit `null` (for example `List.of`, `Set.of`, or a `TreeSet` in natural order) may throw `NullPointerException` from `contains(null)` at src/main/java/Patient.java:34; the model treats every collection as a plain scan.
- Medicines.Medicine.GetPrescriptions: returns the list as a value. In Java it returns the live `ArrayList`, through which a caller could add elements. That aliasing is not modelled.
- Prescriptions.Prescription.constructor: the dispense date is never `null` in the model, although Java would accept and store a `null` `LocalDate`.
- Prescriptions.Prescription.SetDispenseDate: likewise takes no `null` date, although Java would store one.
- `ArrayList` growth and the JUnit harness: library and test plumbing.
