/** Client code that builds rosters the way the repository's unit tests do and proves,
    from the classes' contracts alone, what `clash` answers for each of them. */
module Scenarios {
  import opened JavaTypes
  import opened Prescriptions
  import opened Medicines
  import opened Patients

  function DaysBefore(d: Date, n: nat): Date
  {
    Date(d.epochDay - n)
  }

  /** A fresh patient asked about one name gets an empty list, not `null`. */
  method ClashOnEmptyRosterIsEmpty(today: Date) returns (r: Outcome)
    ensures r == Ok([])
  {
    var patient := new Patient();
    r := patient.ClashDefault(Some([Some("Aspirin")]), today);
  }

  /** Two medicines sharing one prescription, both asked about: a non-empty answer. */
  method TwoMedicinesClash(today: Date) returns (r: Outcome)
    ensures r.Ok? && r.dates != []
    ensures r == Ok([today])
  {
    var tylenol := new Medicine(Some("Tylenol"));
    var aspirin := new Medicine(Some("Aspirin"));
    var shared := new Prescription(today, 5);
    aspirin.AddPrescription(shared);
    tylenol.AddPrescription(shared);
    var patient := new Patient();
    patient.AddMedicine(tylenol);
    patient.AddMedicine(aspirin);
    r := patient.ClashDefault(Some([Some("Tylenol"), Some("Aspirin")]), today);
  }

  /** With a single medicine on the roster the answer is empty whatever is asked. */
  method SingleMedicineNeverClashes(today: Date, names: seq<Option<string>>) returns (r: Outcome)
    requires Acceptable(Some(names), DefaultDaysBack)
    ensures r == Ok([])
  {
    var patient := new Patient();
    var aspirin := new Medicine(Some("Aspirin"));
    patient.AddMedicine(aspirin);
    r := patient.ClashDefault(Some(names), today);
  }

  /** A `null` name list is rejected before the roster is looked at. */
  method NullNameListRejected(today: Date) returns (r: Outcome)
    ensures r == Err("Medicine Names is null.")
  {
    var patient := new Patient();
    var aspirin := new Medicine(Some("Aspirin"));
    patient.AddMedicine(aspirin);
    r := patient.ClashDefault(None, today);
  }

  /** A list holding only `""`, and one holding only `null`, each get their own message. */
  method BadNameEntriesRejected(today: Date) returns (withEmpty: Outcome, withNull: Outcome)
    ensures withEmpty == Err("Medicine Names contains Empty String.")
    ensures withNull == Err("Medicine Names contains a NULL value.")
  {
    var patient := new Patient();
    withEmpty := patient.ClashDefault(Some([Some("")]), today);
    withNull := patient.ClashDefault(Some([None]), today);
  }

  /** A negative window is rejected. */
  method NegativeWindowRejected(today: Date) returns (r: Outcome)
    ensures r == Err("daysBack cannot be negative.")
  {
    var patient := new Patient();
    r := patient.Clash(Some([Some("Aspirin")]), -1, today);
  }

  /** A zero-day window is not a special case: two medicines on the roster and two
      names give today's date, even though neither name is on the roster. The unit test
      builds this roster but passes its names as `List.of(...)`, on which `contains(null)`
      throws `NullPointerException`; this is the answer for the same names in a list that
      allows a `null` lookup, such as `Arrays.asList`. */
  method ZeroWindowStillAnswersToday(today: Date) returns (r: Outcome)
    ensures r == Ok([today])
  {
    var patient := new Patient();
    var ibuprofen := new Medicine(Some("Ibuprofen"));
    var tylenol := new Medicine(Some("Tylenol"));
    patient.AddMedicine(ibuprofen);
    patient.AddMedicine(tylenol);
    r := patient.Clash(Some([Some("Aspirin"), Some("Twinrix")]), 0, today);
  }

  /** A prescription shared by two medicines and dispensed yesterday: the answer is
      today's date alone, so yesterday is not among the dates returned. The unit test
      passes its names as `List.of(...)`, on which `contains(null)` throws
      `NullPointerException`; this is the answer for the same names in a list that allows
      a `null` lookup, such as `Arrays.asList`. */
  method SharedPrescriptionDateNotReported(today: Date) returns (r: Outcome)
    ensures r == Ok([today])
    ensures DaysBefore(today, 1) !in r.dates
  {
    var ibuprofen := new Medicine(Some("Ibuprofen"));
    var tylenol := new Medicine(Some("Tylenol"));
    var aspirin := new Medicine(Some("Aspirin"));
    var shared := new Prescription(DaysBefore(today, 1), 1);
    ibuprofen.AddPrescription(shared);
    tylenol.AddPrescription(shared);
    var patient := new Patient();
    patient.AddMedicine(ibuprofen);
    patient.AddMedicine(tylenol);
    patient.AddMedicine(aspirin);
    r := patient.Clash(Some([Some("Tylenol"), Some("Ibuprofen")]), 10, today);
  }

  /** The same prescription added twice is kept twice, and the name is untouched. */
  method DuplicatePrescriptionsKept(name: Option<string>, date: Date, supply: int32)
    returns (count: nat, stored: Option<string>, has: bool)
    ensures count == 2 && stored == name && has
  {
    var medicine := new Medicine(name);
    var p := new Prescription(date, supply);
    medicine.AddPrescription(p);
    medicine.AddPrescription(p);
    count := |medicine.GetPrescriptions()|;
    stored := medicine.GetName();
    has := medicine.HasPrescriptions();
  }

  /** Each setter changes its own field only, and accepts any supply count. */
  method SettersChangeOneFieldEach(date: Date, supply: int32, newDate: Date, newSupply: int32)
    returns (d1: Date, s1: int32, d2: Date, s2: int32)
    ensures d1 == newDate && s1 == supply
    ensures d2 == newDate && s2 == newSupply
  {
    var p := new Prescription(date, supply);
    p.SetDispenseDate(newDate);
    d1, s1 := p.GetDispenseDate(), p.GetDaysSupply();
    p.SetDaysSupply(newSupply);
    d2, s2 := p.GetDispenseDate(), p.GetDaysSupply();
  }
}
