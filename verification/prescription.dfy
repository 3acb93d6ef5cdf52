/** A dispensed prescription: a mutable pair of a dispense date and a supply count. */
module Prescriptions {
  import opened JavaTypes

  /** The value `daysSupply` holds before a constructor body runs. */
  const DefaultDaysSupply: int32 := 30

  class Prescription {
    var dispenseDate: Date
    var daysSupply: int32

    /** Stores both arguments as given; neither is validated, so a zero or negative
        supply is kept as it is. The field initialiser of 30 runs first and is always
        overwritten. */
    constructor (dispenseDate: Date, daysSupply: int32)
      ensures this.dispenseDate == dispenseDate
      ensures this.daysSupply == daysSupply
    {
      this.daysSupply := DefaultDaysSupply;
      this.dispenseDate := dispenseDate;
      this.daysSupply := daysSupply;
    }

    function GetDispenseDate(): (d: Date)
      reads this
      ensures d == dispenseDate
    {
      dispenseDate
    }

    /** Replaces the dispense date and leaves the supply count alone. */
    method SetDispenseDate(dispenseDate: Date)
      modifies this
      ensures this.dispenseDate == dispenseDate
      ensures daysSupply == old(daysSupply)
      ensures GetDispenseDate() == dispenseDate
    {
      this.dispenseDate := dispenseDate;
    }

    function GetDaysSupply(): (s: int32)
      reads this
      ensures s == daysSupply
    {
      daysSupply
    }

    /** Replaces the supply count, whatever its sign, and leaves the dispense date alone. */
    method SetDaysSupply(daysSupply: int32)
      modifies this
      ensures this.daysSupply == daysSupply
      ensures dispenseDate == old(dispenseDate)
      ensures GetDaysSupply() == daysSupply
    {
      this.daysSupply := daysSupply;
    }
  }
}
