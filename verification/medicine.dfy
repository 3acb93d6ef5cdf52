/** A medicine: a fixed name and the prescriptions dispensed for it, in the order added. */
module Medicines {
  import opened JavaTypes
  import opened Prescriptions

  class Medicine {
    /** `final` in the source, so no method can change it. */
    const name: Option<string>
    /** The list may hold `null`, and the same prescription more than once. */
    var prescriptions: seq<Prescription?>

    constructor (name: Option<string>)
      ensures this.name == name
      ensures prescriptions == []
    {
      this.name := name;
      prescriptions := [];
    }

    function GetName(): (n: Option<string>)
      ensures n == name
    {
      name
    }

    /** Appends `p` at the end, with no check for `null` or for a repeat. */
    method AddPrescription(p: Prescription?)
      modifies this
      ensures prescriptions == old(prescriptions) + [p]
      ensures HasPrescriptions()
    {
      prescriptions := prescriptions + [p];
    }

    function GetPrescriptions(): (ps: seq<Prescription?>)
      reads this
      ensures ps == prescriptions
    {
      prescriptions
    }

    predicate HasPrescriptions()
      reads this
      ensures HasPrescriptions() <==> |prescriptions| > 0
    {
      GetPrescriptions() != []
    }
  }
}
