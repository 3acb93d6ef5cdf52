/** A patient's roster of medicines and the clash query over it.

    The query validates its arguments in a fixed order, each failure with its own
    message, then answers: an empty list when the roster or the name list has at most
    one entry, and otherwise a list holding only today's date. No interval arithmetic
    is done over the prescriptions. */
module Patients {
  import opened JavaTypes
  import opened Medicines

  /** The names a caller asks about: the list itself and each entry may be `null`. */
  type Names = Option<seq<Option<string>>>

  /** The window the one-argument `clash` uses. */
  const DefaultDaysBack: int32 := 90

  /** The argument errors of `clash`, one per validation rule. */
  datatype ClashError = NegativeDaysBack | NullNames | EmptyStringName | NullName

  /** The message each rule's `IllegalArgumentException` carries. */
  function Message(e: ClashError): string
  {
    match e
    case NegativeDaysBack => "daysBack cannot be negative."
    case NullNames => "Medicine Names is null."
    case EmptyStringName => "Medicine Names contains Empty String."
    case NullName => "Medicine Names contains a NULL value."
  }

  /** A thrown argument error, or the (never `null`) list of clash dates. */
  datatype Outcome = Err(msg: string) | Ok(dates: seq<Date>)

  /** Whether rule `e` rejects the arguments, judged on its own, regardless of the order
      in which the rules are checked. */
  predicate Violates(e: ClashError, names: Names, daysBack: int32)
  {
    match e
    case NegativeDaysBack => daysBack < 0
    case NullNames => names.None?
    case EmptyStringName => names.Some? && Some("") in names.value
    case NullName => names.Some? && None in names.value
  }

  /** The order in which the rules are checked: a lower rank is checked first. */
  function Precedence(e: ClashError): nat
  {
    match e
    case NegativeDaysBack => 0
    case NullNames => 1
    case EmptyStringName => 2
    case NullName => 3
  }

  /** The arguments pass every rule. */
  predicate Acceptable(names: Names, daysBack: int32)
  {
    forall e :: !Violates(e, names, daysBack)
  }

  class Patient {
    /** May hold `null`, and the same medicine more than once. */
    var medicines: seq<Medicine?>

    constructor ()
      ensures medicines == []
    {
      medicines := [];
    }

    /** Appends `m` at the end and leaves the earlier entries as they were. */
    method AddMedicine(m: Medicine?)
      modifies this
      ensures medicines == old(medicines) + [m]
    {
      medicines := medicines + [m];
    }

    /** The two-argument `clash`, with `LocalDate.now()` passed in as `today`. */
    function Clash(names: Names, daysBack: int32, today: Date): (r: Outcome)
      reads this
      ensures daysBack < 0 ==> r == Err(Message(NegativeDaysBack))
      ensures 0 <= daysBack && names.None? ==> r == Err(Message(NullNames))
      ensures 0 <= daysBack && names.Some? && Some("") in names.value ==>
        r == Err(Message(EmptyStringName))
      ensures 0 <= daysBack && names.Some? && Some("") !in names.value && None in names.value ==>
        r == Err(Message(NullName))
      ensures r.Err? <==> !Acceptable(names, daysBack)
      ensures r.Ok? ==> (r.dates == [] <==> |medicines| <= 1 || |names.value| <= 1)
      ensures r.Ok? ==> forall i :: 0 <= i < |r.dates| ==> r.dates[i] == today
      ensures r.Ok? ==> |r.dates| <= 1
    {
      if daysBack < 0 then
        assert Violates(NegativeDaysBack, names, daysBack);
        Err(Message(NegativeDaysBack))
      else if names.None? then
        assert Violates(NullNames, names, daysBack);
        Err(Message(NullNames))
      else if Contains(names.value, Some("")) then
        assert Violates(EmptyStringName, names, daysBack);
        Err(Message(EmptyStringName))
      else if Contains(names.value, None) then
        assert Violates(NullName, names, daysBack);
        Err(Message(NullName))
      else if |medicines| <= 1 || |names.value| <= 1 then
        Ok([])
      else
        Ok([today])
    }

    /** The one-argument `clash`: the default window, which is never negative. */
    function ClashDefault(names: Names, today: Date): (r: Outcome)
      reads this
      ensures r == Clash(names, DefaultDaysBack, today)
      ensures r != Err(Message(NegativeDaysBack))
    {
      Clash(names, DefaultDaysBack, today)
    }
  }

  /** Each rule has its own message, so a caller can tell from the message which rule
      rejected the arguments. */
  lemma MessagesDistinguishRules(e1: ClashError, e2: ClashError)
    ensures Message(e1) == Message(e2) ==> e1 == e2
  {
  }

  /** When `r` carries the message of a broken rule `first` that no other broken rule
      precedes, `r` carries the message of no other rule. */
  lemma OnlyFirstBrokenRuleReported(r: Outcome, first: ClashError, names: Names, daysBack: int32)
    requires r == Err(Message(first)) && Violates(first, names, daysBack)
    requires forall f :: Violates(f, names, daysBack) ==> Precedence(first) <= Precedence(f)
    ensures forall e :: r == Err(Message(e)) <==>
      Violates(e, names, daysBack) &&
      forall f :: Violates(f, names, daysBack) ==> Precedence(e) <= Precedence(f)
  {
    forall e
      ensures r == Err(Message(e)) <==>
        Violates(e, names, daysBack) &&
        forall f :: Violates(f, names, daysBack) ==> Precedence(e) <= Precedence(f)
    {
      MessagesDistinguishRules(first, e);
    }
  }

  /** The error `clash` reports is the first rule, in checking order, that the arguments
      break; it reports none exactly when no rule is broken. */
  lemma {:induction false} ClashReportsFirstBrokenRule(p: Patient, names: Names, daysBack: int32, today: Date)
    ensures p.Clash(names, daysBack, today).Ok? <==> Acceptable(names, daysBack)
    ensures forall e :: p.Clash(names, daysBack, today) == Err(Message(e)) <==>
      Violates(e, names, daysBack) &&
      forall f :: Violates(f, names, daysBack) ==> Precedence(e) <= Precedence(f)
  {
    var r := p.Clash(names, daysBack, today);
    if daysBack < 0 {
      OnlyFirstBrokenRuleReported(r, NegativeDaysBack, names, daysBack);
    } else if names.None? {
      OnlyFirstBrokenRuleReported(r, NullNames, names, daysBack);
    } else if Some("") in names.value {
      OnlyFirstBrokenRuleReported(r, EmptyStringName, names, daysBack);
    } else if None in names.value {
      OnlyFirstBrokenRuleReported(r, NullName, names, daysBack);
    }
  }

  /** A list holding both `""` and `null` is reported as holding the empty string. */
  lemma EmptyStringWinsOverNull(p: Patient, names: seq<Option<string>>, daysBack: int32, today: Date)
    requires 0 <= daysBack
    requires Some("") in names && None in names
    ensures p.Clash(Some(names), daysBack, today) == Err(Message(EmptyStringName))
  {
  }

  /** An accepted query's answer depends only on the roster's size and the number of
      names: not on the window, on which names are asked about, or on any medicine's
      name or prescriptions. */
  lemma ClashIgnoresDetails(p: Patient, q: Patient, names1: seq<Option<string>>, names2: seq<Option<string>>,
                            daysBack1: int32, daysBack2: int32, today: Date)
    requires Acceptable(Some(names1), daysBack1) && Acceptable(Some(names2), daysBack2)
    requires |p.medicines| == |q.medicines| && |names1| == |names2|
    ensures p.Clash(Some(names1), daysBack1, today) == q.Clash(Some(names2), daysBack2, today)
  {
  }
}
