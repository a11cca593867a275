/** The plan form: four text fields, a chain of checks run in a fixed order
    on submit (the first failing one is reported and nothing is saved), and
    the hand-over of the form to the caller when all pass. Numbers are read
    by a parse function given as a parameter; `None` stands for NaN. */
module PlanForm {
  import opened Common
  import opened Text

  datatype Plan = Plan(id: Option<int>, name: string, price: string, minDailyEarning: string, maxDailyEarning: string)

  const EmptyPlan: Plan := Plan(None, "", "", "", "")

  /** The checks of `handleSubmit`, in the order they run. */
  datatype PlanError = NameRequired | PriceNotPositive | MinNotPositive | MaxNotPositive | MaxBelowMin

  function ErrorText(e: PlanError): string {
    match e
    case NameRequired => "Plan name is required"
    case PriceNotPositive => "Price must be greater than 0"
    case MinNotPositive => "Minimum daily earning must be greater than 0"
    case MaxNotPositive => "Maximum daily earning must be greater than 0"
    case MaxBelowMin => "Maximum daily earning must be greater than minimum daily earning"
  }

  /** `!text || parseFloat(text) <= 0`: an empty field or a number not above
      zero. NaN compares false, so text that is not a number passes. */
  predicate NotPositive(text: string, parse: string -> Option<real>) {
    text == "" || (parse(text).Some? && parse(text).value <= 0.0)
  }

  /** `parseFloat(max) < parseFloat(min)`, false when either is NaN. */
  predicate Below(max: string, min: string, parse: string -> Option<real>) {
    parse(max).Some? && parse(min).Some? && parse(max).value < parse(min).value
  }

  /** The first check the form fails, or None when it passes them all. */
  function Validate(f: Plan, parse: string -> Option<real>): (e: Option<PlanError>)
    ensures e == Some(NameRequired) <==> IsBlank(f.name)
    ensures e.None? <==> !IsBlank(f.name) && !NotPositive(f.price, parse) && !NotPositive(f.minDailyEarning, parse)
                         && !NotPositive(f.maxDailyEarning, parse) && !Below(f.maxDailyEarning, f.minDailyEarning, parse)
  {
    if IsBlank(f.name) then Some(NameRequired)
    else if NotPositive(f.price, parse) then Some(PriceNotPositive)
    else if NotPositive(f.minDailyEarning, parse) then Some(MinNotPositive)
    else if NotPositive(f.maxDailyEarning, parse) then Some(MaxNotPositive)
    else if Below(f.maxDailyEarning, f.minDailyEarning, parse) then Some(MaxBelowMin)
    else None
  }

  /** The position of a check in the chain. */
  function Rank(e: PlanError): nat {
    match e
    case NameRequired => 0
    case PriceNotPositive => 1
    case MinNotPositive => 2
    case MaxNotPositive => 3
    case MaxBelowMin => 4
  }

  /** Whether the form fails a given check, on its own. */
  predicate Fails(f: Plan, parse: string -> Option<real>, e: PlanError) {
    match e
    case NameRequired => IsBlank(f.name)
    case PriceNotPositive => NotPositive(f.price, parse)
    case MinNotPositive => NotPositive(f.minDailyEarning, parse)
    case MaxNotPositive => NotPositive(f.maxDailyEarning, parse)
    case MaxBelowMin => Below(f.maxDailyEarning, f.minDailyEarning, parse)
  }

  /** The reported error is a check the form fails, and the form passes
      every check that runs before it. */
  lemma ReportsFirstFailure(f: Plan, parse: string -> Option<real>)
    ensures Validate(f, parse).Some? ==> Fails(f, parse, Validate(f, parse).value)
    ensures Validate(f, parse).Some? ==>
      forall e: PlanError :: Rank(e) < Rank(Validate(f, parse).value) ==> !Fails(f, parse, e)
    ensures Validate(f, parse).None? <==> forall e: PlanError :: !Fails(f, parse, e)
  {
    if Validate(f, parse).None? {
      forall e: PlanError ensures !Fails(f, parse, e) {
        match e
        case NameRequired =>
        case PriceNotPositive =>
        case MinNotPositive =>
        case MaxNotPositive =>
        case MaxBelowMin =>
      }
    } else {
      assert Fails(f, parse, Validate(f, parse).value);
    }
  }

  /** A maximum equal to the minimum is accepted. */
  lemma EqualMinMaxAccepted(f: Plan, parse: string -> Option<real>)
    requires !IsBlank(f.name) && !NotPositive(f.price, parse) && !NotPositive(f.minDailyEarning, parse)
    requires f.maxDailyEarning == f.minDailyEarning
    ensures Validate(f, parse).None?
  {
  }

  /** A maximum below the minimum is refused with the ordering error once
      the three amounts are positive. */
  lemma MaxBelowMinRefused(f: Plan, parse: string -> Option<real>)
    requires !IsBlank(f.name) && !NotPositive(f.price, parse)
    requires parse(f.minDailyEarning).Some? && parse(f.maxDailyEarning).Some?
    requires f.minDailyEarning != "" && f.maxDailyEarning != ""
    requires 0.0 < parse(f.maxDailyEarning).value < parse(f.minDailyEarning).value
    ensures Validate(f, parse) == Some(MaxBelowMin)
  {
  }

  /** Text that is not a number passes every amount check: a price that
      parses to NaN is never refused. */
  lemma NotANumberPasses(f: Plan, parse: string -> Option<real>)
    requires !IsBlank(f.name) && f.price != "" && f.minDailyEarning != "" && f.maxDailyEarning != ""
    requires parse(f.price).None? && parse(f.minDailyEarning).None? && parse(f.maxDailyEarning).None?
    ensures Validate(f, parse).None?
  {
  }

  datatype Field = Name | Price | MinDailyEarning | MaxDailyEarning

  function FieldValue(f: Plan, field: Field): string {
    match field
    case Name => f.name
    case Price => f.price
    case MinDailyEarning => f.minDailyEarning
    case MaxDailyEarning => f.maxDailyEarning
  }

  /** `handleInputChange`'s update: the named field takes the value, the
      other fields and the id stay. */
  function WithField(f: Plan, field: Field, value: string): (r: Plan)
    ensures FieldValue(r, field) == value
    ensures forall other: Field :: other != field ==> FieldValue(r, other) == FieldValue(f, other)
    ensures r.id == f.id
  {
    match field
    case Name => f.(name := value)
    case Price => f.(price := value)
    case MinDailyEarning => f.(minDailyEarning := value)
    case MaxDailyEarning => f.(maxDailyEarning := value)
  }

  /** Writing a field back with the value it holds changes nothing. */
  lemma WithSameValueUnchanged(f: Plan, field: Field)
    ensures WithField(f, field, FieldValue(f, field)) == f
  {
  }

  class PlanFormState {
    var formData: Plan
    var loading: bool

    /** The form opens empty, then the effect loads a provided plan. */
    constructor(plan: Option<Plan>)
      ensures plan.Some? ==> formData == plan.value
      ensures plan.None? ==> formData == EmptyPlan
      ensures !loading
    {
      formData := EmptyPlan;
      loading := false;
      if plan.Some? {
        formData := plan.value;
      }
    }

    /** The effect run when the `plan` prop changes. */
    method LoadPlan(plan: Option<Plan>)
      modifies this
      ensures plan.Some? ==> formData == plan.value
      ensures plan.None? ==> formData == old(formData)
      ensures loading == old(loading)
    {
      if plan.Some? {
        formData := plan.value;
      }
    }

    method HandleInputChange(field: Field, value: string)
      modifies this
      ensures formData == WithField(old(formData), field, value)
      ensures loading == old(loading)
    {
      formData := WithField(formData, field, value);
    }

    /** `handleSubmit`: the form goes to `onSave` exactly when every check
        passes, otherwise the first failure is reported; the form itself
        is left as it is. */
    method HandleSubmit(parse: string -> Option<real>) returns (saved: Option<Plan>, error: Option<string>)
      modifies this
      ensures saved.Some? <==> Validate(formData, parse).None?
      ensures saved.Some? ==> saved.value == formData && error == None
      ensures saved.None? ==> error == Some(ErrorText(Validate(formData, parse).value))
      ensures saved.Some? ==> !loading
      ensures saved.None? ==> loading == old(loading)
      ensures formData == old(formData)
    {
      var e := Validate(formData, parse);
      if e.Some? {
        saved := None;
        error := Some(ErrorText(e.value));
        return;
      }
      loading := true;
      saved := Some(formData);
      error := None;
      loading := false;
    }
  }
}
