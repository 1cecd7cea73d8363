/**
 * The create-project drawer's form logic: the client-side validator, the
 * per-field error clearing, the reset on close, and the request body a
 * valid form is sent as.
 */
module CreateProjectDrawer {
  import opened Wrappers
  import opened Text
  import ProjectController

  datatype Form = Form(
    name: string, description: string, projectType: string, location: string,
    capacity: Option<real>, budget: Option<real>, startDate: string, endDate: string)

  const Blank := Form("", "", "SOLAR", "", None, None, "", "")

  /** The form's text inputs, by the `name` attribute the change handler reads. */
  datatype Field = NameField | DescriptionField | TypeField | LocationField | StartDateField | EndDateField

  /**
   * Field errors by field; an empty message counts as no error. The
   * component keys them by the input's `name`, which is always one of the
   * fields above.
   */
  type Errors = map<Field, string>

  const NameRequired := "Project name is required"
  const LocationRequired := "Location is required"
  const StartDateRequired := "Start date is required"
  const EndBeforeStart := "End date must be after start date"

  /** The end date comes before the start date, compared as strings, when both are filled in. */
  predicate EndsEarly(f: Form)
  {
    f.endDate != "" && f.startDate != "" && LexLess(f.endDate, f.startDate)
  }

  /** Adds `key := msg` to the errors when `cond` holds. */
  function AddIf(e: Errors, cond: bool, key: Field, msg: string): Errors
  {
    if cond then e[key := msg] else e
  }

  /** The errors of the four checks, given which of them fired. */
  function Collect(blankName: bool, blankLocation: bool, noStart: bool, early: bool): Errors
  {
    var e1 := AddIf(map[], blankName, NameField, NameRequired);
    var e2 := AddIf(e1, blankLocation, LocationField, LocationRequired);
    var e3 := AddIf(e2, noStart, StartDateField, StartDateRequired);
    AddIf(e3, early, EndDateField, EndBeforeStart)
  }

  /** `validate`: all four checks run; the form passes when none fired. */
  function Validate(f: Form): (r: (Errors, bool))
    ensures r.1 <==> r.0 == map[]
  {
    var e := Collect(Trim(f.name) == "", Trim(f.location) == "", f.startDate == "", EndsEarly(f));
    (e, |e.Keys| == 0)
  }

  /** Each check's error is present exactly when it fired, with its own message, and no other field gets one. */
  lemma CollectFields(blankName: bool, blankLocation: bool, noStart: bool, early: bool)
    ensures var e := Collect(blankName, blankLocation, noStart, early);
            && (NameField in e <==> blankName) && (NameField in e ==> e[NameField] == NameRequired)
            && (LocationField in e <==> blankLocation) && (LocationField in e ==> e[LocationField] == LocationRequired)
            && (StartDateField in e <==> noStart) && (StartDateField in e ==> e[StartDateField] == StartDateRequired)
            && (EndDateField in e <==> early) && (EndDateField in e ==> e[EndDateField] == EndBeforeStart)
            && DescriptionField !in e && TypeField !in e
  {
  }

  /**
   * An error appears for a blank name, a blank location, an empty start
   * date and an end date before the start date, each exactly when its
   * condition holds and with its message; no other field gets one.
   */
  lemma ValidateFields(f: Form)
    ensures var e := Validate(f).0;
            && (NameField in e <==> IsBlank(f.name)) && (NameField in e ==> e[NameField] == NameRequired)
            && (LocationField in e <==> IsBlank(f.location)) && (LocationField in e ==> e[LocationField] == LocationRequired)
            && (StartDateField in e <==> f.startDate == "") && (StartDateField in e ==> e[StartDateField] == StartDateRequired)
            && (EndDateField in e <==> EndsEarly(f)) && (EndDateField in e ==> e[EndDateField] == EndBeforeStart)
            && DescriptionField !in e && TypeField !in e
  {
    TrimEmptyIffBlank(f.name);
    TrimEmptyIffBlank(f.location);
    CollectFields(Trim(f.name) == "", Trim(f.location) == "", f.startDate == "", EndsEarly(f));
  }

  /** The form passes exactly when none of the four checks fired. */
  lemma ValidatePasses(f: Form)
    ensures Validate(f).1 <==> !IsBlank(f.name) && !IsBlank(f.location) && f.startDate != "" && !EndsEarly(f)
  {
    ValidateFields(f);
    var e := Validate(f).0;
    if !IsBlank(f.name) && !IsBlank(f.location) && f.startDate != "" && !EndsEarly(f) {
      assert forall k :: k !in e;
    }
  }

  /** Equal dates pass, and of a pair of dates at most one order is refused. */
  lemma DateOrder(f: Form)
    ensures f.endDate == f.startDate ==> !EndsEarly(f)
    ensures EndsEarly(f) ==> !EndsEarly(f.(startDate := f.endDate, endDate := f.startDate))
  {
    LexLessIrreflexive(f.startDate);
    LexLessAsymmetric(f.startDate, f.endDate);
  }

  function Get(f: Form, field: Field): string
  {
    match field
    case NameField => f.name
    case DescriptionField => f.description
    case TypeField => f.projectType
    case LocationField => f.location
    case StartDateField => f.startDate
    case EndDateField => f.endDate
  }

  /** `handleChange`: store the value, and blank that field's error if it had a non-empty one. */
  function HandleChange(f: Form, errors: Errors, field: Field, value: string): (r: (Form, Errors))
    ensures Get(r.0, field) == value
    ensures forall g: Field :: g != field ==> Get(r.0, g) == Get(f, g)
    ensures r.0.capacity == f.capacity && r.0.budget == f.budget
    ensures field in r.1 <==> field in errors
    ensures field in r.1 ==> r.1[field] == ""
    ensures forall k :: k != field ==> (k in r.1 <==> k in errors)
    ensures forall k :: k != field && k in errors ==> r.1[k] == errors[k]
  {
    var g := match field
      case NameField => f.(name := value)
      case DescriptionField => f.(description := value)
      case TypeField => f.(projectType := value)
      case LocationField => f.(location := value)
      case StartDateField => f.(startDate := value)
      case EndDateField => f.(endDate := value);
    (g, if field in errors && errors[field] != "" then errors[field := ""] else errors)
  }

  /** `handleClose`: the blank form and no errors. */
  function HandleClose(f: Form, errors: Errors): (r: (Form, Errors))
    ensures r.0.projectType == "SOLAR" && r.0.capacity.None? && r.0.budget.None?
    ensures forall g: Field :: g != TypeField ==> Get(r.0, g) == ""
    ensures r.1 == map[]
  {
    (Blank, map[])
  }

  /** Reopening after a close shows a form that fails validation only for its three required fields. */
  lemma CloseThenValidate(f: Form, errors: Errors)
    ensures var (g, _) := HandleClose(f, errors);
            Validate(g).0 == map[NameField := NameRequired, LocationField := LocationRequired, StartDateField := StartDateRequired]
  {
  }

  /**
   * The body `handleSubmit` posts for a form: every field as it is, the
   * dates converted by `toIso` (the browser's date parsing and ISO
   * formatting), an empty end date left out.
   */
  function Payload(f: Form, toIso: string -> string): (b: ProjectController.CreateBody)
    ensures b.name == Some(f.name) && b.location == Some(f.location) && b.projectType == Some(f.projectType)
    ensures b.description == Some(f.description)
    ensures b.capacity == f.capacity && b.budget == f.budget
    ensures b.startDate == Some(toIso(f.startDate))
    ensures b.endDate.Some? <==> f.endDate != ""
    ensures b.endDate.Some? ==> b.endDate.value == toIso(f.endDate)
    ensures b.managerId.None?
  {
    ProjectController.CreateBody(
      Some(f.name), Some(f.description), Some(f.projectType), Some(f.location),
      f.capacity, f.budget, Some(toIso(f.startDate)),
      if f.endDate != "" then Some(toIso(f.endDate)) else None,
      None)
  }

  /** `handleSubmit`'s gate: a form that fails validation shows its errors and sends nothing. */
  function Submit(f: Form, toIso: string -> string): (r: (Errors, Option<ProjectController.CreateBody>))
    ensures r.1.Some? <==> Validate(f).1
    ensures r.0 == Validate(f).0
    ensures r.1.Some? ==> r.1.value == Payload(f, toIso)
  {
    var (errors, ok) := Validate(f);
    (errors, if ok then Some(Payload(f, toIso)) else None)
  }
}
