/** The seller form's fields and the two translations between them and a
    `Seller`: `getFormData` (fields to entity, with validation),
    `updateFormData` (entity to fields), and `setErrorMessages` (validation
    errors to the five error labels). */
module SellerForm {
  import opened Wrappers
  import opened JavaString
  import opened Entities

  /** The values the form's controls hold: four text fields, the date picker
      and the department combo box. Any of them may be null: a text field
      after it was loaded from a null entity field, the picker and the combo
      box when nothing is selected. */
  datatype SellerFields = SellerFields(
    idText: Option<string>,
    nameText: Option<string>,
    emailText: Option<string>,
    birthDate: Option<LocalDate>,
    baseSalaryText: Option<string>,
    department: Option<Department>)

  /** The texts of the five error labels next to the fields. */
  datatype SellerLabels = SellerLabels(
    name: string,
    email: string,
    birthDate: string,
    baseSalary: string,
    department: string)

  /** Field name to message, as `ValidationException.getErrors()` returns it. */
  type Errors = map<string, string>

  const EmptyFieldMessage: string := "Field can't be empty"

  /** Reference definition of an unusable text field: null, or nothing but
      characters `trim()` removes. */
  predicate TextMissing(t: Option<string>) {
    t.None? || IsBlank(t.value)
  }

  /** Reference definition of an invalid form: at least one of the five
      required fields is missing. The id field is never required. */
  predicate AnyFieldMissing(f: SellerFields) {
    || TextMissing(f.nameText)
    || TextMissing(f.emailText)
    || f.birthDate.None?
    || TextMissing(f.baseSalaryText)
    || f.department.None?
  }

  /** The check the controller applies to a text field: its text is null, or
      equal to the empty string once trimmed. */
  predicate FailsTextCheck(t: Option<string>) {
    t.None? || Trim(t.value) == ""
  }

  /** The source's check and the reference definition agree. */
  lemma TextCheckMatchesReference(t: Option<string>)
    ensures FailsTextCheck(t) <==> TextMissing(t)
  {
  }

  /** Records "Field can't be empty" under `field` when its check failed. */
  function AddErrorIf(errors: Errors, failed: bool, field: string): Errors {
    if failed then errors[field := EmptyFieldMessage] else errors
  }

  /** Every message in the map is "Field can't be empty". */
  predicate Uniform(errors: Errors) {
    forall k | k in errors :: errors[k] == EmptyFieldMessage
  }

  /** Adding the one message the form uses keeps the map uniform. */
  lemma AddErrorKeepsUniform(errors: Errors, failed: bool, field: string)
    requires Uniform(errors)
    ensures Uniform(AddErrorIf(errors, failed, field))
  {
  }

  /** The error map `getFormData` accumulates. The five checks run one after
      the other and none of them stops the others, so validation is
      exhaustive: each field's key is present exactly when that field is
      missing, no other key ever appears, every message is "Field can't be
      empty", and the map is empty exactly when nothing is missing. */
  function ValidationErrors(f: SellerFields): (errors: Errors)
    ensures "name" in errors <==> TextMissing(f.nameText)
    ensures "email" in errors <==> TextMissing(f.emailText)
    ensures "birthDate" in errors <==> f.birthDate.None?
    ensures "baseSalary" in errors <==> TextMissing(f.baseSalaryText)
    ensures "department" in errors <==> f.department.None?
    ensures errors.Keys <= {"name", "email", "birthDate", "baseSalary", "department"}
    ensures Uniform(errors)
    ensures errors == map[] <==> !AnyFieldMissing(f)
  {
    var e0: Errors := map[];
    var e1 := AddErrorIf(e0, FailsTextCheck(f.nameText), "name");
    var e2 := AddErrorIf(e1, FailsTextCheck(f.emailText), "email");
    var e3 := AddErrorIf(e2, f.birthDate.None?, "birthDate");
    var e4 := AddErrorIf(e3, FailsTextCheck(f.baseSalaryText), "baseSalary");
    var e5 := AddErrorIf(e4, f.department.None?, "department");
    TextCheckMatchesReference(f.nameText);
    TextCheckMatchesReference(f.emailText);
    TextCheckMatchesReference(f.baseSalaryText);
    AddErrorKeepsUniform(e0, FailsTextCheck(f.nameText), "name");
    AddErrorKeepsUniform(e1, FailsTextCheck(f.emailText), "email");
    AddErrorKeepsUniform(e2, f.birthDate.None?, "birthDate");
    AddErrorKeepsUniform(e3, FailsTextCheck(f.baseSalaryText), "baseSalary");
    AddErrorKeepsUniform(e4, f.department.None?, "department");
    assert AnyFieldMissing(f) ==> e5 != map[] by {
      if TextMissing(f.nameText) { assert "name" in e5; }
      else if TextMissing(f.emailText) { assert "email" in e5; }
      else if f.birthDate.None? { assert "birthDate" in e5; }
      else if TextMissing(f.baseSalaryText) { assert "baseSalary" in e5; }
      else if f.department.None? { assert "department" in e5; }
    }
    e5
  }

  /** `getFormData`: a `Seller` when no required field is missing, otherwise
      the `ValidationException` carrying the whole error map. On success the
      name, email and department are the fields' values unchanged, the id and
      salary are whatever the parse helpers make of their texts, and the birth
      date is the picked day at the start of the day in the system zone. */
  function GetFormData(p: Platform, f: SellerFields): (r: Result<Seller, Errors>)
    ensures r.Success? <==> !AnyFieldMissing(f)
    ensures r.Failure? ==> r.error == ValidationErrors(f) && r.error != map[]
    ensures r.Success? ==>
      && r.value.id == p.tryParseToInt(f.idText)
      && r.value.name == f.nameText
      && r.value.email == f.emailText
      && r.value.birthDate == Some(p.startOfDay(f.birthDate.value))
      && r.value.baseSalary == p.tryParseToDouble(f.baseSalaryText)
      && r.value.department == f.department
  {
    var errors := ValidationErrors(f);
    var birthDate := if f.birthDate.Some? then Some(p.startOfDay(f.birthDate.value)) else None;
    var seller := Seller(p.tryParseToInt(f.idText), f.nameText, f.emailText, birthDate,
                         p.tryParseToDouble(f.baseSalaryText), f.department);
    if |errors| > 0 then Failure(errors) else Success(seller)
  }

  /** A form whose name is empty but is otherwise filled in fails with the
      single error {"name": "Field can't be empty"}: the name's error is
      reported and no other field is blamed. */
  lemma EmptyNameIsTheOnlyError(f: SellerFields)
    requires f.nameText == Some("")
    requires !TextMissing(f.emailText) && !TextMissing(f.baseSalaryText)
    requires f.birthDate.Some? && f.department.Some?
    ensures ValidationErrors(f).Keys == {"name"}
    ensures ValidationErrors(f)["name"] == EmptyFieldMessage
  {
  }

  /** On a form with nothing missing, `getFormData` returns a seller, and
      that seller has a non-blank name and email, a birth date and a
      department: no partially filled seller ever leaves the form. */
  lemma ExtractedSellerIsComplete(p: Platform, f: SellerFields)
    requires !AnyFieldMissing(f)
    ensures GetFormData(p, f).value.name.Some? && Trim(GetFormData(p, f).value.name.value) != ""
    ensures GetFormData(p, f).value.email.Some? && Trim(GetFormData(p, f).value.email.value) != ""
    ensures GetFormData(p, f).value.birthDate.Some? && GetFormData(p, f).value.department.Some?
  {
  }

  /** `updateFormData` after its null check: every control is rewritten from
      the entity, except that a null birth date leaves the date picker as it
      was. A null department first selects the combo box's first item and
      then sets its value to null, so the value ends up null. */
  function LoadFields(p: Platform, e: Seller, f: SellerFields): (r: SellerFields)
    ensures r.idText == Some(ValueOf(p, e.id))
    ensures r.nameText == e.name && r.emailText == e.email && r.department == e.department
    ensures r.baseSalaryText == Some(p.formatSalary(e.baseSalary))
    ensures e.birthDate.None? ==> r.birthDate == f.birthDate
    ensures e.birthDate.Some? ==> r.birthDate == Some(p.toLocalDate(e.birthDate.value))
  {
    SellerFields(
      Some(ValueOf(p, e.id)),
      e.name,
      e.email,
      if e.birthDate.Some? then Some(p.toLocalDate(e.birthDate.value)) else f.birthDate,
      Some(p.formatSalary(e.baseSalary)),
      e.department)
  }

  /** Showing a complete seller in the form and reading the form back gives
      the same seller, provided the platform helpers invert each other on its
      values (the id text parses back to the id, the formatted salary parses
      back to the salary, the birth date is a start of day). */
  lemma LoadThenExtractRoundTrip(p: Platform, e: Seller, f: SellerFields)
    requires e.name.Some? && !IsBlank(e.name.value)
    requires e.email.Some? && !IsBlank(e.email.value)
    requires e.birthDate.Some? && e.department.Some?
    requires !IsBlank(p.formatSalary(e.baseSalary))
    requires p.tryParseToInt(Some(ValueOf(p, e.id))) == e.id
    requires p.tryParseToDouble(Some(p.formatSalary(e.baseSalary))) == e.baseSalary
    requires p.startOfDay(p.toLocalDate(e.birthDate.value)) == e.birthDate.value
    ensures GetFormData(p, LoadFields(p, e, f)) == Success(e)
  {
    var g := LoadFields(p, e, f);
    assert !AnyFieldMissing(g);
  }

  /** The message stored under `key`, or "" when the map has none. */
  function Lookup(errors: Errors, key: string): string {
    if key in errors then errors[key] else ""
  }

  /** `setErrorMessages` as the controller writes it. The fifth assignment
      targets the birth-date label again, so that label ends up showing the
      department's message and the department label is never written. */
  function SetErrorMessagesAsWritten(labels: SellerLabels, errors: Errors): (r: SellerLabels)
    ensures r.name == Lookup(errors, "name")
    ensures r.email == Lookup(errors, "email")
    ensures r.baseSalary == Lookup(errors, "baseSalary")
    ensures r.birthDate == Lookup(errors, "department")
    ensures r.department == labels.department
  {
    var l1 := labels.(name := Lookup(errors, "name"));
    var l2 := l1.(email := Lookup(errors, "email"));
    var l3 := l2.(baseSalary := Lookup(errors, "baseSalary"));
    var l4 := l3.(birthDate := Lookup(errors, "birthDate"));
    l4.(birthDate := Lookup(errors, "department"))
  }

  /** The defect in the as-written version: when only the birth date is
      missing, the validation error for it is reported but no label shows it,
      and when only the department is missing its message appears under the
      birth date. */
  lemma AsWrittenMisplacesDateAndDepartmentErrors(labels: SellerLabels, f: SellerFields)
    requires !TextMissing(f.nameText) && !TextMissing(f.emailText) && !TextMissing(f.baseSalaryText)
    ensures f.birthDate.None? && f.department.Some? ==>
      && ValidationErrors(f) == map["birthDate" := EmptyFieldMessage]
      && SetErrorMessagesAsWritten(labels, ValidationErrors(f)).birthDate == ""
    ensures f.birthDate.Some? && f.department.None? ==>
      && ValidationErrors(f) == map["department" := EmptyFieldMessage]
      && SetErrorMessagesAsWritten(labels, ValidationErrors(f)).birthDate == EmptyFieldMessage
      && SetErrorMessagesAsWritten(labels, ValidationErrors(f)).department == labels.department
  {
    var errors := ValidationErrors(f);
    if f.birthDate.None? && f.department.Some? {
      assert errors.Keys == {"birthDate"};
    }
    if f.birthDate.Some? && f.department.None? {
      assert errors.Keys == {"department"};
    }
  }

  /** `setErrorMessages` with the evident intent: each label shows its own
      field's message, or "" when that field has none. */
  function SetErrorMessages(labels: SellerLabels, errors: Errors): (r: SellerLabels)
    ensures r.name == Lookup(errors, "name")
    ensures r.email == Lookup(errors, "email")
    ensures r.birthDate == Lookup(errors, "birthDate")
    ensures r.baseSalary == Lookup(errors, "baseSalary")
    ensures r.department == Lookup(errors, "department")
  {
    var l1 := labels.(name := Lookup(errors, "name"));
    var l2 := l1.(email := Lookup(errors, "email"));
    var l3 := l2.(baseSalary := Lookup(errors, "baseSalary"));
    var l4 := l3.(birthDate := Lookup(errors, "birthDate"));
    l4.(department := Lookup(errors, "department"))
  }

  /** After a failed validation, each label shows "Field can't be empty"
      exactly when its own field is missing, and is cleared otherwise: every
      problem is visible at once and nothing is shown against the wrong field. */
  lemma ErrorLabelsMatchMissingFields(labels: SellerLabels, f: SellerFields)
    ensures SetErrorMessages(labels, ValidationErrors(f)).name
         == (if TextMissing(f.nameText) then EmptyFieldMessage else "")
    ensures SetErrorMessages(labels, ValidationErrors(f)).email
         == (if TextMissing(f.emailText) then EmptyFieldMessage else "")
    ensures SetErrorMessages(labels, ValidationErrors(f)).birthDate
         == (if f.birthDate.None? then EmptyFieldMessage else "")
    ensures SetErrorMessages(labels, ValidationErrors(f)).baseSalary
         == (if TextMissing(f.baseSalaryText) then EmptyFieldMessage else "")
    ensures SetErrorMessages(labels, ValidationErrors(f)).department
         == (if f.department.None? then EmptyFieldMessage else "")
  {
  }
}
