/**
 * The dog-information edit page (src/app/with-dog/edit-info/page.tsx): its validator, the
 * input handler that clears a field's error, and the submit that stores the information
 * and returns to the with-dog page.
 */
module EditInfoPage {
  import opened Wrappers
  import opened Text
  import opened Profile

  /** The form and the error shown under each field. */
  datatype EditState = EditState(form: DogInfo, errors: map<Field, string>)

  const StartState: EditState := EditState(EmptyInfo, map[])

  /** The storage key of the dog information. */
  const DogInfoKey: string := "petbrain_dog_info"
  /** The storage key of the last visit date. */
  const LastVisitKey: string := "petbrain_last_visit_date"
  /** The with-dog page, where a valid submit returns. */
  const WithDogRoute: string := "/with-dog"

  /**
   * The load effect. Stored information that parses is put in the form and marks an edit
   * (the second component false); a stored `null` is put in the form as well, leaving no
   * form to show (`None`), since the inputs read `formData.breed` and the like. When
   * nothing is stored, or the parse throws, the empty form stays and a first fill is
   * marked. `decode` stands for `JSON.parse`.
   */
  function OnLoad(store: map<string, string>, decode: string -> Parsed): (r: (Option<EditState>, bool))
    ensures !r.1 <==> DogInfoKey in store && store[DogInfoKey] != "" && !decode(store[DogInfoKey]).ParseFails?
    ensures r.0.None? <==> DogInfoKey in store && store[DogInfoKey] != "" && decode(store[DogInfoKey]).ParsedNull?
    ensures !r.1 && r.0.Some? ==> r.0.value.form == decode(store[DogInfoKey]).info
    ensures r.1 ==> r.0 == Some(StartState)
    ensures r.0.Some? ==> r.0.value.errors == map[]
  {
    if DogInfoKey in store && store[DogInfoKey] != "" then
      match decode(store[DogInfoKey])
      case ParsedInfo(info) => (Some(EditState(info, map[])), false)
      case ParsedNull => (None, false)
      case ParseFails => (Some(StartState), true)
    else (Some(StartState), true)
  }

  /** The message `validateForm` puts under a failing field. */
  function ErrorMessage(f: Field): string {
    match f
    case Breed => "请输入犬种"
    case AgeMonths => "请选择月龄区间"
    case CompanionHours => "请选择每天可陪伴时间"
    case DaysHome => "到家天数必须在1-30之间"
  }

  /** `!daysHome || daysHome < 1 || daysHome > 30`. */
  predicate DaysHomeRejected(d: int) {
    d == 0 || d < 1 || d > 30
  }

  /** The error map `validateForm` builds, field by field. */
  function Errors(info: DogInfo): (errors: map<Field, string>)
    ensures Breed in errors <==> Blank(info.breed)
    ensures AgeMonths in errors <==> info.ageMonths == ""
    ensures CompanionHours in errors <==> info.companionHours == ""
    ensures DaysHome in errors <==> !(1 <= info.daysHome <= 30)
    ensures forall f :: f in errors ==> errors[f] == ErrorMessage(f)
  {
    var e0: map<Field, string> := map[];
    var e1 := if Blank(info.breed) then e0[Breed := ErrorMessage(Breed)] else e0;
    var e2 := if info.ageMonths == "" then e1[AgeMonths := ErrorMessage(AgeMonths)] else e1;
    var e3 := if info.companionHours == "" then e2[CompanionHours := ErrorMessage(CompanionHours)] else e2;
    if DaysHomeRejected(info.daysHome) then e3[DaysHome := ErrorMessage(DaysHome)] else e3
  }

  /** `validateForm`: the errors are shown, and the form passes when there are none. */
  function ValidateForm(st: EditState): (r: (bool, EditState))
    ensures r.0 <==> Acceptable(st.form)
    ensures r.0 <==> r.1.errors == map[]
    ensures r.1.form == st.form
    ensures r.1.errors == Errors(st.form)
    ensures forall f :: f in r.1.errors ==> r.1.errors[f] == ErrorMessage(f)
  {
    var errors := Errors(st.form);
    (|errors| == 0, st.(errors := errors))
  }

  /**
   * `handleInputChange`: the field takes the new value, and its error, when one is shown,
   * is removed.
   */
  function HandleInputChange(st: EditState, e: Edit): (r: EditState)
    ensures r.form == Apply(st.form, e)
    ensures e.Target() in st.errors && st.errors[e.Target()] != "" ==> e.Target() !in r.errors
    ensures forall f :: f != e.Target() ==> (f in r.errors <==> f in st.errors)
    ensures forall f :: f != e.Target() && f in st.errors ==> r.errors[f] == st.errors[f]
  {
    var f := e.Target();
    var errors := if f in st.errors && st.errors[f] != "" then st.errors - {f} else st.errors;
    EditState(Apply(st.form, e), errors)
  }

  /**
   * `handleSubmit`: on a valid form the information is stored under its key, together with
   * today's date, and the page goes back to the with-dog page; otherwise only the errors
   * change. `encode` stands for `JSON.stringify`, `today` for `new Date().toDateString()`.
   */
  function HandleSubmit(st: EditState, store: map<string, string>, encode: DogInfo -> string, today: string)
    : (r: (EditState, map<string, string>, Option<string>))
    ensures r.2.Some? <==> Acceptable(st.form)
    ensures r.2.Some? ==> r.2.value == WithDogRoute
    ensures r.2.Some? ==> r.1 == store[DogInfoKey := encode(st.form)][LastVisitKey := today]
    ensures r.2.None? ==> r.1 == store && r.0.errors != map[]
    ensures r.0.errors == Errors(st.form)
    ensures r.0.form == st.form
  {
    var (ok, st') := ValidateForm(st);
    if !ok then (st', store, None)
    else (st', store[DogInfoKey := encode(st.form)][LastVisitKey := today], Some(WithDogRoute))
  }

  /**
   * A valid submit followed by a fresh visit to the page shows the submitted information
   * as an edit, provided its encoding is not empty and decodes back to it.
   */
  lemma SubmitThenReload(st: EditState, store: map<string, string>, encode: DogInfo -> string,
                         decode: string -> Parsed, today: string)
    requires Acceptable(st.form)
    requires decode(encode(st.form)) == ParsedInfo(st.form) && encode(st.form) != ""
    ensures OnLoad(HandleSubmit(st, store, encode, today).1, decode) == (Some(EditState(st.form, map[])), false)
  {
    var store' := HandleSubmit(st, store, encode, today).1;
    assert store'[DogInfoKey] == encode(st.form);
  }

  /** Every error shown is the validator's message for its field. */
  predicate ErrorsShown(st: EditState) {
    forall f :: f in st.errors ==> st.errors[f] == ErrorMessage(f)
  }

  /** Among reachable states, an input event always removes the error of its field, and only that one. */
  lemma InputChangeClearsError(st: EditState, e: Edit)
    requires ErrorsShown(st)
    ensures e.Target() !in HandleInputChange(st, e).errors
    ensures HandleInputChange(st, e).errors == st.errors - {e.Target()}
    ensures ErrorsShown(HandleInputChange(st, e))
  {
  }

  /** The start state shows no error, and validating and editing keep every shown error a validator message. */
  lemma ErrorsShownInvariant(st: EditState, e: Edit)
    ensures ErrorsShown(StartState)
    ensures ErrorsShown(ValidateForm(st).1)
    ensures ErrorsShown(st) ==> ErrorsShown(HandleInputChange(st, e))
  {
  }

  /**
   * Every `daysHome` the number input produces passes the `!daysHome` test, so for typed
   * input the validator rejects a day count only for being out of range.
   */
  lemma DaysHomeInputNeverFalsy(raw: string)
    ensures DaysHomeInput(raw) != 0
    ensures DaysHomeRejected(DaysHomeInput(raw)) <==> DaysHomeInput(raw) < 0 || DaysHomeInput(raw) > 30
  {
  }

  /** `未知` is one of the age options and passes the validator like any other choice. */
  lemma UnknownAgeAccepted(breed: string, hours: string, days: int)
    requires !Blank(breed) && hours != "" && 1 <= days <= 30
    ensures ValidateForm(EditState(DogInfo(breed, "未知", hours, days), map[])).0
  {
  }
}
