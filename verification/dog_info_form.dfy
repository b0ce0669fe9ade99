/**
 * The reusable dog-information form (src/components/DogInfoForm.tsx). Its validator repeats
 * the edit page's rule with its own messages; clearing an error leaves the field's key in
 * place with no message rather than deleting it.
 */
module DogInfoForm {
  import opened Wrappers
  import opened Text
  import opened Profile
  import EditInfoPage

  /** The form and its error record; a key mapped to `None` is an error cleared to `undefined`. */
  datatype FormState = FormState(form: DogInfo, errors: map<Field, Option<string>>)

  /** The message `validateForm` puts under a failing field. */
  function ErrorMessage(f: Field): string {
    match f
    case Breed => "请输入犬种"
    case AgeMonths => "请选择月龄区间"
    case CompanionHours => "请选择陪伴时间"
    case DaysHome => "到家天数需在1-30天之间"
  }

  /** The form starts from `initialData` when it is given, else from the empty form. */
  function InitialState(initialData: Option<DogInfo>): (st: FormState)
    ensures initialData.Some? ==> st.form == initialData.value
    ensures initialData.None? ==> st.form == DogInfo("", "", "", 1)
    ensures st.errors == map[]
  {
    FormState(initialData.GetOr(EmptyInfo), map[])
  }

  /** The error record `validateForm` builds: only failing fields, each with its message. */
  function Errors(info: DogInfo): (errors: map<Field, Option<string>>)
    ensures Breed in errors <==> Blank(info.breed)
    ensures AgeMonths in errors <==> info.ageMonths == ""
    ensures CompanionHours in errors <==> info.companionHours == ""
    ensures DaysHome in errors <==> info.daysHome < 1 || info.daysHome > 30
    ensures forall f :: f in errors ==> errors[f] == Some(ErrorMessage(f))
  {
    var e0: map<Field, Option<string>> := map[];
    var e1 := if Blank(info.breed) then e0[Breed := Some(ErrorMessage(Breed))] else e0;
    var e2 := if info.ageMonths == "" then e1[AgeMonths := Some(ErrorMessage(AgeMonths))] else e1;
    var e3 := if info.companionHours == "" then e2[CompanionHours := Some(ErrorMessage(CompanionHours))] else e2;
    if info.daysHome < 1 || info.daysHome > 30 then e3[DaysHome := Some(ErrorMessage(DaysHome))] else e3
  }

  /** `validateForm`: the errors are replaced, and the form passes when there are none. */
  function ValidateForm(st: FormState): (r: (bool, FormState))
    ensures r.0 <==> Acceptable(st.form)
    ensures r.0 <==> r.1.errors == map[]
    ensures r.1.form == st.form
    ensures r.1.errors == Errors(st.form)
  {
    var errors := Errors(st.form);
    (|errors| == 0, st.(errors := errors))
  }

  /** `handleSubmit`: `onSubmit` receives the form exactly when it validates. */
  function HandleSubmit(st: FormState): (r: (FormState, Option<DogInfo>))
    ensures r.1.Some? <==> Acceptable(st.form)
    ensures r.1.Some? ==> r.1.value == st.form
    ensures r.0.form == st.form
    ensures r.0.errors == Errors(st.form)
  {
    var (ok, st') := ValidateForm(st);
    (st', if ok then Some(st.form) else None)
  }

  /**
   * `updateField`: the field takes the new value; its error, when a message is shown,
   * becomes `undefined`; nothing else changes.
   */
  function UpdateField(st: FormState, e: Edit): (r: FormState)
    ensures r.form == Apply(st.form, e)
    ensures r.errors.Keys == st.errors.Keys
    ensures forall f :: f in st.errors && f != e.Target() ==> r.errors[f] == st.errors[f]
    ensures e.Target() in st.errors ==>
      r.errors[e.Target()] == (if st.errors[e.Target()] == Some("") then Some("") else None)
  {
    var f := e.Target();
    var shown := f in st.errors && st.errors[f].Some? && st.errors[f].value != "";
    FormState(Apply(st.form, e), if shown then st.errors[f := None] else st.errors)
  }

  /** The two validators accept the same forms and flag the same fields; only the wording differs. */
  lemma ValidatorsAgree(info: DogInfo)
    ensures ValidateForm(FormState(info, map[])).0 == EditInfoPage.ValidateForm(EditInfoPage.EditState(info, map[])).0
    ensures Errors(info).Keys == EditInfoPage.Errors(info).Keys
  {
    var a := Errors(info);
    var b := EditInfoPage.Errors(info);
    forall f ensures f in a <==> f in b {
      match f
      case Breed =>
      case AgeMonths =>
      case CompanionHours =>
      case DaysHome =>
    }
  }
}
