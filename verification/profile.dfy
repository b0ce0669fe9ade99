/**
 * The dog information the with-dog stage keeps (the `DogInfo` interface shared by
 * src/app/with-dog/page.tsx, src/app/with-dog/edit-info/page.tsx and
 * src/components/DogInfoForm.tsx), its four fields, and the number input of `daysHome`.
 */
module Profile {
  import opened Wrappers
  import opened Text

  /**
   * Breed as typed, the age and companion selections as the option values of the two
   * selects ("" while nothing is chosen), and the day count as a number.
   */
  datatype DogInfo = DogInfo(breed: string, ageMonths: string, companionHours: string, daysHome: int)

  /**
   * What `JSON.parse` makes of the stored dog information: it throws, it yields `null`, or
   * it yields a record. Only complete records are ever written under the key.
   */
  datatype Parsed = ParseFails | ParsedNull | ParsedInfo(info: DogInfo) {

    /** The value a page's state takes after `setDogInfo(parsed)`: the record, or `null`. */
    function Value(): (r: Option<DogInfo>)
      requires !ParseFails?
      ensures r.Some? <==> ParsedInfo?
      ensures r.Some? ==> r.value == info
    {
      if ParsedInfo? then Some(info) else None
    }
  }

  /** `keyof DogInfo`. */
  datatype Field = Breed | AgeMonths | CompanionHours | DaysHome

  /** One input event: the field it targets and the value it carries. */
  datatype Edit = SetBreed(breed: string) | SetAgeMonths(age: string) | SetCompanionHours(hours: string) | SetDaysHome(days: int) {

    function Target(): Field {
      match this
      case SetBreed(_) => Breed
      case SetAgeMonths(_) => AgeMonths
      case SetCompanionHours(_) => CompanionHours
      case SetDaysHome(_) => DaysHome
    }
  }

  /** The form before anything is typed: empty strings and one day at home. */
  const EmptyInfo: DogInfo := DogInfo("", "", "", 1)

  /** `{ ...info, [field]: value }`. */
  function Apply(info: DogInfo, e: Edit): (r: DogInfo)
    ensures e.SetBreed? ==> r.breed == e.breed
    ensures e.SetAgeMonths? ==> r.ageMonths == e.age
    ensures e.SetCompanionHours? ==> r.companionHours == e.hours
    ensures e.SetDaysHome? ==> r.daysHome == e.days
    ensures e.Target() != Breed ==> r.breed == info.breed
    ensures e.Target() != AgeMonths ==> r.ageMonths == info.ageMonths
    ensures e.Target() != CompanionHours ==> r.companionHours == info.companionHours
    ensures e.Target() != DaysHome ==> r.daysHome == info.daysHome
  {
    match e
    case SetBreed(b) => info.(breed := b)
    case SetAgeMonths(a) => info.(ageMonths := a)
    case SetCompanionHours(h) => info.(companionHours := h)
    case SetDaysHome(d) => info.(daysHome := d)
  }

  /**
   * What both dog-info forms accept: a breed that is not blank, an age and a companion
   * choice made, and between one and thirty days at home.
   */
  predicate Acceptable(info: DogInfo) {
    && !Blank(info.breed) && info.ageMonths != "" && info.companionHours != ""
    && 1 <= info.daysHome <= 30
  }

  /**
   * The `daysHome` input handler's `parseInt(value) || 1`: `NaN` and zero both fall back to
   * one; any other integer, negative ones included, is kept.
   */
  function DaysHomeInput(raw: string): (d: int)
    ensures d != 0
    ensures ParseInt(raw).None? ==> d == 1
    ensures ParseInt(raw).Some? && ParseInt(raw).value != 0 ==> d == ParseInt(raw).value
    ensures ParseInt(raw) == Some(0) ==> d == 1
  {
    match ParseInt(raw)
    case Some(n) => if n == 0 then 1 else n
    case None => 1
  }

  /** Typing the numeral of a non-zero day count yields that count. */
  lemma DaysHomeInputOfNumeral(n: int)
    requires n != 0
    ensures DaysHomeInput(IntToString(n)) == n
  {
    ParseIntOfString(n);
  }
}
