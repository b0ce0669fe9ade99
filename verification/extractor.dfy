/**
 * The deterministic dog-information extractor (src/lib/dogInfoExtractor.ts). It reads one
 * free-text user message and recovers at most three facts: the breed, an age bucket and a
 * companion-hours bucket. There is no model call: only fixed word lists, substring
 * containment and a handful of regular expressions, hand-coded here as scanners.
 */
module DogInfoExtractor {
  import opened Wrappers
  import opened Text
  import opened Scan
  import opened Lexicon

  /** Age buckets, in months. */
  datatype AgeRange = Months1To3 | Months4To6 | Months6To12 | Months12Plus {

    /** The string the application stores for the bucket. */
    function Label(): string {
      match this
      case Months1To3 => "1-3"
      case Months4To6 => "4-6"
      case Months6To12 => "6-12"
      case Months12Plus => "12+"
    }

    /** Position of the bucket in increasing age. */
    function Rank(): nat {
      match this
      case Months1To3 => 0
      case Months4To6 => 1
      case Months6To12 => 2
      case Months12Plus => 3
    }
  }

  /** Daily companion-time buckets. */
  datatype CompanionRange = AtMost1h | Hours2To3 | Hours4To8 | AtLeast8h {

    function Label(): string {
      match this
      case AtMost1h => "≤1h"
      case Hours2To3 => "2-3h"
      case Hours4To8 => "4-8h"
      case AtLeast8h => "≥8h"
    }

    function Rank(): nat {
      match this
      case AtMost1h => 0
      case Hours2To3 => 1
      case Hours4To8 => 2
      case AtLeast8h => 3
    }
  }

  /** The result of `extract`: each field independently absent when no signal was found. */
  datatype ExtractedDogInfo = ExtractedDogInfo(
    breed: Option<string>,
    ageMonths: Option<AgeRange>,
    companionHours: Option<CompanionRange>)

  // ---------------------------------------------------------------- gates

  /** Some consulting or negation phrase occurs in the text. */
  predicate HasNegativePattern(text: string) {
    ContainsAny(text, Negatives)
  }

  /** Some ownership or decision verb occurs in the text. */
  predicate HasTriggerVerb(text: string) {
    ContainsAny(text, Triggers)
  }

  /** Some word of the relaxed companion trigger set occurs in the text. */
  predicate HasCompanionContext(text: string) {
    ContainsAny(text, CompanionContext)
  }

  // ---------------------------------------------------------------- breed

  /**
   * `extractBreed`: after the veto and the trigger gate, the first breed of the list, in
   * declaration order, that occurs anywhere in the text.
   */
  function ExtractBreed(text: string): (r: Option<string>)
    ensures r.Some? ==> !HasNegativePattern(text) && HasTriggerVerb(text)
    ensures r.Some? ==>
      exists k :: 0 <= k < |DogBreeds| && r.value == DogBreeds[k] && Contains(text, DogBreeds[k])
        && forall j :: 0 <= j < k ==> !Contains(text, DogBreeds[j])
    ensures r.None? && !HasNegativePattern(text) && HasTriggerVerb(text) ==>
      forall k :: 0 <= k < |DogBreeds| ==> !Contains(text, DogBreeds[k])
  {
    if HasNegativePattern(text) then None
    else if !HasTriggerVerb(text) then None
    else match FirstContained(text, DogBreeds, 0)
      case Some(k) => Some(DogBreeds[k])
      case None => None
  }

  // ---------------------------------------------------------------- age

  /** `mapToAgeRange`: buckets with inclusive upper bounds 3, 6 and 12. */
  function MapToAgeRange(months: int): (r: AgeRange)
    ensures r == Months1To3 <==> months <= 3
    ensures r == Months4To6 <==> 3 < months <= 6
    ensures r == Months6To12 <==> 6 < months <= 12
    ensures r == Months12Plus <==> 12 < months
  {
    if months <= 3 then Months1To3
    else if months <= 6 then Months4To6
    else if months <= 12 then Months6To12
    else Months12Plus
  }

  /** `/(\d+)\s*个?月(?:龄|大)?/` anchored at `i`; the capture is the digit run's value. */
  function MonthsCountAt(text: string, i: nat): Option<nat> {
    if i > |text| then None
    else
      var digits := DigitRun(text, i);
      var j := i + |digits|;
      var k := j + Span(text, j, Space);
      var m := if k < |text| && text[k] == '个' then k + 1 else k;
      if |digits| > 0 && m < |text| && text[m] == '月' then Some(DecimalValue(digits)) else None
  }

  /** `/(\d+)\s*月大/` anchored at `i`. */
  function MonthsOldAt(text: string, i: nat): Option<nat> {
    if i > |text| then None
    else
      var digits := DigitRun(text, i);
      var j := i + |digits|;
      var k := j + Span(text, j, Space);
      if |digits| > 0 && MatchesAt(text, k, "月大") then Some(DecimalValue(digits)) else None
  }

  /** The month count of the first month pattern, in list order, that matches somewhere. */
  function MonthsMentioned(text: string): Option<nat> {
    match Leftmost(MonthsCountAt, text, 0)
    case Some(f) => Some(f.captures)
    case None =>
      match Leftmost(MonthsOldAt, text, 0)
      case Some(f) => Some(f.captures)
      case None => None
  }

  /**
   * `extractAgeMonths`: after the veto and the trigger gate, juvenile words give '1-3',
   * then adult words give '12+', and only then is a month count bucketed.
   */
  function ExtractAgeMonths(text: string): (r: Option<AgeRange>)
    ensures r.Some? ==> !HasNegativePattern(text) && HasTriggerVerb(text)
    ensures r.Some? && ContainsAny(text, JuvenileWords) ==> r.value == Months1To3
    ensures r.Some? && !ContainsAny(text, JuvenileWords) && ContainsAny(text, AdultWords) ==> r.value == Months12Plus
    ensures r.Some? && !ContainsAny(text, JuvenileWords) && !ContainsAny(text, AdultWords) ==>
      MonthsMentioned(text).Some? && r.value == MapToAgeRange(MonthsMentioned(text).value)
    ensures (!HasNegativePattern(text) && HasTriggerVerb(text) && !ContainsAny(text, JuvenileWords)
             && !ContainsAny(text, AdultWords) && MonthsMentioned(text).Some?) ==> r.Some?
    ensures MonthsMentioned(text).None? && !ContainsAny(text, JuvenileWords) && !ContainsAny(text, AdultWords) ==> r.None?
  {
    if HasNegativePattern(text) then None
    else if !HasTriggerVerb(text) then None
    else if ContainsAny(text, JuvenileWords) then Some(Months1To3)
    else if ContainsAny(text, AdultWords) then Some(Months12Plus)
    else match MonthsMentioned(text)
      case Some(months) => Some(MapToAgeRange(months))
      case None => None
  }

  // ---------------------------------------------------------------- companion hours

  /** The captures of an hour pattern: the first number and the optional second one. */
  datatype HourCapture = HourCapture(first: nat, second: Option<nat>)

  /** `\s*(\d+)\s*[-到至]?\s*(\d+)?\s*个?小?时` anchored at `i`, the tail all three hour patterns share. */
  function HoursTailAt(text: string, i: nat): Option<HourCapture> {
    if i > |text| then None
    else
      var a := i + Span(text, i, Space);
      var first := DigitRun(text, a);
      var b := a + |first|;
      var c := b + Span(text, b, Space);
      var c' := if c < |text| && (text[c] == '-' || text[c] == '到' || text[c] == '至') then c + 1 else c;
      var e := c' + Span(text, c', Space);
      var second := DigitRun(text, e);
      var f := e + |second|;
      var g := f + Span(text, f, Space);
      var g' := if g < |text| && text[g] == '个' then g + 1 else g;
      var h := if g' < |text| && text[g'] == '小' then g' + 1 else g';
      if |first| > 0 && h < |text| && text[h] == '时' then
        Some(HourCapture(DecimalValue(first), if |second| == 0 then None else Some(DecimalValue(second))))
      else None
  }

  /** `/[每一]\s*天\s*(\d+)\s*[-到至]?\s*(\d+)?\s*个?小?时/` anchored at `i`. */
  function EveryDayHoursAt(text: string, i: nat): Option<HourCapture> {
    if i < |text| && (text[i] == '每' || text[i] == '一') then
      var j := i + 1 + Span(text, i + 1, Space);
      if j < |text| && text[j] == '天' then HoursTailAt(text, j + 1) else None
    else None
  }

  /** `/能陪\s*(\d+)\s*[-到至]?\s*(\d+)?\s*个?小?时/` anchored at `i`. */
  function CanAccompanyHoursAt(text: string, i: nat): Option<HourCapture> {
    if MatchesAt(text, i, "能陪") then HoursTailAt(text, i + 2) else None
  }

  /** `/陪伴\s*(\d+)\s*[-到至]?\s*(\d+)?\s*个?小?时/` anchored at `i`. */
  function AccompanyHoursAt(text: string, i: nat): Option<HourCapture> {
    if MatchesAt(text, i, "陪伴") then HoursTailAt(text, i + 2) else None
  }

  /** The captures of the first hour pattern, in list order, that matches somewhere. */
  function HoursMentioned(text: string): Option<HourCapture> {
    match Leftmost(EveryDayHoursAt, text, 0)
    case Some(f) => Some(f.captures)
    case None =>
      match Leftmost(CanAccompanyHoursAt, text, 0)
      case Some(f) => Some(f.captures)
      case None =>
        match Leftmost(AccompanyHoursAt, text, 0)
        case Some(f) => Some(f.captures)
        case None => None
  }

  /**
   * Twice the averaged hours: a second number that is present and non-zero is averaged
   * with the first, otherwise the first stands alone (`hours2 ? (hours + hours2) / 2 : hours`).
   * Doubling keeps the half-hour average an integer.
   */
  function TwiceAverage(c: HourCapture): (t: nat)
    ensures t as real == 2.0 * (if c.second.Some? && c.second.value != 0
                                then (c.first + c.second.value) as real / 2.0
                                else c.first as real)
  {
    if c.second.Some? && c.second.value != 0 then c.first + c.second.value else 2 * c.first
  }

  /** Buckets on the average with inclusive upper bounds 1, 3 and 8 hours. */
  function HoursBucket(c: HourCapture): (r: CompanionRange)
    ensures r == AtMost1h <==> TwiceAverage(c) <= 2
    ensures r == Hours2To3 <==> 2 < TwiceAverage(c) <= 6
    ensures r == Hours4To8 <==> 6 < TwiceAverage(c) <= 16
    ensures r == AtLeast8h <==> 16 < TwiceAverage(c)
  {
    var t := TwiceAverage(c);
    if t <= 2 then AtMost1h
    else if t <= 6 then Hours2To3
    else if t <= 16 then Hours4To8
    else AtLeast8h
  }

  /**
   * `extractCompanionHours`: the veto still applies but the trigger set is the wider one;
   * then all-day words, mostly-home words and office-worker words, in that priority,
   * and only then the hour patterns.
   */
  function ExtractCompanionHours(text: string): (r: Option<CompanionRange>)
    ensures r.Some? ==> !HasNegativePattern(text) && HasCompanionContext(text)
    ensures r.Some? && ContainsAny(text, AllDayWords) ==> r.value == AtLeast8h
    ensures r.Some? && !ContainsAny(text, AllDayWords) && ContainsAny(text, MostlyHomeWords) ==> r.value == Hours4To8
    ensures (r.Some? && !ContainsAny(text, AllDayWords) && !ContainsAny(text, MostlyHomeWords)
             && ContainsAny(text, OfficeWorkerWords)) ==> r.value == AtMost1h
    ensures (r.Some? && !ContainsAny(text, AllDayWords) && !ContainsAny(text, MostlyHomeWords)
             && !ContainsAny(text, OfficeWorkerWords)) ==>
      HoursMentioned(text).Some? && r.value == HoursBucket(HoursMentioned(text).value)
    ensures (!ContainsAny(text, AllDayWords) && !ContainsAny(text, MostlyHomeWords)
             && !ContainsAny(text, OfficeWorkerWords) && HoursMentioned(text).None?) ==> r.None?
    ensures (&& !HasNegativePattern(text) && HasCompanionContext(text)
             && (|| ContainsAny(text, AllDayWords) || ContainsAny(text, MostlyHomeWords)
                 || ContainsAny(text, OfficeWorkerWords) || HoursMentioned(text).Some?)) ==> r.Some?
  {
    if HasNegativePattern(text) then None
    else if !HasCompanionContext(text) then None
    else if ContainsAny(text, AllDayWords) then Some(AtLeast8h)
    else if ContainsAny(text, MostlyHomeWords) then Some(Hours4To8)
    else if ContainsAny(text, OfficeWorkerWords) then Some(AtMost1h)
    else match HoursMentioned(text)
      case Some(c) => Some(HoursBucket(c))
      case None => None
  }

  /** `extract`: the three extractors run side by side on the same text. */
  function Extract(text: string): (r: ExtractedDogInfo)
    ensures r.breed == ExtractBreed(text)
    ensures r.ageMonths == ExtractAgeMonths(text)
    ensures r.companionHours == ExtractCompanionHours(text)
  {
    ExtractedDogInfo(ExtractBreed(text), ExtractAgeMonths(text), ExtractCompanionHours(text))
  }
}
