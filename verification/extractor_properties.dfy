/**
 * Properties of the dog-information extractor stated at the level of occurrences: a word
 * "occurs" when it is a slice of the message (`Mentions`, `OccursAt`).
 */
module ExtractorProperties {
  import opened Wrappers
  import opened Text
  import opened Scan
  import opened Lexicon
  import opened DogInfoExtractor

  /** A veto phrase anywhere in the message silences all three fields, whatever surrounds it. */
  lemma NegativeVetoesAll(before: string, k: nat, after: string)
    requires k < |Negatives|
    ensures Extract(before + Negatives[k] + after) == ExtractedDogInfo(None, None, None)
  {
    var text := before + Negatives[k] + after;
    assert OccursAt(text, |before|, Negatives[k]) by {
      assert text[|before|..|before| + |Negatives[k]|] == Negatives[k];
    }
    ContainsAnyMentions(text, Negatives);
  }

  /** Without an ownership or decision verb in the message there is no breed and no age. */
  lemma TriggerRequired(text: string)
    requires !Mentions(text, Triggers)
    ensures ExtractBreed(text).None? && ExtractAgeMonths(text).None?
  {
    ContainsAnyMentions(text, Triggers);
  }

  /**
   * Once the gates pass, the breed reported is the one listed first among those that occur,
   * regardless of where in the message each occurs.
   */
  lemma BreedFirstInDeclarationOrder(text: string, k: nat)
    requires !Mentions(text, Negatives) && Mentions(text, Triggers)
    requires k < |DogBreeds| && exists i: nat :: OccursAt(text, i, DogBreeds[k])
    requires forall j: nat, i: nat :: j < k ==> !OccursAt(text, i, DogBreeds[j])
    ensures ExtractBreed(text) == Some(DogBreeds[k])
  {
    ContainsAnyMentions(text, Negatives);
    ContainsAnyMentions(text, Triggers);
    ContainsIff(text, DogBreeds[k]);
    forall j | 0 <= j < k ensures !Contains(text, DogBreeds[j]) {
      ContainsIff(text, DogBreeds[j]);
    }
    FirstContainedAt(text, DogBreeds, k);
  }

  /** The first-hit search lands on `k` when `k` is contained and nothing before it is. */
  lemma FirstContainedAt(s: string, pats: seq<string>, k: nat)
    requires k < |pats| && Contains(s, pats[k])
    requires forall j :: 0 <= j < k ==> !Contains(s, pats[j])
    ensures FirstContained(s, pats, 0) == Some(k)
  {
  }

  /** Once the gates pass and no listed breed occurs, there is no breed. */
  lemma NoListedBreedNoBreed(text: string)
    requires !Mentions(text, Negatives) && Mentions(text, Triggers)
    requires forall j: nat, i: nat :: j < |DogBreeds| ==> !OccursAt(text, i, DogBreeds[j])
    ensures ExtractBreed(text).None?
  {
    ContainsAnyMentions(text, Negatives);
    ContainsAnyMentions(text, Triggers);
    forall j | 0 <= j < |DogBreeds| ensures !Contains(text, DogBreeds[j]) {
      ContainsIff(text, DogBreeds[j]);
    }
  }

  /** '萨摩耶' is listed before '萨摩', so a message naming a Samoyed never yields the shorter name. */
  lemma SamoyedNeverShortened(text: string)
    requires Contains(text, "萨摩耶")
    ensures ExtractBreed(text) != Some("萨摩")
  {
    var r := FirstContained(text, DogBreeds, 0);
    assert DogBreeds[4] == "萨摩耶";
    if r.Some? {
      var k := r.value;
      if k > 4 {
        assert false;
      }
      assert DogBreeds[k] in ["金毛", "拉布拉多", "拉拉", "哈士奇", "萨摩耶"];
    }
  }

  /** Juvenile words decide the age before adult words and before any month count. */
  lemma JuvenileWordsFirst(text: string)
    requires !Mentions(text, Negatives) && Mentions(text, Triggers)
    requires Mentions(text, JuvenileWords)
    ensures ExtractAgeMonths(text) == Some(Months1To3)
  {
    ContainsAnyMentions(text, Negatives);
    ContainsAnyMentions(text, Triggers);
    ContainsAnyMentions(text, JuvenileWords);
  }

  /** Without juvenile words, adult words decide the age before any month count. */
  lemma AdultWordsBeforeNumbers(text: string)
    requires !Mentions(text, Negatives) && Mentions(text, Triggers)
    requires !Mentions(text, JuvenileWords) && Mentions(text, AdultWords)
    ensures ExtractAgeMonths(text) == Some(Months12Plus)
  {
    ContainsAnyMentions(text, Negatives);
    ContainsAnyMentions(text, Triggers);
    ContainsAnyMentions(text, JuvenileWords);
    ContainsAnyMentions(text, AdultWords);
  }

  /**
   * The second month pattern `(\d+)\s*月大` never decides anything: wherever it matches,
   * the first pattern matches at the same place, so the first pattern's search succeeds.
   */
  lemma SecondMonthPatternRedundant(text: string)
    ensures Leftmost(MonthsOldAt, text, 0).Some? ==> Leftmost(MonthsCountAt, text, 0).Some?
    ensures MonthsMentioned(text) ==
      (match Leftmost(MonthsCountAt, text, 0) case Some(f) => Some(f.captures) case None => None)
  {
    var viaOld := Leftmost(MonthsOldAt, text, 0);
    if viaOld.Some? {
      OldPatternImpliesCountPattern(text, viaOld.value.start);
    }
  }

  lemma OldPatternImpliesCountPattern(text: string, i: nat)
    requires MonthsOldAt(text, i).Some?
    ensures MonthsCountAt(text, i).Some?
  {
    var digits := DigitRun(text, i);
    var k := i + |digits| + Span(text, i + |digits|, Space);
    MatchesAtIff(text, k, "月大");
    assert text[k] == text[k..k + 2][0];
  }

  /**
   * Past the gates and without juvenile or adult words, the leftmost match of the first
   * month pattern decides the age bucket from its digit run.
   */
  lemma MonthsDecide(text: string, i: nat)
    requires !Mentions(text, Negatives) && Mentions(text, Triggers)
    requires !Mentions(text, JuvenileWords) && !Mentions(text, AdultWords)
    requires i <= |text| && MonthsCountAt(text, i).Some?
    requires forall k :: 0 <= k < i ==> MonthsCountAt(text, k).None?
    ensures ExtractAgeMonths(text) == Some(MapToAgeRange(MonthsCountAt(text, i).value))
  {
    ContainsAnyMentions(text, Negatives);
    ContainsAnyMentions(text, Triggers);
    ContainsAnyMentions(text, JuvenileWords);
    ContainsAnyMentions(text, AdultWords);
    LeftmostIs(MonthsCountAt, text, i);
  }

  /** Past the gates and without age words, a message with no month count gives no age. */
  lemma NoMonthsNoAge(text: string)
    requires !Mentions(text, JuvenileWords) && !Mentions(text, AdultWords)
    requires forall k :: 0 <= k <= |text| ==> MonthsCountAt(text, k).None?
    ensures ExtractAgeMonths(text).None?
  {
    ContainsAnyMentions(text, JuvenileWords);
    ContainsAnyMentions(text, AdultWords);
    SecondMonthPatternRedundant(text);
  }

  /** Age buckets never decrease as the month count grows. */
  lemma AgeBucketsMonotone(m1: int, m2: int)
    requires m1 <= m2
    ensures MapToAgeRange(m1).Rank() <= MapToAgeRange(m2).Rank()
  {
  }

  /** With the veto absent and some companion trigger present, the categorical words decide in priority order. */
  lemma CompanionCategoriesInPriority(text: string)
    requires !Mentions(text, Negatives) && Mentions(text, CompanionContext)
    ensures Mentions(text, AllDayWords) ==> ExtractCompanionHours(text) == Some(AtLeast8h)
    ensures !Mentions(text, AllDayWords) && Mentions(text, MostlyHomeWords) ==>
      ExtractCompanionHours(text) == Some(Hours4To8)
    ensures !Mentions(text, AllDayWords) && !Mentions(text, MostlyHomeWords) && Mentions(text, OfficeWorkerWords) ==>
      ExtractCompanionHours(text) == Some(AtMost1h)
  {
    ContainsAnyMentions(text, Negatives);
    ContainsAnyMentions(text, CompanionContext);
    ContainsAnyMentions(text, AllDayWords);
    ContainsAnyMentions(text, MostlyHomeWords);
    ContainsAnyMentions(text, OfficeWorkerWords);
  }

  /** Every ownership or decision verb is also a companion trigger, so the companion gate is the wider one. */
  lemma CompanionGateWider(text: string)
    requires HasTriggerVerb(text)
    ensures HasCompanionContext(text)
  {
    ContainsAnyIff(text, Triggers);
    ContainsAnyIff(text, CompanionContext);
    var k :| 0 <= k < |Triggers| && Contains(text, Triggers[k]);
    assert CompanionContext[6 + k] == Triggers[k];
  }

  /** No veto, a companion trigger, and none of the categorical words: the hour patterns decide. */
  ghost predicate HoursPatternsDecide(text: string) {
    && !Mentions(text, Negatives) && Mentions(text, CompanionContext)
    && !Mentions(text, AllDayWords) && !Mentions(text, MostlyHomeWords) && !Mentions(text, OfficeWorkerWords)
  }

  lemma HoursGatesPass(text: string)
    requires HoursPatternsDecide(text)
    ensures !HasNegativePattern(text) && HasCompanionContext(text)
    ensures !ContainsAny(text, AllDayWords) && !ContainsAny(text, MostlyHomeWords) && !ContainsAny(text, OfficeWorkerWords)
  {
    ContainsAnyMentions(text, Negatives);
    ContainsAnyMentions(text, CompanionContext);
    ContainsAnyMentions(text, AllDayWords);
    ContainsAnyMentions(text, MostlyHomeWords);
    ContainsAnyMentions(text, OfficeWorkerWords);
  }

  /** The leftmost every-day hour phrase (`[每一]\s*天…时`) decides the bucket, being listed first. */
  lemma EveryDayHoursDecide(text: string, i: nat)
    requires HoursPatternsDecide(text)
    requires i <= |text| && EveryDayHoursAt(text, i).Some?
    requires forall k :: 0 <= k < i ==> EveryDayHoursAt(text, k).None?
    ensures ExtractCompanionHours(text) == Some(HoursBucket(EveryDayHoursAt(text, i).value))
  {
    HoursGatesPass(text);
    LeftmostIs(EveryDayHoursAt, text, i);
  }

  /** With no every-day hour phrase anywhere, the leftmost `能陪…时` phrase decides the bucket. */
  lemma CanAccompanyHoursDecide(text: string, i: nat)
    requires HoursPatternsDecide(text)
    requires forall k :: 0 <= k <= |text| ==> EveryDayHoursAt(text, k).None?
    requires i <= |text| && CanAccompanyHoursAt(text, i).Some?
    requires forall k :: 0 <= k < i ==> CanAccompanyHoursAt(text, k).None?
    ensures ExtractCompanionHours(text) == Some(HoursBucket(CanAccompanyHoursAt(text, i).value))
  {
    HoursGatesPass(text);
    LeftmostIs(CanAccompanyHoursAt, text, i);
  }

  /** With neither earlier hour phrase anywhere, the leftmost `陪伴…时` phrase decides the bucket. */
  lemma AccompanyHoursDecide(text: string, i: nat)
    requires HoursPatternsDecide(text)
    requires forall k :: 0 <= k <= |text| ==> EveryDayHoursAt(text, k).None?
    requires forall k :: 0 <= k <= |text| ==> CanAccompanyHoursAt(text, k).None?
    requires i <= |text| && AccompanyHoursAt(text, i).Some?
    requires forall k :: 0 <= k < i ==> AccompanyHoursAt(text, k).None?
    ensures ExtractCompanionHours(text) == Some(HoursBucket(AccompanyHoursAt(text, i).value))
  {
    assert Leftmost(EveryDayHoursAt, text, 0).None?;
    assert Leftmost(CanAccompanyHoursAt, text, 0).None?;
    HoursGatesPass(text);
    LeftmostIs(AccompanyHoursAt, text, i);
  }

  /** With none of the three hour phrases anywhere, no companion time is reported. */
  lemma NoHoursPhraseNoHours(text: string)
    requires !Mentions(text, AllDayWords) && !Mentions(text, MostlyHomeWords) && !Mentions(text, OfficeWorkerWords)
    requires forall k :: 0 <= k <= |text| ==> EveryDayHoursAt(text, k).None?
    requires forall k :: 0 <= k <= |text| ==> CanAccompanyHoursAt(text, k).None?
    requires forall k :: 0 <= k <= |text| ==> AccompanyHoursAt(text, k).None?
    ensures ExtractCompanionHours(text).None?
  {
    ContainsAnyMentions(text, AllDayWords);
    ContainsAnyMentions(text, MostlyHomeWords);
    ContainsAnyMentions(text, OfficeWorkerWords);
  }

  /** The source's average: `hours2 ? (hours + hours2) / 2 : hours`, in real division. */
  function SourceAverage(c: HourCapture): real {
    if c.second.Some? && c.second.value != 0 then (c.first + c.second.value) as real / 2.0 else c.first as real
  }

  /** The doubled-integer buckets agree with the source's thresholds 1, 3 and 8 on the real average. */
  lemma HoursBucketOnAverage(c: HourCapture)
    ensures HoursBucket(c) == AtMost1h <==> SourceAverage(c) <= 1.0
    ensures HoursBucket(c) == Hours2To3 <==> 1.0 < SourceAverage(c) <= 3.0
    ensures HoursBucket(c) == Hours4To8 <==> 3.0 < SourceAverage(c) <= 8.0
    ensures HoursBucket(c) == AtLeast8h <==> 8.0 < SourceAverage(c)
  {
    assert TwiceAverage(c) as real == 2.0 * SourceAverage(c);
  }

  /** A second number of zero is ignored rather than averaged in. */
  lemma ZeroSecondNumberIgnored(first: nat)
    ensures HoursBucket(HourCapture(first, Some(0))) == HoursBucket(HourCapture(first, None))
  {
  }

  /** Hour buckets never decrease as the averaged hours grow. */
  lemma HourBucketsMonotone(c1: HourCapture, c2: HourCapture)
    requires TwiceAverage(c1) <= TwiceAverage(c2)
    ensures HoursBucket(c1).Rank() <= HoursBucket(c2).Rank()
  {
  }
}
